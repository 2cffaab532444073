/**
 * The global application-status slice: one record with a request status, the
 * last error message and an "initialized" flag.  Three setters overwrite one
 * field each; an ordered chain of matchers observes the lifecycle actions
 * (pending / fulfilled / rejected) of every asynchronous operation.
 */
module App {
  import opened Wrappers

  datatype RequestStatus = Idle | Loading | Succeeded | Failed

  /** A value snapshot of the slice's three fields. */
  datatype AppState = AppState(status: RequestStatus, error: Option<string>, isInitialized: bool)

  const InitialState := AppState(Idle, None, false)

  /** Generic message used when a failure carries no message of its own. */
  const FallbackError := "Some error occurred"

  /** Type prefix of the authentication slice's initialization operation. */
  const InitializeAppPrefix := "auth/initializeApp"

  /** Operation names whose payload-carrying rejections leave `error` alone. */
  const AllowList := ["addTodolist", "addTask", "initializeApp"]

  datatype Phase = Pending | Fulfilled | Rejected

  function PhaseSuffix(p: Phase): string {
    match p
    case Pending => "pending"
    case Fulfilled => "fulfilled"
    case Rejected => "rejected"
  }

  /** The type string of a lifecycle action: `<prefix>/<phase>`. */
  function LifecycleType(prefix: string, p: Phase): string {
    prefix + "/" + PhaseSuffix(p)
  }

  /**
   * The actions the slice can observe: its own three setters, the lifecycle
   * actions of any asynchronous operation (with the rejection payload's
   * `messages`, if a payload is present, and `error.message`), and any other
   * action of the application.  An `Unrelated` action's type is neither
   * initializeApp's fulfilled nor its rejected type: the initialization matcher
   * compares type strings only, so a plain action carrying one of those types
   * would be a `Lifecycle` action here.
   */
  datatype AppAction =
    | SetAppError(error: Option<string>)
    | SetAppStatus(status: RequestStatus)
    | SetAppInitialized(isInitialized: bool)
    | Lifecycle(typePrefix: string, phase: Phase, payload: Option<seq<string>>, errorMessage: Option<string>)
    | Unrelated(actionType: string)

  predicate OccursAt(s: string, part: string, i: int) {
    0 <= i && i + |part| <= |s| && s[i..i + |part|] == part
  }

  /** JavaScript's `String.prototype.includes`. */
  function Includes(s: string, part: string): (r: bool)
    ensures r <==> exists i :: OccursAt(s, part, i)
    decreases |s|
  {
    if |s| < |part| then
      assert forall i :: !OccursAt(s, part, i);
      false
    else if s[..|part|] == part then
      assert OccursAt(s, part, 0);
      true
    else
      ShiftOccurrence(s, part);
      Includes(s[1..], part)
  }

  /** Away from position 0, occurrences in `s` are those in `s[1..]`, shifted by one. */
  lemma ShiftOccurrence(s: string, part: string)
    requires |s| >= |part| && s[..|part|] != part
    ensures (exists i :: OccursAt(s, part, i)) <==> (exists j :: OccursAt(s[1..], part, j))
  {
    if i :| OccursAt(s, part, i) {
      assert i != 0;
      assert s[1..][i - 1..i - 1 + |part|] == s[i..i + |part|];
      assert OccursAt(s[1..], part, i - 1);
    }
    if j :| OccursAt(s[1..], part, j) {
      assert s[1..][j..j + |part|] == s[j + 1..j + 1 + |part|];
      assert OccursAt(s, part, j + 1);
    }
  }

  /** The substring allow-list test on an action's type string. */
  function AllowListed(actionType: string): (r: bool)
    ensures r <==> exists k, i :: 0 <= k < |AllowList| && OccursAt(actionType, AllowList[k], i)
  {
    Includes(actionType, AllowList[0]) || Includes(actionType, AllowList[1]) || Includes(actionType, AllowList[2])
  }

  /** `messages[0]`, with no emptiness check: an empty list yields `undefined`. */
  function FirstMessage(messages: seq<string>): (r: Option<string>)
    ensures r.Some? <==> |messages| > 0
    ensures r.Some? ==> r.value == messages[0]
  {
    if |messages| > 0 then Some(messages[0]) else None
  }

  /** `error.message` if it is truthy (present and non-empty), else the fallback. */
  function RejectionMessage(errorMessage: Option<string>): (r: string)
    ensures r != ""
    ensures errorMessage.Some? && errorMessage.value != "" ==> r == errorMessage.value
    ensures !(errorMessage.Some? && errorMessage.value != "") ==> r == FallbackError
  {
    if errorMessage.Some? && errorMessage.value != "" then errorMessage.value else FallbackError
  }

  /** The initialization operation has settled, either way. */
  predicate SettlesInitializeApp(a: AppAction) {
    a.Lifecycle? && a.typePrefix == InitializeAppPrefix && a.phase != Pending
  }

  /** The value `error` takes when a rejection is observed. */
  function ErrorAfterRejection(current: Option<string>, prefix: string, payload: Option<seq<string>>,
                               errorMessage: Option<string>): (r: Option<string>)
    ensures payload.Some? && AllowListed(LifecycleType(prefix, Rejected)) ==> r == current
    ensures payload.Some? && !AllowListed(LifecycleType(prefix, Rejected)) ==> r == FirstMessage(payload.value)
    ensures payload.None? ==> r == Some(RejectionMessage(errorMessage))
  {
    match payload
    case Some(messages) =>
      if AllowListed(LifecycleType(prefix, Rejected)) then current else FirstMessage(messages)
    case None => Some(RejectionMessage(errorMessage))
  }

  /**
   * Reference semantics of the slice, one action at a time, organised by the
   * kind of action rather than by the order in which the matchers run.
   */
  function Step(s: AppState, a: AppAction): (r: AppState)
    ensures r.status != s.status ==> a.SetAppStatus? || a.Lifecycle?
    ensures r.error != s.error ==> a.SetAppError? || (a.Lifecycle? && a.phase == Rejected)
    ensures r.isInitialized != s.isInitialized ==> a.SetAppInitialized? || SettlesInitializeApp(a)
    ensures s.isInitialized && !a.SetAppInitialized? ==> r.isInitialized
  {
    match a
    case SetAppError(e) => s.(error := e)
    case SetAppStatus(st) => s.(status := st)
    case SetAppInitialized(b) => s.(isInitialized := b)
    case Unrelated(_) => s
    case Lifecycle(prefix, phase, payload, errorMessage) =>
      var initialized := s.isInitialized || SettlesInitializeApp(a);
      match phase
      case Pending => s.(status := Loading)
      case Fulfilled => AppState(Succeeded, s.error, initialized)
      case Rejected => AppState(Failed, ErrorAfterRejection(s.error, prefix, payload, errorMessage), initialized)
  }

  /** The slice's state after a whole stream of actions. */
  function ApplyAll(s: AppState, actions: seq<AppAction>): AppState
    decreases |actions|
  {
    if actions == [] then s else ApplyAll(Step(s, actions[0]), actions[1..])
  }

  predicate IsPending(a: AppAction) { a.Lifecycle? && a.phase == Pending }
  predicate IsRejected(a: AppAction) { a.Lifecycle? && a.phase == Rejected }
  predicate IsFulfilled(a: AppAction) { a.Lifecycle? && a.phase == Fulfilled }

  /** `isAnyOf(initializeApp.fulfilled, initializeApp.rejected)`: exact type-string equality. */
  function MatchesInitializeAppSettled(a: AppAction): (r: bool)
    ensures r <==> SettlesInitializeApp(a)
  {
    if !a.Lifecycle? then false
    else
      var t := LifecycleType(a.typePrefix, a.phase);
      if t == LifecycleType(InitializeAppPrefix, Fulfilled) then
        SamePrefix(a.typePrefix, a.phase, Fulfilled);
        true
      else if t == LifecycleType(InitializeAppPrefix, Rejected) then
        SamePrefix(a.typePrefix, a.phase, Rejected);
        true
      else
        false
  }

  /** The slice's state, updated in place by the reducer. */
  class AppStore {
    var status: RequestStatus
    var error: Option<string>
    var isInitialized: bool

    function State(): AppState
      reads this
    {
      AppState(status, error, isInitialized)
    }

    constructor ()
      ensures State() == InitialState
    {
      status, error, isInitialized := Idle, None, false;
    }

    /**
     * The reducer: a setter writes its own field; any other action runs
     * through the matchers in their registration order, every matching one
     * applying its update; an action no case or matcher accepts only reaches
     * the logging default case.
     */
    method Dispatch(a: AppAction)
      modifies this
      ensures State() == Step(old(State()), a)
    {
      match a {
        case SetAppError(e) =>
          error := e;
        case SetAppStatus(st) =>
          status := st;
        case SetAppInitialized(b) =>
          isInitialized := b;
        case Unrelated(_) =>
          // Only the logging default case runs.
        case Lifecycle(prefix, phase, payload, errorMessage) =>
          if IsPending(a) {
            status := Loading;
          }
          if IsRejected(a) {
            status := Failed;
            if payload.Some? {
              if !AllowListed(LifecycleType(prefix, phase)) {
                error := FirstMessage(payload.value);
              }
            } else {
              error := Some(RejectionMessage(errorMessage));
            }
          }
          if IsFulfilled(a) {
            status := Succeeded;
          }
          if MatchesInitializeAppSettled(a) {
            isInitialized := true;
          }
      }
    }
  }

  /** Two lifecycle type strings agree only when prefix and phase both agree. */
  lemma SamePrefix(prefix: string, p: Phase, q: Phase)
    requires LifecycleType(prefix, p) == LifecycleType(InitializeAppPrefix, q)
    ensures prefix == InitializeAppPrefix && p == q
  {
    var t := LifecycleType(prefix, p);
    var sp, sq := PhaseSuffix(p), PhaseSuffix(q);
    assert t[|t| - 1] == sp[|sp| - 1] == sq[|sq| - 1];
    assert t[|t| - 3] == sp[|sp| - 3] == sq[|sq| - 3];
    assert p == q;
    assert prefix == t[..|prefix|] == InitializeAppPrefix;
  }

  /** Each setter overwrites its own field with the payload and nothing else. */
  lemma SettersOverwriteOnlyTheirField(s: AppState, e: Option<string>, st: RequestStatus, b: bool)
    ensures var r := Step(s, SetAppError(e)); r.error == e && r.status == s.status && r.isInitialized == s.isInitialized
    ensures var r := Step(s, SetAppStatus(st)); r.status == st && r.error == s.error && r.isInitialized == s.isInitialized
    ensures var r := Step(s, SetAppInitialized(b)); r.isInitialized == b && r.status == s.status && r.error == s.error
  {
  }

  /** Any pending action shows loading and keeps the other two fields. */
  lemma PendingSetsLoading(s: AppState, a: AppAction)
    requires IsPending(a)
    ensures Step(s, a) == s.(status := Loading)
  {
  }

  /** A rejection whose payload is present and whose type is allow-listed keeps `error`. */
  lemma RejectedAllowListedKeepsError(s: AppState, a: AppAction)
    requires IsRejected(a) && a.payload.Some? && AllowListed(LifecycleType(a.typePrefix, Rejected))
    ensures Step(s, a).status == Failed && Step(s, a).error == s.error
  {
  }

  /** A rejection whose payload is present and whose type is not allow-listed shows its first message. */
  lemma RejectedWithPayloadShowsFirstMessage(s: AppState, a: AppAction)
    requires IsRejected(a) && a.payload.Some? && !AllowListed(LifecycleType(a.typePrefix, Rejected))
    ensures Step(s, a).status == Failed
    ensures |a.payload.value| > 0 ==> Step(s, a).error == Some(a.payload.value[0])
    ensures |a.payload.value| == 0 ==> Step(s, a).error == None
  {
  }

  /**
   * A rejection without payload shows the action's own error message, or the
   * fallback: whatever `error` held before is overwritten, whatever the type.
   */
  lemma RejectedWithoutPayloadOverwritesError(s: AppState, a: AppAction)
    requires IsRejected(a) && a.payload.None?
    ensures Step(s, a).status == Failed
    ensures a.errorMessage.Some? && a.errorMessage.value != "" ==> Step(s, a).error == a.errorMessage
    ensures !(a.errorMessage.Some? && a.errorMessage.value != "") ==> Step(s, a).error == Some(FallbackError)
  {
  }

  /** Any fulfilled action shows succeeded and keeps `error`. */
  lemma FulfilledSetsSucceeded(s: AppState, a: AppAction)
    requires IsFulfilled(a)
    ensures Step(s, a).status == Succeeded && Step(s, a).error == s.error
  {
  }

  /**
   * The initialization operation settling either way sets `isInitialized`, and
   * the general matchers update status (and, on rejection, error) in the same step.
   */
  lemma InitializeAppSettles(s: AppState, a: AppAction)
    requires SettlesInitializeApp(a)
    ensures Step(s, a).isInitialized
    ensures Step(s, a).status == if a.phase == Fulfilled then Succeeded else Failed
  {
  }

  /** Payload-carrying rejections of the initialization operation are allow-listed. */
  lemma InitializeAppIsAllowListed()
    ensures AllowListed(LifecycleType(InitializeAppPrefix, Rejected))
  {
    assert OccursAt(LifecycleType(InitializeAppPrefix, Rejected), AllowList[2], 5);
  }

  /** An action that no case and no matcher accepts changes nothing. */
  lemma UnmatchedIsNoOp(s: AppState, t: string)
    ensures Step(s, Unrelated(t)) == s
  {
  }

  /** Running two streams one after the other is running their concatenation. */
  lemma {:induction false} ApplyAllConcat(s: AppState, xs: seq<AppAction>, ys: seq<AppAction>)
    ensures ApplyAll(s, xs + ys) == ApplyAll(ApplyAll(s, xs), ys)
    decreases |xs|
  {
    if xs == [] {
      assert xs + ys == ys;
    } else {
      assert (xs + ys)[0] == xs[0] && (xs + ys)[1..] == xs[1..] + ys;
      ApplyAllConcat(Step(s, xs[0]), xs[1..], ys);
    }
  }

  /** Once set, `isInitialized` stays set unless a setter explicitly clears it. */
  lemma {:induction false} InitializedNeverReverts(s: AppState, actions: seq<AppAction>)
    requires s.isInitialized
    requires forall i :: 0 <= i < |actions| ==> actions[i] != SetAppInitialized(false)
    ensures ApplyAll(s, actions).isInitialized
    decreases |actions|
  {
    if actions != [] {
      InitializedNeverReverts(Step(s, actions[0]), actions[1..]);
    }
  }
}
