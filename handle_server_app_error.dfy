/**
 * The application-error handler: given the messages of a response envelope
 * whose result code is non-zero, it optionally shows an error and always marks
 * the request as failed.
 */
module ServerAppError {
  import opened Wrappers
  import opened App

  /** The message shown: the envelope's first message, or the fallback if there is none. */
  function ShownError(messages: seq<string>): (r: string)
    ensures |messages| > 0 ==> r == messages[0]
    ensures |messages| == 0 ==> r == FallbackError
  {
    if |messages| > 0 then messages[0] else FallbackError
  }

  /** The actions the handler dispatches, in order; `showError` defaults to true. */
  function ServerAppErrorActions(messages: seq<string>, showError: bool := true): (r: seq<AppAction>)
    ensures 1 <= |r| <= 2 && r[|r| - 1] == SetAppStatus(Failed)
    ensures |r| == 2 <==> showError
    ensures forall i :: 0 <= i < |r| - 1 ==> r[i] == SetAppError(Some(ShownError(messages)))
  {
    var status := [SetAppStatus(Failed)];
    if showError then [SetAppError(Some(ShownError(messages)))] + status else status
  }

  /**
   * What the handler leaves in the application state: status failed whatever
   * the flag and messages, the error shown only when asked, and the
   * initialization flag untouched.
   */
  lemma ServerAppErrorOutcome(s: AppState, messages: seq<string>, showError: bool)
    ensures var r := ApplyAll(s, ServerAppErrorActions(messages, showError));
      && r.status == Failed
      && r.isInitialized == s.isInitialized
      && (showError && |messages| > 0 ==> r.error == Some(messages[0]))
      && (showError && |messages| == 0 ==> r.error == Some(FallbackError))
      && (!showError ==> r.error == s.error)
  {
    var actions := ServerAppErrorActions(messages, showError);
    var s1 := Step(s, actions[0]);
    assert ApplyAll(s, actions) == ApplyAll(s1, actions[1..]);
    if showError {
      assert ApplyAll(s1, actions[1..]) == ApplyAll(Step(s1, actions[1]), []);
    }
  }

  /** The handler itself, dispatching into the application store step by step. */
  method HandleServerAppError(store: AppStore, messages: seq<string>, showError: bool := true)
    returns (sent: seq<AppAction>)
    modifies store
    ensures sent == ServerAppErrorActions(messages, showError)
    ensures store.State() == ApplyAll(old(store.State()), sent)
    ensures store.status == Failed && store.isInitialized == old(store.isInitialized)
    ensures store.error == if showError then Some(ShownError(messages)) else old(store.error)
  {
    ghost var before := store.State();
    sent := [];
    if showError {
      var action := SetAppError(Some(ShownError(messages)));
      store.Dispatch(action);
      sent := sent + [action];
    }
    var action := SetAppStatus(Failed);
    store.Dispatch(action);
    sent := sent + [action];
    ServerAppErrorOutcome(before, messages, showError);
    if showError {
      assert ApplyAll(before, sent) == ApplyAll(Step(Step(before, sent[0]), sent[1]), []);
    } else {
      assert ApplyAll(before, sent) == ApplyAll(Step(before, sent[0]), []);
    }
  }
}
