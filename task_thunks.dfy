/**
 * The asynchronous task operations.  Each takes the gateway's answer as a
 * parameter and returns its outcome (fulfilled with a value, or rejected with
 * a null payload) together with the ordered effects it dispatched.
 */
module TaskThunks {
  import opened Wrappers
  import App
  import opened Tasks
  import ServerAppError

  const AddTaskPrefix := "tasks/addTask"
  const TaskNotFound := "Task not found"

  /** A gateway call: a response envelope, or a raised failure with an optional message. */
  datatype Gateway<D> = Ok(resultCode: int, messages: seq<string>, data: D) | Thrown(message: Option<string>)

  /** What the operation settles with: `rejectWithValue(null)` is the only rejection. */
  datatype Outcome<T> = Fulfilled(value: T) | RejectedNull

  /** What the network-error handler is given. */
  datatype Failure = GatewayThrew(message: Option<string>) | MissingTaskList(todolistId: string)

  /** One dispatched effect, in order. The network-error handler's own effects are not modelled. */
  datatype Effect =
    | Dispatch(action: App.AppAction)
    | DispatchRemoveTask(taskId: string, todolistId: string)
    | HandleNetworkError(cause: Failure)

  datatype FetchedTasks = FetchedTasks(tasks: seq<Task>, todolistId: string)
  datatype AddTaskArg = AddTaskArg(title: string, todolistId: string)

  const ShowLoading := Dispatch(App.SetAppStatus(App.Loading))
  const ShowSucceeded := Dispatch(App.SetAppStatus(App.Succeeded))

  function Dispatches(actions: seq<App.AppAction>): seq<Effect> {
    seq(|actions|, i requires 0 <= i < |actions| => Dispatch(actions[i]))
  }

  /** The effects of the application-error handler with its default flag: its actions, all dispatched to the application slice. */
  function ServerAppErrorEffects(messages: seq<string>): (r: seq<Effect>)
    ensures forall i :: 0 <= i < |r| ==> r[i].Dispatch?
    ensures AppView(r) == ServerAppError.ServerAppErrorActions(messages)
  {
    AppViewOfDispatches(ServerAppError.ServerAppErrorActions(messages));
    Dispatches(ServerAppError.ServerAppErrorActions(messages))
  }

  /** `fetchTasks`: never looks at the result code. */
  method FetchTasks(todolistId: string, gateway: Gateway<seq<Task>>)
    returns (outcome: Outcome<FetchedTasks>, sent: seq<Effect>)
    ensures outcome.Fulfilled? <==> gateway.Ok?
    ensures gateway.Ok? ==>
      outcome.value == FetchedTasks(gateway.data, todolistId) && sent == [ShowLoading, ShowSucceeded]
    ensures gateway.Thrown? ==> sent == [ShowLoading, HandleNetworkError(GatewayThrew(gateway.message))]
  {
    sent := [ShowLoading];
    match gateway {
      case Ok(_, _, items) =>
        sent := sent + [ShowSucceeded];
        outcome := Fulfilled(FetchedTasks(items, todolistId));
      case Thrown(message) =>
        sent := sent + [HandleNetworkError(GatewayThrew(message))];
        outcome := RejectedNull;
    }
  }

  /** `addTask`: fulfilled with the created task only when the result code is 0. */
  method AddTask(arg: AddTaskArg, gateway: Gateway<Task>)
    returns (outcome: Outcome<Task>, sent: seq<Effect>)
    ensures outcome.Fulfilled? <==> gateway.Ok? && gateway.resultCode == 0
    ensures outcome.Fulfilled? ==> outcome.value == gateway.data && sent == [ShowLoading, ShowSucceeded]
    ensures gateway.Ok? && gateway.resultCode != 0 ==> sent == [ShowLoading] + ServerAppErrorEffects(gateway.messages)
    ensures gateway.Thrown? ==> sent == [ShowLoading, HandleNetworkError(GatewayThrew(gateway.message))]
  {
    sent := [ShowLoading];
    match gateway {
      case Ok(resultCode, messages, item) =>
        if resultCode == 0 {
          sent := sent + [ShowSucceeded];
          outcome := Fulfilled(item);
        } else {
          sent := sent + ServerAppErrorEffects(messages);
          outcome := RejectedNull;
        }
      case Thrown(message) =>
        sent := sent + [HandleNetworkError(GatewayThrew(message))];
        outcome := RejectedNull;
    }
  }

  /** `.find` on the current list yields a task: the list exists and holds a task with the id. */
  function FindsTask(state: map<string, seq<Task>>, arg: UpdateTaskArg): (r: bool)
    ensures r <==> (arg.todolistId in state &&
                    exists j :: 0 <= j < |state[arg.todolistId]| && state[arg.todolistId][j].id == arg.taskId)
  {
    arg.todolistId in state && FirstIndexOf(state[arg.todolistId], arg.taskId) != -1
  }

  /** `updateTask`: `request` is the model sent to the gateway, `None` when it is not called. */
  method UpdateTask(state: map<string, seq<Task>>, arg: UpdateTaskArg, gateway: Gateway<()>)
    returns (outcome: Outcome<UpdateTaskArg>, sent: seq<Effect>, request: Option<UpdateTaskModel>)
    ensures request.Some? <==> FindsTask(state, arg)
    ensures arg.todolistId !in state ==>
      outcome == RejectedNull && sent == [ShowLoading, HandleNetworkError(MissingTaskList(arg.todolistId))]
    ensures arg.todolistId in state && !FindsTask(state, arg) ==>
      outcome == RejectedNull && sent == [ShowLoading, Dispatch(App.SetAppError(Some(TaskNotFound)))]
    ensures FindsTask(state, arg) ==>
      var list := state[arg.todolistId];
      request.value == ApiModel(list[FirstIndexOf(list, arg.taskId)], arg.domainModel)
    ensures outcome.Fulfilled? <==> FindsTask(state, arg) && gateway.Ok? && gateway.resultCode == 0
    ensures outcome.Fulfilled? ==> outcome.value == arg && sent == [ShowLoading, ShowSucceeded]
    ensures FindsTask(state, arg) && gateway.Ok? && gateway.resultCode != 0 ==>
      sent == [ShowLoading] + ServerAppErrorEffects(gateway.messages)
    ensures FindsTask(state, arg) && gateway.Thrown? ==>
      sent == [ShowLoading, HandleNetworkError(GatewayThrew(gateway.message))]
  {
    sent := [ShowLoading];
    request := None;
    if arg.todolistId !in state {
      // `.find` on a missing list throws, and the catch block handles it.
      sent := sent + [HandleNetworkError(MissingTaskList(arg.todolistId))];
      return RejectedNull, sent, request;
    }
    var list := state[arg.todolistId];
    var index := FirstIndexOf(list, arg.taskId);
    if index == -1 {
      sent := sent + [Dispatch(App.SetAppError(Some(TaskNotFound)))];
      return RejectedNull, sent, request;
    }
    var apiModel := ApiModel(list[index], arg.domainModel);
    request := Some(apiModel);
    match gateway {
      case Ok(resultCode, messages, _) =>
        if resultCode == 0 {
          sent := sent + [ShowSucceeded];
          outcome := Fulfilled(arg);
        } else {
          sent := sent + ServerAppErrorEffects(messages);
          outcome := RejectedNull;
        }
      case Thrown(message) =>
        sent := sent + [HandleNetworkError(GatewayThrew(message))];
        outcome := RejectedNull;
    }
  }

  /** `removeTaskTC`: dispatches `removeTask` once the call resolves, whatever the result code; nothing else. */
  method RemoveTaskTC(taskId: string, todolistId: string, gateway: Gateway<()>) returns (sent: seq<Effect>)
    ensures gateway.Ok? ==> sent == [DispatchRemoveTask(taskId, todolistId)]
    ensures gateway.Thrown? ==> sent == []
  {
    sent := [];
    if gateway.Ok? {
      sent := sent + [DispatchRemoveTask(taskId, todolistId)];
    }
  }

  /** The application actions among the effects, in order. */
  function AppView(effects: seq<Effect>): seq<App.AppAction>
    decreases |effects|
  {
    if effects == [] then []
    else (if effects[0].Dispatch? then [effects[0].action] else []) + AppView(effects[1..])
  }

  /** The application slice sees exactly the actions that were dispatched to it, in order. */
  lemma {:induction false} AppViewOfDispatches(actions: seq<App.AppAction>)
    ensures AppView(Dispatches(actions)) == actions
    decreases |actions|
  {
    if actions != [] {
      assert Dispatches(actions)[1..] == Dispatches(actions[1..]);
      AppViewOfDispatches(actions[1..]);
    }
  }

  /** The lifecycle action the framework dispatches once the operation settles. */
  function SettledAction<T>(prefix: string, outcome: Outcome<T>, errorMessage: Option<string>): App.AppAction {
    match outcome
    case Fulfilled(_) => App.Lifecycle(prefix, App.Fulfilled, None, None)
    case RejectedNull => App.Lifecycle(prefix, App.Rejected, None, errorMessage)
  }

  /**
   * Everything the application slice observes from one run: pending, the
   * dispatches, the settlement; apart from the network-error handler's own
   * dispatches, which are not modelled.
   */
  function ObservedStream<T>(prefix: string, sent: seq<Effect>, outcome: Outcome<T>, errorMessage: Option<string>)
    : seq<App.AppAction>
  {
    [App.Lifecycle(prefix, App.Pending, None, None)] + AppView(sent) + [SettledAction(prefix, outcome, errorMessage)]
  }

  /**
   * Whatever a rejecting run dispatched before ("Task not found", the server's
   * first message), the settling rejection has a null payload, so the
   * allow-list does not apply and the error shown is the rejection's own
   * message or the fallback.
   */
  lemma RejectedRunShowsRejectionMessage<T>(s: App.AppState, prefix: string, sent: seq<Effect>, errorMessage: Option<string>)
    ensures var r := App.ApplyAll(s, ObservedStream(prefix, sent, Outcome<T>.RejectedNull, errorMessage));
      r.status == App.Failed && r.error == Some(App.RejectionMessage(errorMessage))
  {
    var init := [App.Lifecycle(prefix, App.Pending, None, None)] + AppView(sent);
    var last := SettledAction(prefix, Outcome<T>.RejectedNull, errorMessage);
    App.ApplyAllConcat(s, init, [last]);
    assert App.ApplyAll(App.ApplyAll(s, init), [last]) == App.ApplyAll(App.Step(App.ApplyAll(s, init), last), []);
  }

  /** A fulfilled run ends with status succeeded and the error its dispatches left. */
  lemma FulfilledRunShowsSucceeded<T>(s: App.AppState, prefix: string, sent: seq<Effect>, value: T)
    ensures var before := App.ApplyAll(s, [App.Lifecycle(prefix, App.Pending, None, None)] + AppView(sent));
      var r := App.ApplyAll(s, ObservedStream(prefix, sent, Fulfilled(value), None));
      r.status == App.Succeeded && r.error == before.error
  {
    var init := [App.Lifecycle(prefix, App.Pending, None, None)] + AppView(sent);
    var last := SettledAction(prefix, Fulfilled(value), None);
    App.ApplyAllConcat(s, init, [last]);
    assert App.ApplyAll(App.ApplyAll(s, init), [last]) == App.ApplyAll(App.Step(App.ApplyAll(s, init), last), []);
  }

  /**
   * A payload-carrying rejection of `addTask` would be allow-listed. Its own
   * rejections carry a null payload, so the allow-list never applies to them
   * (see `RejectedRunShowsRejectionMessage`).
   */
  lemma AddTaskIsAllowListed()
    ensures App.AllowListed(App.LifecycleType(AddTaskPrefix, App.Rejected))
  {
    assert App.OccursAt(App.LifecycleType(AddTaskPrefix, App.Rejected), App.AllowList[1], 6);
  }
}
