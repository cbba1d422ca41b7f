/**
 * The router actions a session runs once it is authenticated: RouterActionBase.ExecuteCommandAsync,
 * the interface switch (RouterChangeInterfaceStateAction), the status query
 * (RequestInterfacesStatusAction), the polling loop (RouterStatusNotifierAction) and the one-shot
 * read (RouterInterfacesInfoAction).
 */
module Actions {
  import opened Wrappers
  import opened Errors
  import opened Api
  import opened Correlator

  // ---- ExecuteCommandAsync ----

  /** The text of the error an answer other than `!done` is reported with. */
  function UnexpectedResponse(typeName: string, text: string): string
  {
    "Команда не была выполнена - неожиданный ответ API. Тип ответа: \"" + typeName + "\", текст ответа: \"" + text + "\"."
  }

  /** ExecuteCommandAsync: send the command, report once, and complete on `!done` only. */
  function RunCommand(router: Router, command: Command, hasSink: bool, wording: Wording): Fetched<()>
  {
    match router.execute(command)
    case Failure(e) =>
      Fetched([Execute(command)] + Progress(hasSink, "Ошибка выполнения команды."),
              Failure(Rethrow(wording, "Команда не была выполнена.", e)))
    case Success(Done) =>
      Fetched([Execute(command)] + Progress(hasSink, "Команда выполнена."), Success(()))
    case Success(Other(typeName, text)) =>
      Fetched([Execute(command)] + Progress(hasSink, "Ошибка выполнения команды."),
              Failure(Invalid(UnexpectedResponse(typeName, text))))
  }

  method ExecuteCommand(router: Router, command: Command, hasSink: bool, wording: Wording)
    returns (events: seq<Event>, r: Result<()>)
    ensures Fetched(events, r) == RunCommand(router, command, hasSink, wording)
  {
    var response := router.execute(command);
    events := [Execute(command)];
    if response.Failure? {
      events := events + Progress(hasSink, "Ошибка выполнения команды.");
      return events, Failure(Rethrow(wording, "Команда не была выполнена.", response.error));
    }
    if response.value.Done? {
      events := events + Progress(hasSink, "Команда выполнена.");
      return events, Success(());
    }
    events := events + Progress(hasSink, "Ошибка выполнения команды.");
    return events, Failure(Invalid(UnexpectedResponse(response.value.typeName, response.value.text)));
  }

  /**
   * A command is one call and one report whatever happens; it completes exactly when the answer
   * is `!done`; a failed call is rethrown with the call's exception as its cause.
   */
  lemma CommandReportsOnce(router: Router, command: Command, hasSink: bool, wording: Wording)
    ensures Calls(RunCommand(router, command, hasSink, wording).events) == [Execute(command)]
    ensures |Messages(RunCommand(router, command, hasSink, wording).events)| == (if hasSink then 1 else 0)
    ensures RunCommand(router, command, hasSink, wording).result.Success? <==> router.execute(command) == Success(Done)
    ensures router.execute(command) == Success(Done) && hasSink ==>
      Messages(RunCommand(router, command, hasSink, wording).events) == ["Команда выполнена."]
    ensures router.execute(command).Failure? ==>
      RunCommand(router, command, hasSink, wording).result.error.inner == Some(router.execute(command).error)
  {
    var text := if router.execute(command) == Success(Done) then "Команда выполнена." else "Ошибка выполнения команды.";
    assert RunCommand(router, command, hasSink, wording).events == [Execute(command)] + Progress(hasSink, text);
    Single(Execute(command));
    ProgressIsReportOnly(hasSink, text);
    CallsAppend([Execute(command)], Progress(hasSink, text));
    MessagesAppend([Execute(command)], Progress(hasSink, text));
  }

  // ---- RouterChangeInterfaceStateAction ----

  /** GetMessageText: the report made before switching an interface. */
  function SwitchMessage(enable: bool, interfaceName: string): string
  {
    (if enable then "Включение" else "Выключение") + " интерфейса " + interfaceName + "..."
  }

  /** The `/interface/set` command that switches one interface. */
  function SetCommand(enable: bool, interfaceName: string): Command
  {
    Command("/interface/set", [Pair("disabled", if enable then "false" else "true"), Pair(".id", interfaceName)])
  }

  /** The action: the PPPoE interface first, then the Ethernet one, each announced before it is sent. */
  function SwitchInterfaces(router: Router, interfaces: Settings.NetworkInterfaces, enable: bool, hasSink: bool, wording: Wording)
    : Fetched<()>
  {
    var first := RunCommand(router, SetCommand(enable, interfaces.pppoeInterface), hasSink, wording);
    var head := Progress(hasSink, SwitchMessage(enable, interfaces.pppoeInterface)) + first.events;
    if first.result.Failure? then Fetched(head, first.result)
    else
      var second := RunCommand(router, SetCommand(enable, interfaces.etherInterface), hasSink, wording);
      Fetched(head + Progress(hasSink, SwitchMessage(enable, interfaces.etherInterface)) + second.events, second.result)
  }

  method ChangeInterfacesState(router: Router, interfaces: Settings.NetworkInterfaces, enable: bool, hasSink: bool, wording: Wording)
    returns (events: seq<Event>, r: Result<()>)
    ensures Fetched(events, r) == SwitchInterfaces(router, interfaces, enable, hasSink, wording)
  {
    var pppoeCommand := SetCommand(enable, interfaces.pppoeInterface);
    events := Progress(hasSink, SwitchMessage(enable, interfaces.pppoeInterface));
    var sent, result := ExecuteCommand(router, pppoeCommand, hasSink, wording);
    events := events + sent;
    if result.Failure? {
      return events, result;
    }
    var etherCommand := SetCommand(enable, interfaces.etherInterface);
    events := events + Progress(hasSink, SwitchMessage(enable, interfaces.etherInterface));
    sent, result := ExecuteCommand(router, etherCommand, hasSink, wording);
    events := events + sent;
    r := result;
  }

  /** A report is not a call, and it is one message when there is a sink. */
  lemma ProgressIsReportOnly(hasSink: bool, message: string)
    ensures Calls(Progress(hasSink, message)) == []
    ensures Messages(Progress(hasSink, message)) == if hasSink then [message] else []
  {
  }

  /**
   * The switch sends `disabled=false` to enable and `disabled=true` to disable, to the PPPoE
   * interface first; the Ethernet command is sent only when the first one completed.
   */
  lemma SwitchOrder(router: Router, interfaces: Settings.NetworkInterfaces, enable: bool, hasSink: bool, wording: Wording)
    ensures SetCommand(enable, interfaces.pppoeInterface).parameters[0] == Pair("disabled", if enable then "false" else "true")
    ensures router.execute(SetCommand(enable, interfaces.pppoeInterface)) == Success(Done) ==>
      Calls(SwitchInterfaces(router, interfaces, enable, hasSink, wording).events)
        == [Execute(SetCommand(enable, interfaces.pppoeInterface)), Execute(SetCommand(enable, interfaces.etherInterface))]
    ensures router.execute(SetCommand(enable, interfaces.pppoeInterface)) != Success(Done) ==>
      Calls(SwitchInterfaces(router, interfaces, enable, hasSink, wording).events)
        == [Execute(SetCommand(enable, interfaces.pppoeInterface))]
  {
    var pppoe := SetCommand(enable, interfaces.pppoeInterface);
    var ether := SetCommand(enable, interfaces.etherInterface);
    var p1 := Progress(hasSink, SwitchMessage(enable, interfaces.pppoeInterface));
    CommandReportsOnce(router, pppoe, hasSink, wording);
    ProgressIsReportOnly(hasSink, SwitchMessage(enable, interfaces.pppoeInterface));
    if router.execute(pppoe) == Success(Done) {
      var p2 := Progress(hasSink, SwitchMessage(enable, interfaces.etherInterface));
      SwitchShape(router, interfaces, enable, hasSink, wording);
      CommandReportsOnce(router, ether, hasSink, wording);
      ProgressIsReportOnly(hasSink, SwitchMessage(enable, interfaces.etherInterface));
      Split4(p1, RunCommand(router, pppoe, hasSink, wording).events, p2, RunCommand(router, ether, hasSink, wording).events);
    } else {
      CallsAppend(p1, RunCommand(router, pppoe, hasSink, wording).events);
    }
  }

  /** The switch after a completed PPPoE command: both announcements and both commands' events. */
  lemma SwitchShape(router: Router, interfaces: Settings.NetworkInterfaces, enable: bool, hasSink: bool, wording: Wording)
    requires router.execute(SetCommand(enable, interfaces.pppoeInterface)) == Success(Done)
    ensures SwitchInterfaces(router, interfaces, enable, hasSink, wording).events
      == Progress(hasSink, SwitchMessage(enable, interfaces.pppoeInterface))
         + RunCommand(router, SetCommand(enable, interfaces.pppoeInterface), hasSink, wording).events
         + Progress(hasSink, SwitchMessage(enable, interfaces.etherInterface))
         + RunCommand(router, SetCommand(enable, interfaces.etherInterface), hasSink, wording).events
  {
  }

  /** The switch completes exactly when both commands are answered with `!done`. */
  lemma SwitchCompletes(router: Router, interfaces: Settings.NetworkInterfaces, enable: bool, hasSink: bool, wording: Wording)
    ensures SwitchInterfaces(router, interfaces, enable, hasSink, wording).result.Success? <==>
      router.execute(SetCommand(enable, interfaces.pppoeInterface)) == Success(Done)
      && router.execute(SetCommand(enable, interfaces.etherInterface)) == Success(Done)
  {
    CommandReportsOnce(router, SetCommand(enable, interfaces.pppoeInterface), hasSink, wording);
    CommandReportsOnce(router, SetCommand(enable, interfaces.etherInterface), hasSink, wording);
  }

  /** Each command is announced by a report naming its interface, before the command's own report. */
  lemma SwitchMessages(router: Router, interfaces: Settings.NetworkInterfaces, enable: bool, wording: Wording)
    requires router.execute(SetCommand(enable, interfaces.pppoeInterface)) == Success(Done)
    ensures Messages(SwitchInterfaces(router, interfaces, enable, true, wording).events) ==
      [SwitchMessage(enable, interfaces.pppoeInterface), "Команда выполнена.",
       SwitchMessage(enable, interfaces.etherInterface)]
      + Messages(RunCommand(router, SetCommand(enable, interfaces.etherInterface), true, wording).events)
  {
    var pppoe := SetCommand(enable, interfaces.pppoeInterface);
    var ether := SetCommand(enable, interfaces.etherInterface);
    var p1 := Progress(true, SwitchMessage(enable, interfaces.pppoeInterface));
    var p2 := Progress(true, SwitchMessage(enable, interfaces.etherInterface));
    SwitchShape(router, interfaces, enable, true, wording);
    CommandReportsOnce(router, pppoe, true, wording);
    ProgressIsReportOnly(true, SwitchMessage(enable, interfaces.pppoeInterface));
    ProgressIsReportOnly(true, SwitchMessage(enable, interfaces.etherInterface));
    ThreeMessagesFirst(p1, RunCommand(router, pppoe, true, wording).events, p2, RunCommand(router, ether, true, wording).events);
  }

  /** Three parts with one message each, then a fourth part. */
  lemma ThreeMessagesFirst(a: seq<Event>, b: seq<Event>, c: seq<Event>, d: seq<Event>)
    requires |Messages(a)| == 1 && |Messages(b)| == 1 && |Messages(c)| == 1
    ensures Messages(a + b + c + d) == [Messages(a)[0], Messages(b)[0], Messages(c)[0]] + Messages(d)
  {
    Split4(a, b, c, d);
  }

  // ---- RequestInterfacesStatusAction ----

  /** The `/interface/print` query for the disabled flags of the two interfaces. */
  function StatusCommand(interfaces: Settings.NetworkInterfaces): Command
  {
    Command("/interface/print", [Word("=.proplist=disabled"), Word("?name=" + interfaces.pppoeInterface),
      Word("?name=" + interfaces.etherInterface), Word("?#|")])
  }

  /** The answer is usable: exactly two rows, each with its disabled flag. */
  predicate WellFormedStatus(rows: seq<InterfaceRow>)
  {
    |rows| == 2 && rows[0].disabled.Some? && rows[1].disabled.Some?
  }

  /** The status query and AreInterfacesActive. */
  function QueryStatus(router: Router, interfaces: Settings.NetworkInterfaces): Fetched<bool>
  {
    var command := StatusCommand(interfaces);
    match router.list(command)
    case Failure(e) => Fetched([Query(command)], Failure(Rethrow(WithCause, "Команда не была выполнена.", e)))
    case Success(rows) =>
      if !WellFormedStatus(rows) then Fetched([Query(command)], Failure(Invalid("Ответ API содержит неверные данные.")))
      else Fetched([Query(command)], Success(!rows[0].disabled.value && !rows[1].disabled.value))
  }

  method RequestInterfacesStatus(router: Router, interfaces: Settings.NetworkInterfaces)
    returns (events: seq<Event>, r: Result<bool>)
    ensures Fetched(events, r) == QueryStatus(router, interfaces)
  {
    var command := StatusCommand(interfaces);
    events := [Query(command)];
    var answer := router.list(command);
    if answer.Failure? {
      return events, Failure(Rethrow(WithCause, "Команда не была выполнена.", answer.error));
    }
    var rows := answer.value;
    if |rows| != 2 || rows[0].disabled.None? || rows[1].disabled.None? {
      return events, Failure(Invalid("Ответ API содержит неверные данные."));
    }
    var areInterfacesActive := !rows[0].disabled.value && !rows[1].disabled.value;
    return events, Success(areInterfacesActive);
  }

  /** The interfaces are active iff both rows of a well-formed answer say "not disabled"; anything else throws. */
  lemma StatusMeaning(router: Router, interfaces: Settings.NetworkInterfaces)
    ensures QueryStatus(router, interfaces).result.Success? <==>
      router.list(StatusCommand(interfaces)).Success? && WellFormedStatus(router.list(StatusCommand(interfaces)).value)
    ensures QueryStatus(router, interfaces).result == Success(true) <==>
      && router.list(StatusCommand(interfaces)).Success?
      && var rows := router.list(StatusCommand(interfaces)).value;
         |rows| == 2 && rows[0].disabled == Some(false) && rows[1].disabled == Some(false)
    ensures QueryStatus(router, interfaces).events == [Query(StatusCommand(interfaces))]
  {
  }

  // ---- RouterStatusNotifierAction ----

  /**
   * The polling loop from its `check`-th iteration on: wait, stop once cancellation is requested,
   * otherwise read the tables once and raise one update with the records.
   */
  function NotifyFrom(router: Router, token: CancellationToken, check: nat): Fetched<()>
    decreases token.requestedAt - check
  {
    if IsCancellationRequested(token, check) then Fetched([], Success(()))
    else
      var read := Correlate(router.poll(check));
      if read.result.Failure? then Fetched(read.events, Failure(read.result.error))
      else
        var rest := NotifyFrom(router, token, check + 1);
        Fetched(read.events + [Updated(read.result.value)] + rest.events, rest.result)
  }

  /** One iteration of the loop that was not cancelled, with its read given by name. */
  lemma NotifyStep(router: Router, token: CancellationToken, check: nat, read: Fetched<seq<RouterInterface>>)
    requires !IsCancellationRequested(token, check) && read == Correlate(router.poll(check))
    ensures read.result.Failure? ==> NotifyFrom(router, token, check) == Fetched(read.events, Failure(read.result.error))
    ensures read.result.Success? ==>
      NotifyFrom(router, token, check)
        == Fetched(read.events + [Updated(read.result.value)] + NotifyFrom(router, token, check + 1).events,
                   NotifyFrom(router, token, check + 1).result)
  {
  }

  method NotifierLoop(router: Router, token: CancellationToken) returns (events: seq<Event>, r: Result<()>)
    ensures Fetched(events, r) == NotifyFrom(router, token, 0)
  {
    events := [];
    var check := 0;
    while true
      invariant events + NotifyFrom(router, token, check).events == NotifyFrom(router, token, 0).events
      invariant NotifyFrom(router, token, check).result == NotifyFrom(router, token, 0).result
      decreases token.requestedAt - check
    {
      // The delay: a cancelled delay is swallowed and the flag is checked right after.
      if IsCancellationRequested(token, check) {
        break;
      }
      var read, routerInterfaces := GetInterfacesInfo(router.poll(check));
      events := events + read;
      if routerInterfaces.Failure? {
        return events, Failure(routerInterfaces.error);
      }
      events := events + [Updated(routerInterfaces.value)];
      check := check + 1;
    }
    assert events + [] == events;
    return events, Success(());
  }

  /** The records the loop reads at iterations `from` to `to - 1`. */
  function Reads(router: Router, first: nat, last: nat): seq<seq<RouterInterface>>
    requires first <= last
    requires (forall k :: first <= k < last ==> Correlate(router.poll(k)).result.Success?)
    decreases last - first
  {
    if first == last then [] else [Correlate(router.poll(first)).result.value] + Reads(router, first + 1, last)
  }

  /** Every read from `first` on succeeds iff the first one does and every later one does. */
  lemma ReadsFrom(router: Router, first: nat, last: nat)
    requires first < last
    ensures (forall k :: first <= k < last ==> Correlate(router.poll(k)).result.Success?) <==>
      Correlate(router.poll(first)).result.Success? && (forall k :: first + 1 <= k < last ==> Correlate(router.poll(k)).result.Success?)
  {
  }

  /** The loop ends normally iff every read before cancellation succeeds. */
  lemma {:induction false} NotifierCompletes(router: Router, token: CancellationToken, check: nat)
    requires check <= token.requestedAt
    ensures NotifyFrom(router, token, check).result.Success? <==>
      forall k :: check <= k < token.requestedAt ==> Correlate(router.poll(k)).result.Success?
    decreases token.requestedAt - check
  {
    if check < token.requestedAt {
      var read := Correlate(router.poll(check));
      NotifyStep(router, token, check, read);
      if read.result.Success? {
        NotifierCompletes(router, token, check + 1);
        ReadsFrom(router, check, token.requestedAt);
      } else {
        assert !(check <= check < token.requestedAt ==> Correlate(router.poll(check)).result.Success?);
      }
    }
  }

  /** A loop that ended normally raised exactly one update per iteration, carrying that iteration's records, in order. */
  lemma {:induction false} NotifierUpdates(router: Router, token: CancellationToken, check: nat)
    requires check <= token.requestedAt
    requires forall k :: check <= k < token.requestedAt ==> Correlate(router.poll(k)).result.Success?
    ensures Batches(NotifyFrom(router, token, check).events) == Reads(router, check, token.requestedAt)
    decreases token.requestedAt - check
  {
    if check < token.requestedAt {
      var read := Correlate(router.poll(check));
      var rest := NotifyFrom(router, token, check + 1);
      NotifierUpdates(router, token, check + 1);
      assert NotifyFrom(router, token, check).events == read.events + [Updated(read.result.value)] + rest.events;
      BatchesAppend(read.events + [Updated(read.result.value)], rest.events);
      BatchesAppend(read.events, [Updated(read.result.value)]);
      QueriesOnly(read.events, router.poll(check));
    }
  }

  /** Events without an update raise no batch. */
  lemma {:induction false} NoBatches(events: seq<Event>)
    requires forall e :: e in events ==> !e.Updated?
    ensures Batches(events) == []
  {
    if events != [] {
      assert events[0] in events;
      assert forall e :: e in events[1..] ==> e in events;
      NoBatches(events[1..]);
    }
  }

  /** The correlation makes queries only, so it raises no update of its own. */
  lemma QueriesOnly(events: seq<Event>, t: RouterTables)
    requires events == Correlate(t).events
    ensures Batches(events) == []
  {
    CorrelationQueries(t);
    NoBatches(events);
  }

  /** Every event of the correlation is a query. */
  lemma CorrelationQueries(t: RouterTables)
    ensures forall e :: e in Correlate(t).events ==> e.Query?
  {
    match HostsTable(t.hosts)
    case Failure(_) =>
    case Success(hosts) =>
      match LeasesTable(hosts, t.leases)
      case Failure(_) =>
      case Success(leases) =>
        if t.interfaces.Success? {
          var head := [Query(HostsCommand), Query(LeasesCommand), Query(InterfacesCommand)];
          WalkQueries(hosts, leases, t, head, [], t.interfaces.value);
        }
  }

  lemma {:induction false} WalkQueries(hosts: map<string, string>, leases: map<string, Lease>, t: RouterTables,
                                       events: seq<Event>, records: seq<RouterInterface>, rows: seq<InterfaceRow>)
    requires forall e :: e in events ==> e.Query?
    ensures forall e :: e in RecordsInto(hosts, leases, t, events, records, rows).events ==> e.Query?
    decreases |rows|
  {
    if rows != [] {
      var step := InterfaceRecord(hosts, leases, t, rows[0]);
      if step.result.Success? {
        WalkQueries(hosts, leases, t, events + step.events, records + [step.result.value], rows[1..]);
      }
    }
  }

  /** Cancellation requested before the first check: the loop ends at once and reads nothing. */
  lemma CancelledAtOnce(router: Router, token: CancellationToken)
    requires token.requestedAt == 0
    ensures NotifyFrom(router, token, 0) == Fetched([], Success(()))
  {
  }

  // ---- the actions as the executor runs them ----

  /** IRouterAction: the four actions the program defines. */
  datatype RouterAction =
    | ChangeInterfaceState(enable: bool)
    | RequestInterfacesStatus(interfaces: Settings.NetworkInterfaces)  // the names it was created with
    | StatusNotifier(token: CancellationToken)
    | InterfacesInfo

  /** What an action leaves behind for its caller. */
  datatype ActionValue = NoValue | InterfacesActive(active: bool) | InterfaceList(records: seq<RouterInterface>)

  /** `action.ExecuteAsync(routerApi, settings, progress)`. */
  function RunAction(action: RouterAction, router: Router, settings: Settings.ProgramSettings, hasSink: bool, wording: Wording)
    : Fetched<ActionValue>
  {
    match action
    case ChangeInterfaceState(enable) =>
      var run := SwitchInterfaces(router, settings.networkInterfaces, enable, hasSink, wording);
      Fetched(run.events, if run.result.Failure? then Failure(run.result.error) else Success(NoValue))
    case RequestInterfacesStatus(interfaces) =>
      var run := QueryStatus(router, interfaces);
      Fetched(run.events, if run.result.Failure? then Failure(run.result.error) else Success(InterfacesActive(run.result.value)))
    case StatusNotifier(token) =>
      var run := NotifyFrom(router, token, 0);
      Fetched(run.events, if run.result.Failure? then Failure(run.result.error) else Success(NoValue))
    case InterfacesInfo =>
      var run := Correlate(router.poll(0));
      Fetched(run.events, if run.result.Failure? then Failure(run.result.error) else Success(InterfaceList(run.result.value)))
  }

  method ExecuteRouterAction(action: RouterAction, router: Router, settings: Settings.ProgramSettings, hasSink: bool, wording: Wording)
    returns (events: seq<Event>, r: Result<ActionValue>)
    ensures Fetched(events, r) == RunAction(action, router, settings, hasSink, wording)
  {
    match action {
      case ChangeInterfaceState(enable) =>
        var done: Result<()>;
        events, done := ChangeInterfacesState(router, settings.networkInterfaces, enable, hasSink, wording);
        r := if done.Failure? then Failure(done.error) else Success(NoValue);
      case RequestInterfacesStatus(interfaces) =>
        var active: Result<bool>;
        events, active := RequestInterfacesStatus(router, interfaces);
        r := if active.Failure? then Failure(active.error) else Success(InterfacesActive(active.value));
      case StatusNotifier(token) =>
        var done: Result<()>;
        events, done := NotifierLoop(router, token);
        r := if done.Failure? then Failure(done.error) else Success(NoValue);
      case InterfacesInfo =>
        var records: Result<seq<RouterInterface>>;
        events, records := GetInterfacesInfo(router.poll(0));
        r := if records.Failure? then Failure(records.error) else Success(InterfaceList(records.value));
    }
  }

  /** An action only reports, sends commands, queries and raises updates: it never opens, quits or disposes. */
  predicate ActionEvent(e: Event)
  {
    e.Report? || e.Execute? || e.Query? || e.Updated?
  }

  lemma {:induction false} NotifierEvents(router: Router, token: CancellationToken, check: nat)
    ensures forall e :: e in NotifyFrom(router, token, check).events ==> e.Query? || e.Updated?
    decreases token.requestedAt - check
  {
    if !IsCancellationRequested(token, check) {
      var read := Correlate(router.poll(check));
      NotifyStep(router, token, check, read);
      CorrelationQueries(router.poll(check));
      if read.result.Success? {
        NotifierEvents(router, token, check + 1);
      }
    }
  }

  lemma ActionEvents(action: RouterAction, router: Router, settings: Settings.ProgramSettings, hasSink: bool, wording: Wording)
    ensures forall e :: e in RunAction(action, router, settings, hasSink, wording).events ==> ActionEvent(e)
  {
    match action
    case ChangeInterfaceState(enable) => SwitchEvents(router, settings.networkInterfaces, enable, hasSink, wording);
    case RequestInterfacesStatus(interfaces) => assert QueryStatus(router, interfaces).events == [Query(StatusCommand(interfaces))];
    case StatusNotifier(token) => NotifierEvents(router, token, 0);
    case InterfacesInfo => CorrelationQueries(router.poll(0));
  }

  /** Switching sends commands and reports, nothing else. */
  lemma SwitchEvents(router: Router, interfaces: Settings.NetworkInterfaces, enable: bool, hasSink: bool, wording: Wording)
    ensures forall e :: e in SwitchInterfaces(router, interfaces, enable, hasSink, wording).events ==> e.Execute? || e.Report?
  {
    var p1 := Progress(hasSink, SwitchMessage(enable, interfaces.pppoeInterface));
    var p2 := Progress(hasSink, SwitchMessage(enable, interfaces.etherInterface));
    var first := RunCommand(router, SetCommand(enable, interfaces.pppoeInterface), hasSink, wording);
    var second := RunCommand(router, SetCommand(enable, interfaces.etherInterface), hasSink, wording);
    ProgressIsReportOnly(hasSink, SwitchMessage(enable, interfaces.pppoeInterface));
    ProgressIsReportOnly(hasSink, SwitchMessage(enable, interfaces.etherInterface));
    CommandEvents(router, SetCommand(enable, interfaces.pppoeInterface), hasSink, wording);
    CommandEvents(router, SetCommand(enable, interfaces.etherInterface), hasSink, wording);
  }

  /** A command is sent once and followed by its report. */
  lemma CommandEvents(router: Router, command: Command, hasSink: bool, wording: Wording)
    ensures forall e :: e in RunCommand(router, command, hasSink, wording).events ==> e.Execute? || e.Report?
  {
    var text := if router.execute(command) == Success(Done) then "Команда выполнена." else "Ошибка выполнения команды.";
    assert RunCommand(router, command, hasSink, wording).events == [Execute(command)] + Progress(hasSink, text);
    ProgressIsReportOnly(hasSink, text);
  }
}
