/**
 * RouterControlService: the two operations the tray icon offers. Switching the connection runs
 * the interface switch in a session that reports progress; reading the connection state runs the
 * status query in a silent session, and answers "inactive" without a session when the settings
 * are not usable. Its sessions come from the executor copy nested in this service, whose
 * rethrown messages carry the cause's text (`WithCause`).
 */
module ControlService {
  import opened Wrappers
  import opened Errors
  import opened SettingsCheck
  import opened Settings
  import opened Api
  import opened Actions
  import opened Executor

  /** ChangeConnectionStateAsync: the session's trace, and whether it completed or what it threw. */
  function ChangeConnectionState(settings: ProgramSettings, router: Router, credentials: Credentials,
                                 enable: bool, hasSink: bool): Fetched<()>
  {
    if !hasSink then Fetched([], Failure(NullArgument("progress")))
    else
      var s := RunSession(settings, router, credentials, ChangeInterfaceState(enable), true, WithCause);
      Fetched(s.events, if s.result.Completed? then Success(()) else Failure(s.result.error))
  }

  /** GetConnectionStateAsync: whether both interfaces are enabled, read in a silent session. */
  function GetConnectionState(settings: ProgramSettings, router: Router, credentials: Credentials): Fetched<bool>
  {
    if !CanExecuteAction(settings) then Fetched([], Success(false))
    else
      var s := RunSession(settings, router, credentials, RequestInterfacesStatus(settings.networkInterfaces), false, WithCause);
      match s.result
      case Completed(value) => Fetched(s.events, Success(value.InterfacesActive? && value.active))
      case Failed(_, e) => Fetched(s.events, Failure(e))
  }

  method ChangeConnectionStateAsync(settings: ProgramSettings, router: Router, credentials: Credentials,
                                    enable: bool, hasSink: bool)
    returns (events: seq<Event>, r: Result<()>)
    ensures Fetched(events, r) == ChangeConnectionState(settings, router, credentials, enable, hasSink)
  {
    if !hasSink {
      return [], Failure(NullArgument("progress"));
    }
    var result;
    events, result := ExecuteAction(settings, router, credentials, ChangeInterfaceState(enable), true, WithCause);
    r := if result.Completed? then Success(()) else Failure(result.error);
  }

  method GetConnectionStateAsync(settings: ProgramSettings, router: Router, credentials: Credentials)
    returns (events: seq<Event>, r: Result<bool>)
    ensures Fetched(events, r) == GetConnectionState(settings, router, credentials)
  {
    var action := RequestInterfacesStatus(settings.networkInterfaces);
    if !CanExecuteAction(settings) {
      return [], Success(false);
    }
    var result;
    events, result := ExecuteAction(settings, router, credentials, action, false, WithCause);
    if result.Failed? {
      return events, Failure(result.error);
    }
    r := Success(result.value.InterfacesActive? && result.value.active);
  }

  // ---- what the two operations promise ----

  /** Switching without a progress sink is refused before any session starts. */
  lemma ChangeNeedsProgress(settings: ProgramSettings, router: Router, credentials: Credentials, enable: bool)
    ensures ChangeConnectionState(settings, router, credentials, enable, false) == Fetched([], Failure(NullArgument("progress")))
  {
  }

  /** Every stage of a session that switches the interfaces succeeds, and the router answers both commands with `!done`. */
  predicate SwitchSucceeds(settings: ProgramSettings, router: Router, credentials: Credentials, enable: bool)
  {
    && Valid(settings)
    && router.createConnection(settings.routerAddress).None?
    && router.connect.None?
    && credentials.decrypt(settings.userPassword).Success?
    && router.authenticate(settings.userName, credentials.decrypt(settings.userPassword).value).None?
    && router.execute(SetCommand(enable, settings.networkInterfaces.pppoeInterface)) == Success(Done)
    && router.execute(SetCommand(enable, settings.networkInterfaces.etherInterface)) == Success(Done)
    && router.quit.None?
  }

  /** The switch completes exactly when every stage succeeds and both commands are answered with `!done`. */
  lemma ChangeCompletesIff(settings: ProgramSettings, router: Router, credentials: Credentials, enable: bool)
    ensures ChangeConnectionState(settings, router, credentials, enable, true).result.Success?
      <==> SwitchSucceeds(settings, router, credentials, enable)
  {
    var run := RunAction(ChangeInterfaceState(enable), router, settings, true, WithCause);
    CompletesIffAllStagesSucceed(settings, router, credentials, run, true, WithCause);
    SwitchCompletes(router, settings.networkInterfaces, enable, true, WithCause);
  }

  /**
   * A completed switch opens the session, sends the PPPoE command and then the Ethernet command,
   * logs out and disposes, and reports each stage and each command in this order.
   */
  lemma ChangeOrder(settings: ProgramSettings, router: Router, credentials: Credentials, enable: bool)
    requires SwitchSucceeds(settings, router, credentials, enable)
    ensures Calls(ChangeConnectionState(settings, router, credentials, enable, true).events)
      == [CreateConnection(settings.routerAddress), Connect,
          Authenticate(settings.userName, credentials.decrypt(settings.userPassword).value),
          Execute(SetCommand(enable, settings.networkInterfaces.pppoeInterface)),
          Execute(SetCommand(enable, settings.networkInterfaces.etherInterface)),
          Quit, Dispose]
    ensures Messages(ChangeConnectionState(settings, router, credentials, enable, true).events)
      == [Connecting, Connected, Authenticating, AuthenticationDone,
          SwitchMessage(enable, settings.networkInterfaces.pppoeInterface), "Команда выполнена.",
          SwitchMessage(enable, settings.networkInterfaces.etherInterface), "Команда выполнена.",
          LoggingOut, LoggedOut]
  {
    var run := SwitchRun(settings, router, enable);
    ChangeIsSession(settings, router, credentials, enable);
    CompletedSessionOrder(settings, router, credentials, run, true, WithCause);
  }

  /** The switch run inside a session whose stages all succeed: both commands, with their reports. */
  lemma SwitchRun(settings: ProgramSettings, router: Router, enable: bool) returns (run: Fetched<ActionValue>)
    requires router.execute(SetCommand(enable, settings.networkInterfaces.pppoeInterface)) == Success(Done)
    requires router.execute(SetCommand(enable, settings.networkInterfaces.etherInterface)) == Success(Done)
    ensures run == RunAction(ChangeInterfaceState(enable), router, settings, true, WithCause)
    ensures run.result == Success(NoValue)
    ensures Calls(run.events) == [Execute(SetCommand(enable, settings.networkInterfaces.pppoeInterface)),
                                  Execute(SetCommand(enable, settings.networkInterfaces.etherInterface))]
    ensures Messages(run.events) == [SwitchMessage(enable, settings.networkInterfaces.pppoeInterface), "Команда выполнена.",
                                     SwitchMessage(enable, settings.networkInterfaces.etherInterface), "Команда выполнена."]
  {
    var interfaces := settings.networkInterfaces;
    var switch := SwitchInterfaces(router, interfaces, enable, true, WithCause);
    SwitchCompletes(router, interfaces, enable, true, WithCause);
    SwitchOrder(router, interfaces, enable, true, WithCause);
    SwitchMessages(router, interfaces, enable, WithCause);
    CommandReportsOnce(router, SetCommand(enable, interfaces.etherInterface), true, WithCause);
    run := Fetched(switch.events, Success(NoValue));
  }

  /** With a sink, switching is the session that runs the switch action. */
  lemma ChangeIsSession(settings: ProgramSettings, router: Router, credentials: Credentials, enable: bool)
    ensures ChangeConnectionState(settings, router, credentials, enable, true).events
      == SessionWith(settings, router, credentials, RunAction(ChangeInterfaceState(enable), router, settings, true, WithCause),
                     true, WithCause).events
  {
  }

  /** Settings that fail the check read as "inactive" without opening a session. */
  lemma InvalidSettingsReadInactive(settings: ProgramSettings, router: Router, credentials: Credentials)
    requires !Valid(settings)
    ensures GetConnectionState(settings, router, credentials) == Fetched([], Success(false))
  {
  }

  /** Every stage of the status session succeeds. */
  predicate StatusReadSucceeds(settings: ProgramSettings, router: Router, credentials: Credentials)
  {
    && Valid(settings)
    && router.createConnection(settings.routerAddress).None?
    && router.connect.None?
    && credentials.decrypt(settings.userPassword).Success?
    && router.authenticate(settings.userName, credentials.decrypt(settings.userPassword).value).None?
    && router.list(StatusCommand(settings.networkInterfaces)).Success?
    && WellFormedStatus(router.list(StatusCommand(settings.networkInterfaces)).value)
    && router.quit.None?
  }

  /**
   * The state reads "active" exactly when the whole session succeeds and the router says that
   * neither interface is disabled; any failing stage is passed on instead of an answer.
   */
  lemma ConnectionActiveIff(settings: ProgramSettings, router: Router, credentials: Credentials)
    ensures GetConnectionState(settings, router, credentials).result == Success(true) <==>
      && StatusReadSucceeds(settings, router, credentials)
      && var rows := router.list(StatusCommand(settings.networkInterfaces)).value;
         rows[0].disabled == Some(false) && rows[1].disabled == Some(false)
    ensures GetConnectionState(settings, router, credentials).result.Failure? <==>
      Valid(settings) && !StatusReadSucceeds(settings, router, credentials)
  {
    var run := RunAction(RequestInterfacesStatus(settings.networkInterfaces), router, settings, false, WithCause);
    CompletesIffAllStagesSucceed(settings, router, credentials, run, false, WithCause);
    StatusMeaning(router, settings.networkInterfaces);
  }

  /** A state read that gets its answer calls exactly the session stages around the one status query. */
  lemma ConnectionStateCalls(settings: ProgramSettings, router: Router, credentials: Credentials)
    requires StatusReadSucceeds(settings, router, credentials)
    ensures Calls(GetConnectionState(settings, router, credentials).events)
      == [CreateConnection(settings.routerAddress), Connect,
          Authenticate(settings.userName, credentials.decrypt(settings.userPassword).value),
          Query(StatusCommand(settings.networkInterfaces)), Quit, Dispose]
    ensures Messages(GetConnectionState(settings, router, credentials).events) == []
  {
    var run := RunAction(RequestInterfacesStatus(settings.networkInterfaces), router, settings, false, WithCause);
    StatusMeaning(router, settings.networkInterfaces);
    assert Calls(run.events) == [Query(StatusCommand(settings.networkInterfaces))];
    CompletedSessionOrder(settings, router, credentials, run, false, WithCause);
    SilentSession(settings, router, credentials, run, WithCause);
  }
}
