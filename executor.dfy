/**
 * RouterActionExecutor: one session with the router. The settings are checked first; then the
 * connection is created, opened and authenticated, the action runs, and the session logs out.
 * Each stage reports before and after itself, a failing stage is rethrown wrapped with its own
 * text, the action's own exceptions pass through unwrapped, and a created connection is always
 * disposed.
 */
module Executor {
  import opened Wrappers
  import opened Errors
  import opened Settings
  import opened SettingsCheck
  import opened Api
  import opened Actions

  /** The stage a session failed in. */
  datatype Stage = SettingsValidation | ConnectionCreation | Connection | Authentication | ActionExecution | Logout

  /** How a session ended: with the action's value, or with the exception thrown by a stage. */
  datatype SessionResult = Completed(value: ActionValue) | Failed(stage: Stage, error: Exception)

  /** A session's trace and its result. */
  datatype Session = Session(events: seq<Event>, result: SessionResult)

  // The progress messages of the stages.
  const Connecting := "Подключение к роутеру..."
  const ConnectionFailed := "Ошибка подключения к роутеру."
  const Connected := "Подключение установлено."
  const Authenticating := "Аутентификация пользователя..."
  const AuthenticationFailed := "Ошибка аутентификации пользователя."
  const AuthenticationDone := "Аутентификация выполнена."
  const LoggingOut := "Выход из системы..."
  const LogoutFailed := "Ошибка выхода из системы."
  const LoggedOut := "Выход из системы произведен."

  /** CanExecuteAction. */
  function CanExecuteAction(settings: ProgramSettings): (can: bool)
    ensures can <==> Valid(settings)
  {
    Valid(settings)
  }

  /** GetPassword: the decrypted password, or the decryption failure wrapped. */
  function GetPassword(settings: ProgramSettings, credentials: Credentials, wording: Wording): (r: Result<string>)
    ensures credentials.decrypt(settings.userPassword).Success? ==> r == credentials.decrypt(settings.userPassword)
    ensures credentials.decrypt(settings.userPassword).Failure? ==>
      r.Failure? && r.error.inner == Some(credentials.decrypt(settings.userPassword).error)
  {
    match credentials.decrypt(settings.userPassword)
    case Success(password) => Success(password)
    case Failure(e) => Failure(Rethrow(wording, "Пароль пользователя не был получен.", e))
  }

  /**
   * The stages after the connection was opened: authentication, the action and the logout.
   * The executor does not know what the action does: `run` is what the action reports, calls
   * and returns when it is executed on this connection, and it is reached only after a
   * successful authentication.
   */
  function Authenticated(settings: ProgramSettings, router: Router, credentials: Credentials,
                         run: Fetched<ActionValue>, hasSink: bool, wording: Wording): Session
  {
    var before := Progress(hasSink, Authenticating);
    match GetPassword(settings, credentials, wording)
    case Failure(e) =>
      Session(before + Progress(hasSink, AuthenticationFailed),
              Failed(Authentication, Rethrow(wording, "Аутентификация пользователя не была произведена.", e)))
    case Success(password) =>
      var called := before + [Authenticate(settings.userName, password)];
      match router.authenticate(settings.userName, password)
      case Some(e) =>
        Session(called + Progress(hasSink, AuthenticationFailed),
                Failed(Authentication, Rethrow(wording, "Аутентификация пользователя не была произведена.", e)))
      case None =>
        var acted := called + Progress(hasSink, AuthenticationDone) + run.events;
        if run.result.Failure? then Session(acted, Failed(ActionExecution, run.result.error))
        else
          var quitting := acted + Progress(hasSink, LoggingOut) + [Quit];
          match router.quit
          case Some(e) =>
            Session(quitting + Progress(hasSink, LogoutFailed),
                    Failed(Logout, Rethrow(wording, "Выход из системы не был произведен.", e)))
          case None =>
            Session(quitting + Progress(hasSink, LoggedOut), Completed(run.result.value))
  }

  /** ExecuteActionAsync with an action whose execution on this connection is `run`. */
  function SessionWith(settings: ProgramSettings, router: Router, credentials: Credentials,
                       run: Fetched<ActionValue>, hasSink: bool, wording: Wording): Session
  {
    if !Valid(settings) then Session([], Failed(SettingsValidation, SettingsError(settings)))
    else
      var created := [CreateConnection(settings.routerAddress)];
      match router.createConnection(settings.routerAddress)
      case Some(e) => Session(created, Failed(ConnectionCreation, Rethrow(wording, "Объект подключения не был создан.", e)))
      case None =>
        var connecting := created + Progress(hasSink, Connecting) + [Connect];
        match router.connect
        case Some(e) =>
          Session(connecting + Progress(hasSink, ConnectionFailed) + [Dispose],
                  Failed(Connection, Rethrow(wording, "Подключение не было устновлено.", e)))
        case None =>
          var rest := Authenticated(settings, router, credentials, run, hasSink, wording);
          Session(connecting + Progress(hasSink, Connected) + rest.events + [Dispose], rest.result)
  }

  /** ExecuteActionAsync with one of the program's actions. */
  function RunSession(settings: ProgramSettings, router: Router, credentials: Credentials, action: RouterAction,
                      hasSink: bool, wording: Wording): Session
  {
    SessionWith(settings, router, credentials, RunAction(action, router, settings, hasSink, wording), hasSink, wording)
  }

  /** The body of the `try` block after the connection was opened. */
  method AuthenticateAndRun(settings: ProgramSettings, router: Router, credentials: Credentials, action: RouterAction,
                            hasSink: bool, wording: Wording)
    returns (events: seq<Event>, result: SessionResult)
    ensures Session(events, result)
      == Authenticated(settings, router, credentials, RunAction(action, router, settings, hasSink, wording), hasSink, wording)
  {
    events := Progress(hasSink, Authenticating);
    var password := GetPassword(settings, credentials, wording);
    if password.Failure? {
      events := events + Progress(hasSink, AuthenticationFailed);
      return events, Failed(Authentication, Rethrow(wording, "Аутентификация пользователя не была произведена.", password.error));
    }
    events := events + [Authenticate(settings.userName, password.value)];
    var authentication := router.authenticate(settings.userName, password.value);
    if authentication.Some? {
      events := events + Progress(hasSink, AuthenticationFailed);
      return events, Failed(Authentication, Rethrow(wording, "Аутентификация пользователя не была произведена.", authentication.value));
    }
    events := events + Progress(hasSink, AuthenticationDone);

    var acted, value := ExecuteRouterAction(action, router, settings, hasSink, wording);
    events := events + acted;
    if value.Failure? {
      return events, Failed(ActionExecution, value.error);
    }

    events := events + Progress(hasSink, LoggingOut) + [Quit];
    if router.quit.Some? {
      events := events + Progress(hasSink, LogoutFailed);
      return events, Failed(Logout, Rethrow(wording, "Выход из системы не был произведен.", router.quit.value));
    }
    events := events + Progress(hasSink, LoggedOut);
    return events, Completed(value.value);
  }

  /**
   * ExecuteActionAsync: the settings check, then the stages in order; `connected` plays the part
   * of the `connection` variable the `finally` block tests before disposing.
   */
  method ExecuteAction(settings: ProgramSettings, router: Router, credentials: Credentials, action: RouterAction,
                       hasSink: bool, wording: Wording)
    returns (events: seq<Event>, result: SessionResult)
    ensures Session(events, result) == RunSession(settings, router, credentials, action, hasSink, wording)
  {
    var check := ThrowIfWrongSettings(settings);
    if check.Fail? {
      return [], Failed(SettingsValidation, check.error);
    }
    var connected := false;
    events := [CreateConnection(settings.routerAddress)];
    var creation := router.createConnection(settings.routerAddress);
    if creation.Some? {
      result := Failed(ConnectionCreation, Rethrow(wording, "Объект подключения не был создан.", creation.value));
    } else {
      connected := true;
      events := events + Progress(hasSink, Connecting) + [Connect];
      if router.connect.Some? {
        events := events + Progress(hasSink, ConnectionFailed);
        result := Failed(Connection, Rethrow(wording, "Подключение не было устновлено.", router.connect.value));
      } else {
        events := events + Progress(hasSink, Connected);
        var rest;
        rest, result := AuthenticateAndRun(settings, router, credentials, action, hasSink, wording);
        events := events + rest;
      }
    }
    // finally
    if connected {
      events := events + [Dispose];
    }
  }

  // ---- what a session promises, whatever the action does ----

  /** Settings that fail the check end the session before anything is created. */
  lemma InvalidSettingsOpenNothing(settings: ProgramSettings, router: Router, credentials: Credentials,
                                   run: Fetched<ActionValue>, hasSink: bool, wording: Wording)
    requires !Valid(settings)
    ensures SessionWith(settings, router, credentials, run, hasSink, wording)
      == Session([], Failed(SettingsValidation, SettingsError(settings)))
  {
  }

  /** Every stage of a session succeeds. */
  predicate AllStagesSucceed(settings: ProgramSettings, router: Router, credentials: Credentials, run: Fetched<ActionValue>)
  {
    && Valid(settings)
    && router.createConnection(settings.routerAddress).None?
    && router.connect.None?
    && credentials.decrypt(settings.userPassword).Success?
    && router.authenticate(settings.userName, credentials.decrypt(settings.userPassword).value).None?
    && run.result.Success?
    && router.quit.None?
  }

  /** A session completes exactly when every stage succeeds, and then it yields the action's value. */
  lemma CompletesIffAllStagesSucceed(settings: ProgramSettings, router: Router, credentials: Credentials,
                                     run: Fetched<ActionValue>, hasSink: bool, wording: Wording)
    ensures SessionWith(settings, router, credentials, run, hasSink, wording).result.Completed? <==>
      AllStagesSucceed(settings, router, credentials, run)
    ensures SessionWith(settings, router, credentials, run, hasSink, wording).result.Completed? ==>
      Success(SessionWith(settings, router, credentials, run, hasSink, wording).result.value) == run.result
  {
  }

  /** A report is neither a call nor more than its own message. */
  lemma Around(hasSink: bool, first: string, middle: seq<Event>, last: string)
    ensures Calls(Progress(hasSink, first) + middle + Progress(hasSink, last)) == Calls(middle)
    ensures hasSink ==> Messages(Progress(hasSink, first) + middle + Progress(hasSink, last)) == [first] + Messages(middle) + [last]
  {
    var p := Progress(hasSink, first);
    var q := Progress(hasSink, last);
    ProgressIsReportOnly(hasSink, first);
    ProgressIsReportOnly(hasSink, last);
    CallsAppend(p, middle);
    CallsAppend(p + middle, q);
    MessagesAppend(p, middle);
    MessagesAppend(p + middle, q);
  }

  /**
   * Once authenticated, an action that completes is followed by the logout: the stages call
   * authenticate, the action's calls and quit, and report around the action's own messages.
   */
  lemma AuthenticatedOrder(settings: ProgramSettings, router: Router, credentials: Credentials,
                           run: Fetched<ActionValue>, hasSink: bool, wording: Wording)
    requires credentials.decrypt(settings.userPassword).Success?
    requires router.authenticate(settings.userName, credentials.decrypt(settings.userPassword).value).None?
    requires run.result.Success?
    ensures Calls(Authenticated(settings, router, credentials, run, hasSink, wording).events)
      == [Authenticate(settings.userName, credentials.decrypt(settings.userPassword).value)] + Calls(run.events) + [Quit]
    ensures hasSink ==>
      (Messages(Authenticated(settings, router, credentials, run, hasSink, wording).events)
        == [Authenticating, AuthenticationDone] + Messages(run.events)
           + [LoggingOut, if router.quit.None? then LoggedOut else LogoutFailed])
  {
    AuthenticatedThroughLogout(settings, router, credentials, run, hasSink, wording);
    StagesAroundAction(hasSink, Authenticate(settings.userName, credentials.decrypt(settings.userPassword).value), run.events,
                       if router.quit.None? then LoggedOut else LogoutFailed);
  }

  /** The calls and messages of the authentication call, an action's events and the logout, with their reports. */
  lemma StagesAroundAction(hasSink: bool, call: Event, events: seq<Event>, last: string)
    requires !call.Report? && !call.Updated?
    ensures Calls(Progress(hasSink, Authenticating) + [call] + Progress(hasSink, AuthenticationDone) + events
                  + Progress(hasSink, LoggingOut) + [Quit] + Progress(hasSink, last))
      == [call] + Calls(events) + [Quit]
    ensures hasSink ==>
      Messages(Progress(hasSink, Authenticating) + [call] + Progress(hasSink, AuthenticationDone) + events
               + Progress(hasSink, LoggingOut) + [Quit] + Progress(hasSink, last))
      == [Authenticating, AuthenticationDone] + Messages(events) + [LoggingOut, last]
  {
    var middle := [call] + (Progress(hasSink, AuthenticationDone) + events + Progress(hasSink, LoggingOut)) + [Quit];
    assert Progress(hasSink, Authenticating) + [call] + Progress(hasSink, AuthenticationDone) + events
           + Progress(hasSink, LoggingOut) + [Quit] + Progress(hasSink, last)
      == Progress(hasSink, Authenticating) + middle + Progress(hasSink, last);
    Around(hasSink, Authenticating, middle, last);
    MiddleCalls(hasSink, call, events);
    if hasSink {
      MiddleMessages(call, events);
    }
  }

  /** The calls between the authentication reports: the call, the action's calls and quit. */
  lemma MiddleCalls(hasSink: bool, call: Event, events: seq<Event>)
    requires !call.Report? && !call.Updated?
    ensures Calls([call] + (Progress(hasSink, AuthenticationDone) + events + Progress(hasSink, LoggingOut)) + [Quit])
      == [call] + Calls(events) + [Quit]
  {
    var inner := Progress(hasSink, AuthenticationDone) + events + Progress(hasSink, LoggingOut);
    Around(hasSink, AuthenticationDone, events, LoggingOut);
    CallsAppend([call], inner);
    CallsAppend([call] + inner, [Quit]);
    assert Calls([call]) == [call] by {
      assert [call][1..] == [];
    }
    assert Calls([Quit]) == [Quit] by {
      assert [Quit][1..] == [];
    }
  }

  /** The messages between the authentication reports: the two around the action's own. */
  lemma MiddleMessages(call: Event, events: seq<Event>)
    requires !call.Report?
    ensures Messages([call] + (Progress(true, AuthenticationDone) + events + Progress(true, LoggingOut)) + [Quit])
      == [AuthenticationDone] + Messages(events) + [LoggingOut]
  {
    var inner := Progress(true, AuthenticationDone) + events + Progress(true, LoggingOut);
    Around(true, AuthenticationDone, events, LoggingOut);
    MessagesAppend([call], inner);
    MessagesAppend([call] + inner, [Quit]);
    assert Messages([call]) == [] by {
      assert [call][1..] == [];
    }
    assert Messages([Quit]) == [] by {
      assert [Quit][1..] == [];
    }
  }

  /** The later stages when the action completes: the authentication part, the action, then the logout. */
  lemma AuthenticatedThroughLogout(settings: ProgramSettings, router: Router, credentials: Credentials,
                                   run: Fetched<ActionValue>, hasSink: bool, wording: Wording)
    requires credentials.decrypt(settings.userPassword).Success?
    requires router.authenticate(settings.userName, credentials.decrypt(settings.userPassword).value).None?
    requires run.result.Success?
    ensures Authenticated(settings, router, credentials, run, hasSink, wording).events
      == Progress(hasSink, Authenticating) + [Authenticate(settings.userName, credentials.decrypt(settings.userPassword).value)]
         + Progress(hasSink, AuthenticationDone) + run.events + Progress(hasSink, LoggingOut) + [Quit]
         + Progress(hasSink, if router.quit.None? then LoggedOut else LogoutFailed)
    ensures Authenticated(settings, router, credentials, run, hasSink, wording).result
      == if router.quit.None? then Completed(run.result.value)
         else Failed(Logout, Rethrow(wording, "Выход из системы не был произведен.", router.quit.value))
  {
    if router.quit.None? {
    } else {
    }
  }

  /** Once the connection is open, the session is the connecting part, the later stages and the disposal. */
  lemma ConnectedSession(settings: ProgramSettings, router: Router, credentials: Credentials,
                         run: Fetched<ActionValue>, hasSink: bool, wording: Wording)
    requires Valid(settings) && router.createConnection(settings.routerAddress).None? && router.connect.None?
    ensures SessionWith(settings, router, credentials, run, hasSink, wording)
      == Session([CreateConnection(settings.routerAddress)]
                   + (Progress(hasSink, Connecting) + [Connect] + Progress(hasSink, Connected))
                   + Authenticated(settings, router, credentials, run, hasSink, wording).events + [Dispose],
                 Authenticated(settings, router, credentials, run, hasSink, wording).result)
  {
  }

  /** The calls and messages of a connecting part, the later stages and the disposal. */
  lemma ConnectedTrace(address: EndPoint, hasSink: bool, rest: seq<Event>)
    ensures Calls([CreateConnection(address)] + (Progress(hasSink, Connecting) + [Connect] + Progress(hasSink, Connected))
                  + rest + [Dispose])
      == [CreateConnection(address), Connect] + Calls(rest) + [Dispose]
    ensures hasSink ==>
      (Messages([CreateConnection(address)] + (Progress(hasSink, Connecting) + [Connect] + Progress(hasSink, Connected))
                + rest + [Dispose])
        == [Connecting, Connected] + Messages(rest))
  {
    var created, disposed := [CreateConnection(address)], [Dispose];
    var around := Progress(hasSink, Connecting) + [Connect] + Progress(hasSink, Connected);
    Split4(created, around, rest, disposed);
    Around(hasSink, Connecting, [Connect], Connected);
    Single(Connect);
    Single(CreateConnection(address));
    Single(Dispose);
    assert Calls(created) + Calls(around) == [CreateConnection(address), Connect];
    if hasSink {
      assert Messages(created) + Messages(around) == [Connecting, Connected];
    }
  }

  /**
   * A completed session calls create, connect, authenticate, the action's own calls, quit and
   * dispose, in this order; with a sink it reports the six stage messages around the action's own.
   */
  lemma CompletedSessionOrder(settings: ProgramSettings, router: Router, credentials: Credentials,
                              run: Fetched<ActionValue>, hasSink: bool, wording: Wording)
    requires AllStagesSucceed(settings, router, credentials, run)
    ensures Calls(SessionWith(settings, router, credentials, run, hasSink, wording).events)
      == [CreateConnection(settings.routerAddress), Connect,
          Authenticate(settings.userName, credentials.decrypt(settings.userPassword).value)]
        + Calls(run.events) + [Quit, Dispose]
    ensures hasSink ==>
      (Messages(SessionWith(settings, router, credentials, run, hasSink, wording).events)
        == [Connecting, Connected, Authenticating, AuthenticationDone] + Messages(run.events) + [LoggingOut, LoggedOut])
  {
    ConnectedSession(settings, router, credentials, run, hasSink, wording);
    AuthenticatedOrder(settings, router, credentials, run, hasSink, wording);
    ConnectedTrace(settings.routerAddress, hasSink, Authenticated(settings, router, credentials, run, hasSink, wording).events);
  }

  /** A connection that cannot be created is not disposed; the factory's exception is the cause. */
  lemma CreationFailure(settings: ProgramSettings, router: Router, credentials: Credentials,
                        run: Fetched<ActionValue>, hasSink: bool, wording: Wording)
    requires Valid(settings) && router.createConnection(settings.routerAddress).Some?
    ensures SessionWith(settings, router, credentials, run, hasSink, wording).events == [CreateConnection(settings.routerAddress)]
    ensures SessionWith(settings, router, credentials, run, hasSink, wording).result.Failed?
    ensures SessionWith(settings, router, credentials, run, hasSink, wording).result.stage == ConnectionCreation
    ensures SessionWith(settings, router, credentials, run, hasSink, wording).result.error.kind == InvalidOperation
    ensures SessionWith(settings, router, credentials, run, hasSink, wording).result.error.inner
      == router.createConnection(settings.routerAddress)
  {
  }

  /** A connection that cannot be opened is disposed; nothing else is called. */
  lemma ConnectionFailure(settings: ProgramSettings, router: Router, credentials: Credentials,
                          run: Fetched<ActionValue>, hasSink: bool, wording: Wording)
    requires Valid(settings) && router.createConnection(settings.routerAddress).None? && router.connect.Some?
    ensures Calls(SessionWith(settings, router, credentials, run, hasSink, wording).events)
      == [CreateConnection(settings.routerAddress), Connect, Dispose]
    ensures hasSink ==>
      (Messages(SessionWith(settings, router, credentials, run, hasSink, wording).events) == [Connecting, ConnectionFailed])
    ensures SessionWith(settings, router, credentials, run, hasSink, wording).result.Failed?
    ensures SessionWith(settings, router, credentials, run, hasSink, wording).result.stage == Connection
    ensures SessionWith(settings, router, credentials, run, hasSink, wording).result.error.kind == InvalidOperation
    ensures SessionWith(settings, router, credentials, run, hasSink, wording).result.error.inner == router.connect
  {
    assert SessionWith(settings, router, credentials, run, hasSink, wording).events
      == [CreateConnection(settings.routerAddress)]
         + (Progress(hasSink, Connecting) + [Connect] + Progress(hasSink, ConnectionFailed)) + [Dispose];
    ConnectionFailedTrace(settings.routerAddress, hasSink);
  }

  /** The trace of a connection that was created but not opened. */
  lemma ConnectionFailedTrace(address: EndPoint, hasSink: bool)
    ensures var events := [CreateConnection(address)]
                          + (Progress(hasSink, Connecting) + [Connect] + Progress(hasSink, ConnectionFailed)) + [Dispose];
      && Calls(events) == [CreateConnection(address), Connect, Dispose]
      && (hasSink ==> Messages(events) == [Connecting, ConnectionFailed])
  {
    var head := [CreateConnection(address)];
    Around(hasSink, Connecting, [Connect], ConnectionFailed);
    var around := Progress(hasSink, Connecting) + [Connect] + Progress(hasSink, ConnectionFailed);
    CallsAppend(head, around);
    CallsAppend(head + around, [Dispose]);
    MessagesAppend(head, around);
    MessagesAppend(head + around, [Dispose]);
  }

  /**
   * A password that cannot be decrypted fails the authentication stage before the router is
   * asked: the decryption failure is wrapped twice, once by GetPassword and once by the stage.
   */
  lemma PasswordFailure(settings: ProgramSettings, router: Router, credentials: Credentials,
                        run: Fetched<ActionValue>, hasSink: bool, wording: Wording)
    requires Valid(settings) && router.createConnection(settings.routerAddress).None? && router.connect.None?
    requires credentials.decrypt(settings.userPassword).Failure?
    ensures Calls(SessionWith(settings, router, credentials, run, hasSink, wording).events)
      == [CreateConnection(settings.routerAddress), Connect, Dispose]
    ensures SessionWith(settings, router, credentials, run, hasSink, wording).result.Failed?
    ensures SessionWith(settings, router, credentials, run, hasSink, wording).result.stage == Authentication
    ensures SessionWith(settings, router, credentials, run, hasSink, wording).result.error.inner.Some?
    ensures SessionWith(settings, router, credentials, run, hasSink, wording).result.error.inner.value.inner
      == Some(credentials.decrypt(settings.userPassword).error)
  {
    var rest := Authenticated(settings, router, credentials, run, hasSink, wording);
    assert rest.events == Progress(hasSink, Authenticating) + [] + Progress(hasSink, AuthenticationFailed);
    Around(hasSink, Authenticating, [], AuthenticationFailed);
    ConnectedSession(settings, router, credentials, run, hasSink, wording);
    ConnectedTrace(settings.routerAddress, hasSink, rest.events);
  }

  /** A rejected authentication is disposed without running the action; the router's exception is the cause. */
  lemma AuthenticationFailure(settings: ProgramSettings, router: Router, credentials: Credentials,
                              run: Fetched<ActionValue>, hasSink: bool, wording: Wording)
    requires Valid(settings) && router.createConnection(settings.routerAddress).None? && router.connect.None?
    requires credentials.decrypt(settings.userPassword).Success?
    requires router.authenticate(settings.userName, credentials.decrypt(settings.userPassword).value).Some?
    ensures Calls(SessionWith(settings, router, credentials, run, hasSink, wording).events)
      == [CreateConnection(settings.routerAddress), Connect,
          Authenticate(settings.userName, credentials.decrypt(settings.userPassword).value), Dispose]
    ensures SessionWith(settings, router, credentials, run, hasSink, wording).result.Failed?
    ensures SessionWith(settings, router, credentials, run, hasSink, wording).result.stage == Authentication
    ensures SessionWith(settings, router, credentials, run, hasSink, wording).result.error.inner
      == router.authenticate(settings.userName, credentials.decrypt(settings.userPassword).value)
  {
    var a := [Authenticate(settings.userName, credentials.decrypt(settings.userPassword).value)];
    var rest := Authenticated(settings, router, credentials, run, hasSink, wording);
    assert rest.events == Progress(hasSink, Authenticating) + a + Progress(hasSink, AuthenticationFailed);
    Around(hasSink, Authenticating, a, AuthenticationFailed);
    ConnectedSession(settings, router, credentials, run, hasSink, wording);
    ConnectedTrace(settings.routerAddress, hasSink, rest.events);
  }

  /**
   * An action that throws ends the session with the action's own exception, unwrapped; the
   * session does not log out but still disposes the connection.
   */
  lemma ActionFailure(settings: ProgramSettings, router: Router, credentials: Credentials,
                      run: Fetched<ActionValue>, hasSink: bool, wording: Wording)
    requires Valid(settings) && router.createConnection(settings.routerAddress).None? && router.connect.None?
    requires credentials.decrypt(settings.userPassword).Success?
    requires router.authenticate(settings.userName, credentials.decrypt(settings.userPassword).value).None?
    requires run.result.Failure?
    ensures Calls(SessionWith(settings, router, credentials, run, hasSink, wording).events)
      == [CreateConnection(settings.routerAddress), Connect,
          Authenticate(settings.userName, credentials.decrypt(settings.userPassword).value)]
        + Calls(run.events) + [Dispose]
    ensures SessionWith(settings, router, credentials, run, hasSink, wording).result
      == Failed(ActionExecution, run.result.error)
  {
    var a := [Authenticate(settings.userName, credentials.decrypt(settings.userPassword).value)];
    var rest := Authenticated(settings, router, credentials, run, hasSink, wording);
    AuthenticatedThenActionFails(settings, router, credentials, run, hasSink, wording);
    ReportedCall(hasSink, Authenticating, a, AuthenticationDone, run.events);
    ConnectedSession(settings, router, credentials, run, hasSink, wording);
    ConnectedTrace(settings.routerAddress, hasSink, rest.events);
  }

  /** The later stages when the action throws: the authentication part, then the action's events. */
  lemma AuthenticatedThenActionFails(settings: ProgramSettings, router: Router, credentials: Credentials,
                                     run: Fetched<ActionValue>, hasSink: bool, wording: Wording)
    requires credentials.decrypt(settings.userPassword).Success?
    requires router.authenticate(settings.userName, credentials.decrypt(settings.userPassword).value).None?
    requires run.result.Failure?
    ensures Authenticated(settings, router, credentials, run, hasSink, wording)
      == Session(Progress(hasSink, Authenticating) + [Authenticate(settings.userName, credentials.decrypt(settings.userPassword).value)]
                 + Progress(hasSink, AuthenticationDone) + run.events,
                 Failed(ActionExecution, run.result.error))
  {
  }

  /** A call between two reports, followed by `tail`, calls that call and then the tail's calls. */
  lemma ReportedCall(hasSink: bool, first: string, call: seq<Event>, last: string, tail: seq<Event>)
    ensures Calls(Progress(hasSink, first) + call + Progress(hasSink, last) + tail) == Calls(call) + Calls(tail)
  {
    var p := Progress(hasSink, first);
    var q := Progress(hasSink, last);
    ProgressIsReportOnly(hasSink, first);
    ProgressIsReportOnly(hasSink, last);
    CallsAppend(p, call);
    CallsAppend(p + call, q);
    CallsAppend(p + call + q, tail);
  }

  /** A failed logout is reported as the logout stage's failure, after the action completed. */
  lemma LogoutFailure(settings: ProgramSettings, router: Router, credentials: Credentials,
                      run: Fetched<ActionValue>, hasSink: bool, wording: Wording)
    requires Valid(settings) && router.createConnection(settings.routerAddress).None? && router.connect.None?
    requires credentials.decrypt(settings.userPassword).Success?
    requires router.authenticate(settings.userName, credentials.decrypt(settings.userPassword).value).None?
    requires run.result.Success? && router.quit.Some?
    ensures Calls(SessionWith(settings, router, credentials, run, hasSink, wording).events)
      == [CreateConnection(settings.routerAddress), Connect,
          Authenticate(settings.userName, credentials.decrypt(settings.userPassword).value)]
        + Calls(run.events) + [Quit, Dispose]
    ensures SessionWith(settings, router, credentials, run, hasSink, wording).result.Failed?
    ensures SessionWith(settings, router, credentials, run, hasSink, wording).result.stage == Logout
    ensures SessionWith(settings, router, credentials, run, hasSink, wording).result.error.inner == router.quit
  {
    var rest := Authenticated(settings, router, credentials, run, hasSink, wording);
    AuthenticatedThroughLogout(settings, router, credentials, run, hasSink, wording);
    AuthenticatedOrder(settings, router, credentials, run, hasSink, wording);
    ConnectedSession(settings, router, credentials, run, hasSink, wording);
    ConnectedTrace(settings.routerAddress, hasSink, rest.events);
  }

  /** The later stages add only reports, the authentication call, the action's events and the logout. */
  lemma AuthenticatedEvents(settings: ProgramSettings, router: Router, credentials: Credentials,
                            run: Fetched<ActionValue>, hasSink: bool, wording: Wording)
    ensures forall e :: e in Authenticated(settings, router, credentials, run, hasSink, wording).events ==>
      e in run.events || (hasSink && e.Report?) || e.Authenticate? || e == Quit
  {
  }

  /**
   * The `finally` block: a created connection is disposed exactly once, as the session's last
   * event (for an action that does not dispose it itself), and a connection never created is
   * never disposed.
   */
  lemma DisposedOnceIffCreated(settings: ProgramSettings, router: Router, credentials: Credentials,
                               run: Fetched<ActionValue>, hasSink: bool, wording: Wording)
    requires Dispose !in run.events
    ensures var events := SessionWith(settings, router, credentials, run, hasSink, wording).events;
      (Dispose in events <==> Valid(settings) && router.createConnection(settings.routerAddress).None?)
    ensures var events := SessionWith(settings, router, credentials, run, hasSink, wording).events;
      Dispose in events ==> events[|events| - 1] == Dispose && Dispose !in events[..|events| - 1]
  {
    if Valid(settings) && router.createConnection(settings.routerAddress).None? {
      var head := DisposedAtEnd(settings, router, credentials, run, hasSink, wording);
      DisposedLast(head);
    } else {
      NotCreatedNotDisposed(settings, router, credentials, run, hasSink, wording);
    }
  }

  /** A session that never created its connection has nothing to dispose. */
  lemma NotCreatedNotDisposed(settings: ProgramSettings, router: Router, credentials: Credentials,
                              run: Fetched<ActionValue>, hasSink: bool, wording: Wording)
    requires !(Valid(settings) && router.createConnection(settings.routerAddress).None?)
    ensures Dispose !in SessionWith(settings, router, credentials, run, hasSink, wording).events
  {
  }

  /** A session that created its connection ends with the disposal, and disposes nowhere before. */
  lemma DisposedAtEnd(settings: ProgramSettings, router: Router, credentials: Credentials,
                      run: Fetched<ActionValue>, hasSink: bool, wording: Wording)
    returns (head: seq<Event>)
    requires Dispose !in run.events
    requires Valid(settings) && router.createConnection(settings.routerAddress).None?
    ensures SessionWith(settings, router, credentials, run, hasSink, wording).events == head + [Dispose]
    ensures Dispose !in head
  {
    var connecting := [CreateConnection(settings.routerAddress)] + Progress(hasSink, Connecting) + [Connect];
    if router.connect.Some? {
      head := connecting + Progress(hasSink, ConnectionFailed);
    } else {
      var rest := Authenticated(settings, router, credentials, run, hasSink, wording).events;
      AuthenticatedEvents(settings, router, credentials, run, hasSink, wording);
      ConnectedSession(settings, router, credentials, run, hasSink, wording);
      assert [CreateConnection(settings.routerAddress)] + (Progress(hasSink, Connecting) + [Connect] + Progress(hasSink, Connected))
        == connecting + Progress(hasSink, Connected);
      head := connecting + Progress(hasSink, Connected) + rest;
    }
  }

  /** A trace that disposes only at its end disposes once, last. */
  lemma DisposedLast(head: seq<Event>)
    requires Dispose !in head
    ensures var events := head + [Dispose];
      Dispose in events && events[|events| - 1] == Dispose && Dispose !in events[..|events| - 1]
  {
    assert (head + [Dispose])[..|head|] == head;
  }

  /** A session without a progress sink reports nothing the action does not report itself. */
  lemma SilentSession(settings: ProgramSettings, router: Router, credentials: Credentials,
                      run: Fetched<ActionValue>, wording: Wording)
    requires forall e :: e in run.events ==> !e.Report?
    ensures Messages(SessionWith(settings, router, credentials, run, false, wording).events) == []
  {
    AuthenticatedEvents(settings, router, credentials, run, false, wording);
    NoReports(SessionWith(settings, router, credentials, run, false, wording).events);
  }

  /** The session gets as far as running the action. */
  predicate ActionRuns(settings: ProgramSettings, router: Router, credentials: Credentials)
  {
    && Valid(settings)
    && router.createConnection(settings.routerAddress).None?
    && router.connect.None?
    && credentials.decrypt(settings.userPassword).Success?
    && router.authenticate(settings.userName, credentials.decrypt(settings.userPassword).value).None?
  }

  /** The stages after the connection opened raise the action's batches and none of their own. */
  lemma AuthenticatedBatches(settings: ProgramSettings, router: Router, credentials: Credentials,
                             run: Fetched<ActionValue>, hasSink: bool, wording: Wording)
    ensures Batches(Authenticated(settings, router, credentials, run, hasSink, wording).events)
      == if credentials.decrypt(settings.userPassword).Success?
              && router.authenticate(settings.userName, credentials.decrypt(settings.userPassword).value).None?
         then Batches(run.events) else []
  {
    var events := Authenticated(settings, router, credentials, run, hasSink, wording).events;
    if credentials.decrypt(settings.userPassword).Success?
      && router.authenticate(settings.userName, credentials.decrypt(settings.userPassword).value).None? {
      var password := credentials.decrypt(settings.userPassword).value;
      var pre := Progress(hasSink, Authenticating) + [Authenticate(settings.userName, password)]
        + Progress(hasSink, AuthenticationDone);
      var post := if run.result.Failure? then []
        else Progress(hasSink, LoggingOut) + [Quit] + Progress(hasSink, if router.quit.Some? then LogoutFailed else LoggedOut);
      assert events == pre + run.events + post;
      NoBatches(pre);
      NoBatches(post);
      BatchesAppend(pre, run.events);
      BatchesAppend(pre + run.events, post);
    } else {
      assert forall e :: e in events ==> !e.Updated?;
      NoBatches(events);
    }
  }

  /** The connecting part and the disposal raise no update. */
  lemma ConnectedBatches(address: EndPoint, hasSink: bool, rest: seq<Event>)
    ensures Batches([CreateConnection(address)] + (Progress(hasSink, Connecting) + [Connect] + Progress(hasSink, Connected))
                    + rest + [Dispose])
      == Batches(rest)
  {
    var head := [CreateConnection(address)] + (Progress(hasSink, Connecting) + [Connect] + Progress(hasSink, Connected));
    NoBatches(head);
    NoBatches([Dispose]);
    BatchesAppend(head, rest);
    BatchesAppend(head + rest, [Dispose]);
  }

  /** The session's own steps raise no update: its batches are the action's, when the action runs. */
  lemma SessionBatches(settings: ProgramSettings, router: Router, credentials: Credentials,
                       run: Fetched<ActionValue>, hasSink: bool, wording: Wording)
    ensures Batches(SessionWith(settings, router, credentials, run, hasSink, wording).events)
      == if ActionRuns(settings, router, credentials) then Batches(run.events) else []
  {
    var events := SessionWith(settings, router, credentials, run, hasSink, wording).events;
    if Valid(settings) && router.createConnection(settings.routerAddress).None? && router.connect.None? {
      ConnectedSession(settings, router, credentials, run, hasSink, wording);
      AuthenticatedBatches(settings, router, credentials, run, hasSink, wording);
      ConnectedBatches(settings.routerAddress, hasSink, Authenticated(settings, router, credentials, run, hasSink, wording).events);
    } else {
      assert forall e :: e in events ==> !e.Updated?;
      NoBatches(events);
    }
  }
}
