/**
 * RouterStateNotifierService: subscribers register for one interface name each; the polling
 * action's updates are routed record by record to the subscriber of the record's interface, and
 * the service's two operations wrap whatever their session throws.
 */
module StateNotifier {
  import opened Wrappers
  import opened Errors
  import opened Settings
  import opened Api
  import opened Correlator
  import opened Actions
  import opened Executor

  /** An IObserver<IRouterInterface>, known by its identity. */
  datatype Observer = Observer(id: nat)

  /** One `observer.OnNext(model)` call. */
  datatype Delivery = Delivery(observer: Observer, model: RouterInterface)

  /** The text of the error for a name that already has a subscriber. */
  function AlreadySubscribed(interfaceName: string): string
  {
    "Подписчик для интерфейса \"" + interfaceName + "\" был добавлен ранее."
  }

  /** ObserversManager.Add on the dictionary: the guards in order, then the insertion. */
  function AddObserver(observers: map<string, Observer>, observer: Option<Observer>, interfaceName: string)
    : Result<map<string, Observer>>
  {
    if observer.None? then Failure(NullArgument("observer"))
    else if interfaceName == "" then Failure(EmptyArgument("interfaceName"))
    else if interfaceName in observers then Failure(Invalid(AlreadySubscribed(interfaceName)))
    else Success(observers[interfaceName := observer.value])
  }

  /** UpdatingData: one delivery per record whose interface has a subscriber, in the records' order. */
  function Routed(observers: map<string, Observer>, models: seq<RouterInterface>): seq<Delivery>
  {
    if models == [] then []
    else
      var last := models[|models| - 1];
      Routed(observers, models[..|models| - 1])
        + (if last.name in observers then [Delivery(observers[last.name], last)] else [])
  }

  /** The deliveries of a sequence of updates, one update after the other. */
  function RoutedAll(observers: map<string, Observer>, batches: seq<seq<RouterInterface>>): seq<Delivery>
  {
    if batches == [] then [] else RoutedAll(observers, batches[..|batches| - 1]) + Routed(observers, batches[|batches| - 1])
  }

  /** The registry of subscribers, keyed by interface name. */
  class ObserversManager {
    var observers: map<string, Observer>

    constructor()
      ensures observers == map[]
    {
      observers := map[];
    }

    /**
     * Add: a rejected subscription leaves the registry as it was; an accepted one returns a
     * handle bound to this registry and the name.
     */
    method Add(observer: Option<Observer>, interfaceName: string) returns (r: Result<Unsubscriber>)
      modifies this
      ensures AddObserver(old(observers), observer, interfaceName).Failure? ==>
        r == Failure(AddObserver(old(observers), observer, interfaceName).error) && observers == old(observers)
      ensures AddObserver(old(observers), observer, interfaceName).Success? ==>
        && observers == AddObserver(old(observers), observer, interfaceName).value
        && r.Success? && fresh(r.value) && r.value.interfaceName == interfaceName && r.value.manager == this
    {
      if observer.None? {
        return Failure(NullArgument("observer"));
      }
      if interfaceName == "" {
        return Failure(EmptyArgument("interfaceName"));
      }
      if interfaceName in observers {
        return Failure(Invalid(AlreadySubscribed(interfaceName)));
      }
      observers := observers[interfaceName := observer.value];
      var handle := new Unsubscriber(interfaceName, this);
      return Success(handle);
    }

    /** TryGetObserver. */
    function TryGetObserver(interfaceName: string): (r: Option<Observer>)
      reads this
      ensures r.Some? <==> interfaceName in observers
      ensures r.Some? ==> r.value == observers[interfaceName]
    {
      if interfaceName in observers then Some(observers[interfaceName]) else None
    }

    /** UpdatingData: hand each record to the subscriber of its interface, if there is one. */
    method UpdatingData(models: seq<RouterInterface>) returns (delivered: seq<Delivery>)
      ensures delivered == Routed(observers, models)
    {
      delivered := [];
      for i := 0 to |models|
        invariant delivered == Routed(observers, models[..i])
      {
        assert models[..i + 1][..i] == models[..i];
        var observer := TryGetObserver(models[i].name);
        if observer.Some? {
          delivered := delivered + [Delivery(observer.value, models[i])];
        }
      }
      assert models[..|models|] == models;
    }
  }

  /** The handle Add returns; it shares the registry's dictionary. */
  class Unsubscriber {
    const interfaceName: string
    const manager: ObserversManager

    constructor(interfaceName: string, manager: ObserversManager)
      ensures this.interfaceName == interfaceName && this.manager == manager
    {
      this.interfaceName := interfaceName;
      this.manager := manager;
    }

    /** Dispose: the subscription under this name goes, every other one stays. */
    method Dispose()
      modifies manager
      ensures manager.observers == old(manager.observers) - {interfaceName}
    {
      manager.observers := manager.observers - {interfaceName};
    }
  }

  // ---- the registry's promises ----

  /**
   * Add accepts exactly a present observer under a new non-empty name, and then adds that one
   * entry; otherwise it throws the first guard's exception.
   */
  lemma AddMeaning(observers: map<string, Observer>, observer: Option<Observer>, interfaceName: string)
    ensures AddObserver(observers, observer, interfaceName).Success? <==>
      observer.Some? && interfaceName != "" && interfaceName !in observers
    ensures observer.None? ==> AddObserver(observers, observer, interfaceName).error.kind == ArgumentNull("observer")
    ensures observer.Some? && interfaceName == "" ==>
      AddObserver(observers, observer, interfaceName).error.kind == Argument("interfaceName")
    ensures observer.Some? && interfaceName != "" && interfaceName in observers ==>
      AddObserver(observers, observer, interfaceName).error.kind == InvalidOperation
    ensures AddObserver(observers, observer, interfaceName).Success? ==>
      && AddObserver(observers, observer, interfaceName).value.Keys == observers.Keys + {interfaceName}
      && AddObserver(observers, observer, interfaceName).value[interfaceName] == observer.value
      && forall n :: n in observers ==> AddObserver(observers, observer, interfaceName).value[n] == observers[n]
  {
  }

  /** Disposing the handle of an accepted subscription gives back the registry as it was before. */
  lemma AddThenDispose(observers: map<string, Observer>, observer: Option<Observer>, interfaceName: string)
    requires AddObserver(observers, observer, interfaceName).Success?
    ensures AddObserver(observers, observer, interfaceName).value - {interfaceName} == observers
  {
  }

  /** Every delivery goes to the subscriber of its record's interface, with a record from the batch. */
  lemma {:induction false} RoutedToSubscriber(observers: map<string, Observer>, models: seq<RouterInterface>)
    ensures forall d :: d in Routed(observers, models) ==>
      d.model in models && d.model.name in observers && d.observer == observers[d.model.name]
  {
    if models != [] {
      RoutedToSubscriber(observers, models[..|models| - 1]);
    }
  }

  /** A batch splits into its parts: the deliveries of a concatenation are the parts' deliveries in order. */
  lemma {:induction false} RoutedAppend(observers: map<string, Observer>, a: seq<RouterInterface>, b: seq<RouterInterface>)
    ensures Routed(observers, a + b) == Routed(observers, a) + Routed(observers, b)
    decreases |b|
  {
    if b == [] {
      assert a + b == a;
    } else {
      assert (a + b)[..|a + b| - 1] == a + b[..|b| - 1];
      RoutedAppend(observers, a, b[..|b| - 1]);
    }
  }

  /** The number of records in the batch whose interface has a subscriber. */
  function Subscribed(observers: map<string, Observer>, models: seq<RouterInterface>): nat
  {
    if models == [] then 0
    else Subscribed(observers, models[..|models| - 1]) + (if models[|models| - 1].name in observers then 1 else 0)
  }

  /** Each record with a subscriber is delivered exactly once, and the others not at all. */
  lemma {:induction false} RoutedOncePerSubscribedRecord(observers: map<string, Observer>, models: seq<RouterInterface>)
    ensures |Routed(observers, models)| == Subscribed(observers, models)
    ensures (forall m :: m in models ==> m.name !in observers) ==> Routed(observers, models) == []
  {
    if models != [] {
      var front := models[..|models| - 1];
      assert forall m :: m in front ==> m in models;
      RoutedOncePerSubscribedRecord(observers, front);
      assert models[|models| - 1] in models;
    }
  }

  /** A record reaches the observer just subscribed for its name, and nobody once that handle is disposed. */
  lemma SubscribedThenDisposed(observers: map<string, Observer>, observer: Observer, model: RouterInterface)
    requires AddObserver(observers, Some(observer), model.name).Success?
    ensures Routed(AddObserver(observers, Some(observer), model.name).value, [model]) == [Delivery(observer, model)]
    ensures Routed(AddObserver(observers, Some(observer), model.name).value - {model.name}, [model]) == []
  {
    assert [model][..0] == [];
  }

  // ---- the service ----

  /** StartNotificationsAsync: the session, the deliveries its updates caused, and how it ended. */
  datatype Notifications = Notifications(events: seq<Event>, deliveries: seq<Delivery>, result: Result<()>)

  function StartNotifications(settings: ProgramSettings, router: Router, credentials: Credentials,
                              token: CancellationToken, observers: map<string, Observer>): Notifications
  {
    var s := RunSession(settings, router, credentials, StatusNotifier(token), false, Plain);
    Notifications(s.events, RoutedAll(observers, Batches(s.events)),
      if s.result.Completed? then Success(())
      else Failure(Wrap("Обновление данных интерфейсов роутера не было завершено.", s.result.error)))
  }

  /** GetInterfacesInfoAsync: the records of one correlation in a session of its own. */
  function ReadInterfacesInfo(settings: ProgramSettings, router: Router, credentials: Credentials)
    : Fetched<seq<RouterInterface>>
  {
    var s := RunSession(settings, router, credentials, InterfacesInfo, false, Plain);
    match s.result
    case Completed(value) => Fetched(s.events, Success(if value.InterfaceList? then value.records else []))
    case Failed(_, e) => Fetched(s.events, Failure(Wrap("Список интерфейсов роутера не был получен.", e)))
  }

  /** RouterStateNotifierService, holding the registry its subscribers are added to. */
  class RouterStateNotifierService {
    const observersManager: ObserversManager

    constructor()
      ensures fresh(observersManager) && observersManager.observers == map[]
    {
      observersManager := new ObserversManager();
    }

    method Subscribe(observer: Option<Observer>, interfaceName: string) returns (r: Result<Unsubscriber>)
      modifies observersManager
      ensures AddObserver(old(observersManager.observers), observer, interfaceName).Failure? ==>
        && r == Failure(AddObserver(old(observersManager.observers), observer, interfaceName).error)
        && observersManager.observers == old(observersManager.observers)
      ensures AddObserver(old(observersManager.observers), observer, interfaceName).Success? ==>
        && observersManager.observers == AddObserver(old(observersManager.observers), observer, interfaceName).value
        && r.Success? && r.value.interfaceName == interfaceName
    {
      r := observersManager.Add(observer, interfaceName);
    }

    /**
     * StartNotificationsAsync: run the polling action in a session, route every update it
     * raises, and wrap anything the session throws.
     */
    method StartNotificationsAsync(settings: ProgramSettings, router: Router, credentials: Credentials,
                                   token: CancellationToken)
      returns (events: seq<Event>, deliveries: seq<Delivery>, r: Result<()>)
      ensures Notifications(events, deliveries, r)
        == StartNotifications(settings, router, credentials, token, observersManager.observers)
    {
      var result;
      events, result := ExecuteAction(settings, router, credentials, StatusNotifier(token), false, Plain);
      var batches := Batches(events);
      deliveries := [];
      for i := 0 to |batches|
        invariant deliveries == RoutedAll(observersManager.observers, batches[..i])
      {
        assert batches[..i + 1][..i] == batches[..i];
        var delivered := observersManager.UpdatingData(batches[i]);
        deliveries := deliveries + delivered;
      }
      assert batches[..|batches|] == batches;
      if result.Failed? {
        return events, deliveries, Failure(Wrap("Обновление данных интерфейсов роутера не было завершено.", result.error));
      }
      r := Success(());
    }

    /** GetInterfacesInfoAsync. */
    method GetInterfacesInfoAsync(settings: ProgramSettings, router: Router, credentials: Credentials)
      returns (events: seq<Event>, r: Result<seq<RouterInterface>>)
      ensures Fetched(events, r) == ReadInterfacesInfo(settings, router, credentials)
    {
      var result;
      events, result := ExecuteAction(settings, router, credentials, InterfacesInfo, false, Plain);
      if result.Failed? {
        return events, Failure(Wrap("Список интерфейсов роутера не был получен.", result.error));
      }
      r := Success(if result.value.InterfaceList? then result.value.records else []);
    }
  }

  // ---- the service's promises ----

  /** Whatever stage fails, the notifications end with the fixed wrapper around the session's exception. */
  lemma NotificationFailureWrapped(settings: ProgramSettings, router: Router, credentials: Credentials,
                                   token: CancellationToken, observers: map<string, Observer>)
    ensures var n := StartNotifications(settings, router, credentials, token, observers);
      var s := RunSession(settings, router, credentials, StatusNotifier(token), false, Plain);
      (n.result.Failure? <==> s.result.Failed?)
      && (n.result.Failure? ==>
            n.result.error.message == "Обновление данных интерфейсов роутера не было завершено."
            && n.result.error.inner == Some(s.result.error))
  {
  }

  /** Settings that fail the check deliver nothing and end wrapped around the settings error. */
  lemma InvalidSettingsNotifyNothing(settings: ProgramSettings, router: Router, credentials: Credentials,
                                     token: CancellationToken, observers: map<string, Observer>)
    requires !SettingsCheck.Valid(settings)
    ensures StartNotifications(settings, router, credentials, token, observers).deliveries == []
    ensures StartNotifications(settings, router, credentials, token, observers).result.error.inner
      == Some(SettingsCheck.SettingsError(settings))
  {
  }

  /**
   * When the session gets to the polling loop and every read before cancellation succeeds, the
   * subscribers receive exactly the routed records of each read, in order.
   */
  lemma NotificationsDeliverReads(settings: ProgramSettings, router: Router, credentials: Credentials,
                                  token: CancellationToken, observers: map<string, Observer>)
    requires ActionRuns(settings, router, credentials)
    requires forall k :: 0 <= k < token.requestedAt ==> Correlate(router.poll(k)).result.Success?
    ensures StartNotifications(settings, router, credentials, token, observers).deliveries
      == RoutedAll(observers, Reads(router, 0, token.requestedAt))
  {
    var run := RunAction(StatusNotifier(token), router, settings, false, Plain);
    SessionBatches(settings, router, credentials, run, false, Plain);
    NotifierUpdates(router, token, 0);
  }

  /** The records come back exactly when the session succeeds and the correlation of the first read does. */
  lemma InterfacesInfoMeaning(settings: ProgramSettings, router: Router, credentials: Credentials)
    ensures ReadInterfacesInfo(settings, router, credentials).result.Success? <==>
      ActionRuns(settings, router, credentials) && Correlate(router.poll(0)).result.Success? && router.quit.None?
    ensures ReadInterfacesInfo(settings, router, credentials).result.Success? ==>
      ReadInterfacesInfo(settings, router, credentials).result.value == Correlate(router.poll(0)).result.value
    ensures ReadInterfacesInfo(settings, router, credentials).result.Failure? ==>
      ReadInterfacesInfo(settings, router, credentials).result.error.message == "Список интерфейсов роутера не был получен."
  {
    var run := RunAction(InterfacesInfo, router, settings, false, Plain);
    CompletesIffAllStagesSucceed(settings, router, credentials, run, false, Plain);
  }
}
