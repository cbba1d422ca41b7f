/**
 * SettingsEventTracker: listeners register under the name of a settings item, and each change
 * event of the settings service reaches the one listener registered under the event's name.
 */
module SettingsTracker {
  import opened Wrappers
  import opened Errors

  /** An IObserver<ISettingsItem>, known by its identity. */
  datatype Listener = Listener(id: nat)

  /** An ISettingsItem, known by its identity. */
  datatype Item = Item(id: nat)

  /** SettingsChangedArgs; a null item is `None`. */
  datatype ChangedArgs = ChangedArgs(name: string, item: Option<Item>)

  /** One `listener.OnNext(item)` call. */
  datatype Notice = Notice(listener: Listener, item: Item)

  /** Register on the dictionary: the two guards, then Dictionary.Add. */
  function Registered(listeners: map<string, Listener>, settingsName: string, listener: Option<Listener>)
    : Result<map<string, Listener>>
  {
    if settingsName == "" then Failure(EmptyArgument("settingsName"))
    else if listener.None? then Failure(NullArgument("listener"))
    else if settingsName in listeners then Failure(DuplicateKey(settingsName))
    else Success(listeners[settingsName := listener.value])
  }

  /** SettingsServiceChanged: the three guards, then at most one notice. */
  function Dispatched(listeners: map<string, Listener>, args: Option<ChangedArgs>): Result<seq<Notice>>
  {
    if args.None? then Failure(NullArgument("args"))
    else if args.value.name == "" then Failure(EmptyArgument("Name"))
    else if args.value.item.None? then Failure(NullArgument("Item"))
    else if args.value.name in listeners then Success([Notice(listeners[args.value.name], args.value.item.value)])
    else Success([])
  }

  class SettingsEventTracker {
    var listeners: map<string, Listener>   // _listeners
    var subscribed: bool                   // whether SettingsServiceChanged is attached to the service's Changed event

    constructor()
      ensures listeners == map[] && subscribed
    {
      listeners := map[];
      subscribed := true;
    }

    method Register(settingsName: string, listener: Option<Listener>) returns (r: Outcome)
      modifies this
      ensures Registered(old(listeners), settingsName, listener).Failure? ==>
        r == Fail(Registered(old(listeners), settingsName, listener).error) && listeners == old(listeners)
      ensures Registered(old(listeners), settingsName, listener).Success? ==>
        r == Pass && listeners == Registered(old(listeners), settingsName, listener).value
      ensures subscribed == old(subscribed)
    {
      if settingsName == "" {
        return Fail(EmptyArgument("settingsName"));
      }
      if listener.None? {
        return Fail(NullArgument("listener"));
      }
      if settingsName in listeners {
        return Fail(DuplicateKey(settingsName));
      }
      listeners := listeners[settingsName := listener.value];
      return Pass;
    }

    method SettingsServiceChanged(args: Option<ChangedArgs>) returns (notices: seq<Notice>, r: Outcome)
      ensures Dispatched(listeners, args).Failure? ==> notices == [] && r == Fail(Dispatched(listeners, args).error)
      ensures Dispatched(listeners, args).Success? ==> notices == Dispatched(listeners, args).value && r == Pass
    {
      if args.None? {
        return [], Fail(NullArgument("args"));
      }
      if args.value.name == "" {
        return [], Fail(EmptyArgument("Name"));
      }
      if args.value.item.None? {
        return [], Fail(NullArgument("Item"));
      }
      notices := [];
      if args.value.name in listeners {
        notices := [Notice(listeners[args.value.name], args.value.item.value)];
      }
      r := Pass;
    }

    /** Dispose: detach from the service and forget every listener. */
    method Dispose()
      modifies this
      ensures listeners == map[] && !subscribed
    {
      subscribed := false;
      listeners := map[];
    }
  }

  // ---- what the tracker promises ----

  /**
   * Register accepts exactly a present listener under a new non-empty name and adds that one
   * entry; the name is checked before the listener, and a taken name fails in Dictionary.Add.
   */
  lemma RegisterMeaning(listeners: map<string, Listener>, settingsName: string, listener: Option<Listener>)
    ensures Registered(listeners, settingsName, listener).Success? <==>
      settingsName != "" && listener.Some? && settingsName !in listeners
    ensures settingsName == "" ==> Registered(listeners, settingsName, listener).error.kind == Argument("settingsName")
    ensures settingsName != "" && listener.None? ==>
      Registered(listeners, settingsName, listener).error.kind == ArgumentNull("listener")
    ensures settingsName != "" && listener.Some? && settingsName in listeners ==>
      Registered(listeners, settingsName, listener).error.kind == Argument("key")
    ensures Registered(listeners, settingsName, listener).Success? ==>
      && Registered(listeners, settingsName, listener).value.Keys == listeners.Keys + {settingsName}
      && Registered(listeners, settingsName, listener).value[settingsName] == listener.value
      && forall n :: n in listeners ==> Registered(listeners, settingsName, listener).value[n] == listeners[n]
  {
  }

  /**
   * A well-formed change reaches exactly the listener registered under its name, once, and is
   * dropped when nobody is registered; a malformed one throws before any listener is called.
   */
  lemma DispatchMeaning(listeners: map<string, Listener>, args: Option<ChangedArgs>)
    ensures Dispatched(listeners, args).Success? <==> args.Some? && args.value.name != "" && args.value.item.Some?
    ensures Dispatched(listeners, args).Success? ==>
      |Dispatched(listeners, args).value| == (if args.value.name in listeners then 1 else 0)
    ensures Dispatched(listeners, args).Success? ==>
      forall n :: n in Dispatched(listeners, args).value ==>
        args.value.name in listeners && n.listener == listeners[args.value.name] && n.item == args.value.item.value
  {
  }

  /** A listener registered under a name receives that name's changes; after Dispose nobody does. */
  lemma RegisteredListenerIsNotified(listeners: map<string, Listener>, listener: Listener, name: string, item: Item)
    requires Registered(listeners, name, Some(listener)).Success?
    ensures Dispatched(Registered(listeners, name, Some(listener)).value, Some(ChangedArgs(name, Some(item))))
      == Success([Notice(listener, item)])
    ensures Dispatched(map[], Some(ChangedArgs(name, Some(item)))) == Success([])
  {
  }
}
