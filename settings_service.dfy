/**
 * SettingsService.ProgramSettingsItem: the program settings kept in memory and persisted as six
 * properties of the "CommonSettings" collection of a key/value store. A property the store does
 * not hold reads as its type's default; a failed save or load is rethrown as a
 * SettingsSaveLoadFaultException and leaves the settings in memory as they were.
 */
module SettingsService {
  import opened Wrappers
  import opened Errors
  import opened Settings

  /** A value of the store, with the type it was written as. */
  datatype StoreValue = Str(s: string) | Int(i: int) | Bytes(b: seq<byte>)

  const Collection := "CommonSettings"
  const SettingsName := "Общие настройки приложения"

  /** The store's contents, keyed by collection and property name. */
  type Entries = map<(string, string), StoreValue>

  /** The key/value store behind the settings; `writeFault(p)` is what a write of property `p` throws, if anything. */
  class SettingsStore {
    var entries: Entries
    const writeFault: string -> Option<Exception>

    constructor(entries: Entries, writeFault: string -> Option<Exception>)
      ensures this.entries == entries && this.writeFault == writeFault
    {
      this.entries := entries;
      this.writeFault := writeFault;
    }

    /** SetStringValue, SetIntValue and SetBytesValue: one property written, or the store's exception. */
    method SetValue(collectionName: string, propertyName: string, value: StoreValue) returns (o: Outcome)
      modifies this
      ensures writeFault(propertyName).Some? ==> o == Fail(writeFault(propertyName).value) && entries == old(entries)
      ensures writeFault(propertyName).None? ==> o == Pass && entries == old(entries)[(collectionName, propertyName) := value]
    {
      if writeFault(propertyName).Some? {
        return Fail(writeFault(propertyName).value);
      }
      entries := entries[(collectionName, propertyName) := value];
      return Pass;
    }
  }

  /** The exception a value of another type than the one read raises when it is cast. */
  function CastFailure(): Exception
  {
    Exception(InvalidCast, "Specified cast is not valid.", None)
  }

  /** GetStringValue: the stored string, "" when the property is missing. */
  function GetStringValue(entries: Entries, propertyName: string): Result<string>
  {
    if (Collection, propertyName) !in entries then Success("")
    else match entries[(Collection, propertyName)]
      case Str(s) => Success(s)
      case _ => Failure(CastFailure())
  }

  /** GetIntValue: the stored number, 0 when the property is missing. */
  function GetIntValue(entries: Entries, propertyName: string): Result<int>
  {
    if (Collection, propertyName) !in entries then Success(0)
    else match entries[(Collection, propertyName)]
      case Int(i) => Success(i)
      case _ => Failure(CastFailure())
  }

  /** GetBytesValue: the stored bytes, empty when the property is missing. */
  function GetBytesValue(entries: Entries, propertyName: string): Result<seq<byte>>
  {
    if (Collection, propertyName) !in entries then Success([])
    else match entries[(Collection, propertyName)]
      case Bytes(b) => Success(b)
      case _ => Failure(CastFailure())
  }

  /** The settings of a fresh item: no user, no password, the loopback address with port 0, no interfaces. */
  const DefaultSettings := ProgramSettings("", [], EndPoint(LoopbackAddress, MinPort), NetworkInterfaces("", ""))

  /** The properties OnSave writes, in its order. */
  function SavedValues(source: ProgramSettings, format: IpAddress -> string): seq<(string, StoreValue)>
  {
    [("UserName", Str(source.userName)),
     ("UserPassword", Bytes(source.userPassword)),
     ("Port", Int(source.routerAddress.port)),
     ("Address", Str(format(source.routerAddress.address))),
     ("PppoeInterface", Str(source.networkInterfaces.pppoeInterface)),
     ("EtherInterface", Str(source.networkInterfaces.etherInterface))]
  }

  /** The store after a sequence of writes that stops at the first one that throws, and that exception. */
  datatype Stored = Stored(entries: Entries, error: Option<Exception>)

  function WriteAll(entries: Entries, writeFault: string -> Option<Exception>, writes: seq<(string, StoreValue)>): Stored
    decreases |writes|
  {
    if writes == [] then Stored(entries, None)
    else if writeFault(writes[0].0).Some? then Stored(entries, writeFault(writes[0].0))
    else WriteAll(entries[(Collection, writes[0].0) := writes[0].1], writeFault, writes[1..])
  }

  /** `new IPEndPoint(address, port)`: the port must lie in 0..65535. */
  function NewEndPoint(address: IpAddress, port: int): Result<EndPoint>
  {
    if port < MinPort || port > MaxPort
    then Failure(Exception(ArgumentOutOfRange, "Specified argument was out of the range of valid values. (Parameter 'port')", None))
    else Success(EndPoint(address, port))
  }

  /** GetRouterAddress: an address that does not parse becomes IPAddress.None. */
  function GetRouterAddress(entries: Entries, parse: string -> Option<IpAddress>): Result<EndPoint>
  {
    var raw := GetStringValue(entries, "Address");
    var port := GetIntValue(entries, "Port");
    if raw.Failure? then Failure(raw.error)
    else if port.Failure? then Failure(port.error)
    else NewEndPoint(if parse(raw.value).Some? then parse(raw.value).value else NoneAddress, port.value)
  }

  /** OnLoad: the properties read in its order; the first read that throws ends it. */
  function OnLoad(entries: Entries, parse: string -> Option<IpAddress>): Result<ProgramSettings>
  {
    var userName := GetStringValue(entries, "UserName");
    var userPassword := GetBytesValue(entries, "UserPassword");
    var routerAddress := GetRouterAddress(entries, parse);
    var pppoe := GetStringValue(entries, "PppoeInterface");
    var ether := GetStringValue(entries, "EtherInterface");
    if userName.Failure? then Failure(userName.error)
    else if userPassword.Failure? then Failure(userPassword.error)
    else if routerAddress.Failure? then Failure(routerAddress.error)
    else if pppoe.Failure? then Failure(pppoe.error)
    else if ether.Failure? then Failure(ether.error)
    else Success(ProgramSettings(userName.value, userPassword.value, routerAddress.value, NetworkInterfaces(pppoe.value, ether.value)))
  }

  function SaveFault(cause: Exception): Exception
  {
    Exception(SettingsSaveLoadFault, "Сохранение настроек \"" + SettingsName + "\" не было завершено.\r\nОшибка: " + cause.message, Some(cause))
  }

  function LoadFault(cause: Exception): Exception
  {
    Exception(SettingsSaveLoadFault,
              "Загрузка настроек \"" + SettingsName + "\" не была завершена успешно.\r\nОшибка: " + cause.message, Some(cause))
  }

  /** Save as a whole: the store afterwards and how the call ended. */
  datatype Saved = Saved(entries: Entries, outcome: Outcome)

  function SaveSettings(entries: Entries, writeFault: string -> Option<Exception>, source: Option<ProgramSettings>,
                        format: IpAddress -> string): Saved
  {
    if source.None? then Saved(entries, Fail(NullArgument("source")))
    else
      var stored := WriteAll(entries, writeFault, SavedValues(source.value, format));
      Saved(stored.entries, if stored.error.Some? then Fail(SaveFault(stored.error.value)) else Pass)
  }

  /** ProgramSettingsItem: the four settings in memory over the store. */
  class ProgramSettingsItem {
    var userName: string
    var userPassword: seq<byte>
    var routerAddress: EndPoint
    var networkInterfaces: NetworkInterfaces
    const store: SettingsStore
    const text: AddressText

    function Snapshot(): ProgramSettings
      reads this
    {
      ProgramSettings(userName, userPassword, routerAddress, networkInterfaces)
    }

    constructor(store: SettingsStore, text: AddressText)
      ensures Snapshot() == DefaultSettings && this.store == store && this.text == text
    {
      userName := "";
      userPassword := [];
      routerAddress := EndPoint(LoopbackAddress, MinPort);
      networkInterfaces := NetworkInterfaces("", "");
      this.store := store;
      this.text := text;
    }

    /** Update: all four settings taken from `source`. */
    method Update(source: ProgramSettings)
      modifies this
      ensures Snapshot() == source
    {
      userName := source.userName;
      userPassword := source.userPassword;
      routerAddress := source.routerAddress;
      networkInterfaces := source.networkInterfaces;
    }

    /** OnSave: the six properties written in order, stopping at the first write that throws. */
    method OnSave(source: ProgramSettings) returns (o: Outcome)
      modifies store
      ensures Stored(store.entries, if o.Fail? then Some(o.error) else None)
        == WriteAll(old(store.entries), store.writeFault, SavedValues(source, text.format))
    {
      var writes := SavedValues(source, text.format);
      for k := 0 to |writes|
        invariant WriteAll(old(store.entries), store.writeFault, writes)
          == WriteAll(store.entries, store.writeFault, writes[k..])
      {
        o := store.SetValue(Collection, writes[k].0, writes[k].1);
        if o.Fail? {
          return;
        }
        assert writes[k..][1..] == writes[k + 1..];
      }
      o := Pass;
    }

    /** Save: the null guard, then OnSave and Update, a failure of either rethrown as a save fault. */
    method Save(source: Option<ProgramSettings>) returns (o: Outcome)
      modifies this, store
      ensures Saved(store.entries, o) == SaveSettings(old(store.entries), store.writeFault, source, text.format)
      ensures o.Pass? ==> Snapshot() == source.value
      ensures o.Fail? ==> Snapshot() == old(Snapshot())
    {
      if source.None? {
        return Fail(NullArgument("source"));
      }
      var written := OnSave(source.value);
      if written.Fail? {
        return Fail(SaveFault(written.error));
      }
      Update(source.value);
      o := Pass;
    }

    /** Load: OnLoad and Update, a failure rethrown as a load fault. */
    method Load() returns (o: Outcome)
      modifies this
      ensures OnLoad(store.entries, text.parse).Failure? ==>
        o == Fail(LoadFault(OnLoad(store.entries, text.parse).error)) && Snapshot() == old(Snapshot())
      ensures OnLoad(store.entries, text.parse).Success? ==>
        o == Pass && Snapshot() == OnLoad(store.entries, text.parse).value
    {
      var settings := OnLoad(store.entries, text.parse);
      if settings.Failure? {
        return Fail(LoadFault(settings.error));
      }
      Update(settings.value);
      o := Pass;
    }
  }

  // ---- what the settings item promises ----

  /** A property the store does not hold reads as "", 0 or no bytes. */
  lemma MissingPropertyReadsDefault(entries: Entries, propertyName: string)
    requires (Collection, propertyName) !in entries
    ensures GetStringValue(entries, propertyName) == Success("")
    ensures GetIntValue(entries, propertyName) == Success(0)
    ensures GetBytesValue(entries, propertyName) == Success([])
  {
  }

  /** An empty store loads the settings of a fresh item, except that the empty address text parses as IPAddress.None. */
  lemma EmptyStoreLoads(parse: string -> Option<IpAddress>)
    requires parse("").None?
    ensures OnLoad(map[], parse) == Success(DefaultSettings.(routerAddress := EndPoint(NoneAddress, 0)))
  {
  }

  /** A stored address text that does not parse loads as IPAddress.None, with the stored port. */
  lemma UnparsableAddressLoadsAsNone(entries: Entries, parse: string -> Option<IpAddress>, raw: string, port: int)
    requires (Collection, "Address") in entries && entries[(Collection, "Address")] == Str(raw) && parse(raw).None?
    requires (Collection, "Port") in entries && entries[(Collection, "Port")] == Int(port) && MinPort <= port <= MaxPort
    ensures GetRouterAddress(entries, parse) == Success(EndPoint(NoneAddress, port))
  {
  }

  /** A write sequence fails exactly when one of its properties' writes throws; the first one is reported. */
  lemma {:induction false} WriteFailsIffSomeWriteThrows(entries: Entries, writeFault: string -> Option<Exception>,
                                                        writes: seq<(string, StoreValue)>)
    ensures WriteAll(entries, writeFault, writes).error.Some? <==> exists k :: 0 <= k < |writes| && writeFault(writes[k].0).Some?
    ensures WriteAll(entries, writeFault, writes).error.Some? ==>
      exists k :: 0 <= k < |writes| && WriteAll(entries, writeFault, writes).error == writeFault(writes[k].0)
        && forall j :: 0 <= j < k ==> writeFault(writes[j].0).None?
    decreases |writes|
  {
    if writes != [] && writeFault(writes[0].0).None? {
      var next := entries[(Collection, writes[0].0) := writes[0].1];
      WriteFailsIffSomeWriteThrows(next, writeFault, writes[1..]);
      if WriteAll(next, writeFault, writes[1..]).error.Some? {
        var k :| 0 <= k < |writes[1..]| && WriteAll(next, writeFault, writes[1..]).error == writeFault(writes[1..][k].0)
          && forall j :: 0 <= j < k ==> writeFault(writes[1..][j].0).None?;
        assert writes[k + 1] == writes[1..][k];
        assert forall j :: 0 <= j < k + 1 ==> writeFault(writes[j].0).None? by {
          forall j | 0 <= j < k + 1
            ensures writeFault(writes[j].0).None?
          {
            if j > 0 {
              assert writes[j] == writes[1..][j - 1];
            }
          }
        }
      }
      if exists k :: 0 <= k < |writes| && writeFault(writes[k].0).Some? {
        var k :| 0 <= k < |writes| && writeFault(writes[k].0).Some?;
        assert k > 0;
        assert writes[1..][k - 1] == writes[k];
      }
    }
  }

  /** Six writes that succeed leave each property holding the value of its write. */
  lemma SavedStore(entries: Entries, writeFault: string -> Option<Exception>, source: ProgramSettings,
                   format: IpAddress -> string)
    requires forall k :: 0 <= k < 6 ==> writeFault(SavedValues(source, format)[k].0).None?
    ensures var e := WriteAll(entries, writeFault, SavedValues(source, format));
      && e.error.None?
      && (Collection, "UserName") in e.entries && (Collection, "UserPassword") in e.entries
      && (Collection, "Port") in e.entries && (Collection, "Address") in e.entries
      && (Collection, "PppoeInterface") in e.entries && (Collection, "EtherInterface") in e.entries
      && e.entries[(Collection, "UserName")] == Str(source.userName)
      && e.entries[(Collection, "UserPassword")] == Bytes(source.userPassword)
      && e.entries[(Collection, "Port")] == Int(source.routerAddress.port)
      && e.entries[(Collection, "Address")] == Str(format(source.routerAddress.address))
      && e.entries[(Collection, "PppoeInterface")] == Str(source.networkInterfaces.pppoeInterface)
      && e.entries[(Collection, "EtherInterface")] == Str(source.networkInterfaces.etherInterface)
  {
    var w := SavedValues(source, format);
    var e := entries;
    for k := 0 to 6
      invariant WriteAll(entries, writeFault, w) == WriteAll(e, writeFault, w[k..])
      invariant forall j :: 0 <= j < k ==> (Collection, w[j].0) in e && e[(Collection, w[j].0)] == w[j].1
    {
      assert w[k..][1..] == w[k + 1..];
      e := e[(Collection, w[k].0) := w[k].1];
    }
    assert w[6..] == [];
    assert w[0].0 == "UserName" && w[1].0 == "UserPassword" && w[2].0 == "Port";
    assert w[3].0 == "Address" && w[4].0 == "PppoeInterface" && w[5].0 == "EtherInterface";
  }

  /**
   * Saving and then loading gives back the saved settings, provided no write throws, the port is
   * a valid port and the address text parses back to the address.
   */
  lemma SaveThenLoad(entries: Entries, writeFault: string -> Option<Exception>, source: ProgramSettings, text: AddressText)
    requires forall k :: 0 <= k < 6 ==> writeFault(SavedValues(source, text.format)[k].0).None?
    requires MinPort <= source.routerAddress.port <= MaxPort
    requires text.parse(text.format(source.routerAddress.address)) == Some(source.routerAddress.address)
    ensures SaveSettings(entries, writeFault, Some(source), text.format).outcome == Pass
    ensures OnLoad(SaveSettings(entries, writeFault, Some(source), text.format).entries, text.parse) == Success(source)
  {
    SavedStore(entries, writeFault, source, text.format);
  }

  /** Save(null) throws before the store is touched. */
  lemma SaveNullTouchesNothing(entries: Entries, writeFault: string -> Option<Exception>, format: IpAddress -> string)
    ensures SaveSettings(entries, writeFault, None, format) == Saved(entries, Fail(NullArgument("source")))
  {
  }

  /** A failed save is one save fault around the exception of the first write that threw. */
  lemma SaveFaultWrapsWrite(entries: Entries, writeFault: string -> Option<Exception>, source: ProgramSettings,
                            format: IpAddress -> string)
    requires SaveSettings(entries, writeFault, Some(source), format).outcome.Fail?
    ensures SaveSettings(entries, writeFault, Some(source), format).outcome.error.kind == SettingsSaveLoadFault
    ensures exists k :: (0 <= k < 6 && SaveSettings(entries, writeFault, Some(source), format).outcome.error.inner
                                       == writeFault(SavedValues(source, format)[k].0))
  {
    WriteFailsIffSomeWriteThrows(entries, writeFault, SavedValues(source, format));
  }
}
