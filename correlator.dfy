/**
 * RouterStatusActionBase.GetInterfacesInfoAsync: reads Bridge/Hosts (interface -> client MAC),
 * IP/DHCP Server/Leases (MAC -> address and host name) and Interfaces, and joins them into one
 * RouterInterface record per interface row. PPPoE interfaces look up their own address instead.
 * CheckingModels, the row validation, is here as well.
 */
module Correlator {
  import opened Wrappers
  import opened Text
  import opened Errors
  import opened Api

  const HostsCommand := Command("/interface/bridge/host/print",
    [Word("=.proplist=mac-address,on-interface"), Word("?external=true")])
  const LeasesCommand := Command("/ip/dhcp-server/lease/print",
    [Word("=.proplist=address,mac-address,host-name")])
  const InterfacesCommand := Command("/interface/print", [Word("=.proplist=name,type,disabled")])

  function AddressesCommand(name: string): Command
  {
    Command("/ip/address/print", [Word("=.proplist=address"), Word("?interface=" + name)])
  }

  /** Stand-in for the resource text Strings.ItemHasAlreadyBeenAdded, formatted with the key. */
  function ItemHasAlreadyBeenAdded(key: string): string
  {
    "Элемент \"" + key + "\" уже был добавлен."
  }

  /** Stand-in for the resource text Strings.FailedGettingDataFromTable, formatted with the table and the cause. */
  function FailedGettingDataFromTable(table: string, message: string): string
  {
    "Данные из таблицы \"" + table + "\" не были получены.\r\nОшибка: " + message
  }

  /** The wrapper a failure while reading `table` is rethrown in. */
  function TableFailure(table: string, cause: Exception): Exception
  {
    Wrap(FailedGettingDataFromTable(table, cause.message), cause)
  }

  // ---- CheckingModels ----

  function MissingProperty(property: string, model: string): Exception
  {
    Invalid("Значение свойства \"" + property + "\" не задано. Модель: \"" + model + "\".")
  }

  /** `ThrowIfNull` for a string property: a null or white-space value is missing. */
  function CheckProperty(value: string, property: string, model: string): (r: Option<Exception>)
    ensures r.None? <==> !IsNullOrWhiteSpace(value)
    ensures r.Some? ==> r.value == MissingProperty(property, model)
  {
    if IsNullOrWhiteSpace(value) then Some(MissingProperty(property, model)) else None
  }

  /** The first failure of a sequence of checks. */
  function FirstOf(a: Option<Exception>, b: Option<Exception>): Option<Exception>
  {
    if a.Some? then a else b
  }

  function CheckHost(h: HostRow): Option<Exception>
  {
    FirstOf(CheckProperty(h.onInterface, "Interface", "HostModel"),
            CheckProperty(h.macAddress, "MacAddress", "HostModel"))
  }

  function CheckLease(l: LeaseRow): Option<Exception>
  {
    FirstOf(CheckProperty(l.macAddress, "MacAddress", "LeaseAddressModel"),
      FirstOf(CheckProperty(l.hostName, "HostName", "LeaseAddressModel"),
              CheckProperty(l.ipAddress, "IpAddress", "LeaseAddressModel")))
  }

  function CheckInterface(row: InterfaceRow): Option<Exception>
  {
    FirstOf(CheckProperty(row.name, "Name", "Interface"),
      FirstOf(CheckProperty(row.ifType, "Type", "Interface"),
              if row.disabled.None? then Some(MissingProperty("IsDisabled", "Interface")) else None))
  }

  function CheckAddress(a: AddressRow): Option<Exception>
  {
    CheckProperty(a.ipAddress, "IpAddress", "Address")
  }

  /** A host row passes CheckingModels iff both its properties are present; the interface is checked first. */
  lemma HostCheck(h: HostRow)
    ensures CheckHost(h).None? <==> !IsNullOrWhiteSpace(h.onInterface) && !IsNullOrWhiteSpace(h.macAddress)
    ensures IsNullOrWhiteSpace(h.onInterface) ==> CheckHost(h) == Some(MissingProperty("Interface", "HostModel"))
  {
  }

  /** A lease row passes iff all three properties are present; the MAC address is checked first. */
  lemma LeaseCheck(l: LeaseRow)
    ensures CheckLease(l).None? <==>
      !IsNullOrWhiteSpace(l.macAddress) && !IsNullOrWhiteSpace(l.hostName) && !IsNullOrWhiteSpace(l.ipAddress)
    ensures IsNullOrWhiteSpace(l.macAddress) ==> CheckLease(l) == Some(MissingProperty("MacAddress", "LeaseAddressModel"))
  {
  }

  /** An interface row passes iff its name and type are present and its disabled flag is not null. */
  lemma InterfaceCheck(row: InterfaceRow)
    ensures CheckInterface(row).None? <==>
      !IsNullOrWhiteSpace(row.name) && !IsNullOrWhiteSpace(row.ifType) && row.disabled.Some?
  {
  }

  // ---- Bridge/Hosts ----

  /** One host row added to the map: checked, then rejected if its interface is already a key. */
  function AddHost(hosts: map<string, string>, h: HostRow): Result<map<string, string>>
  {
    match CheckHost(h)
    case Some(e) => Failure(e)
    case None =>
      if h.onInterface in hosts then Failure(Invalid(ItemHasAlreadyBeenAdded(h.onInterface)))
      else Success(hosts[h.onInterface := h.macAddress])
  }

  /** The map after adding `rows` to `hosts` in order, or the first failure. */
  function HostsInto(hosts: map<string, string>, rows: seq<HostRow>): Result<map<string, string>>
    decreases |rows|
  {
    if rows == [] then Success(hosts)
    else
      match AddHost(hosts, rows[0])
      case Failure(e) => Failure(e)
      case Success(next) => HostsInto(next, rows[1..])
  }

  /** The host table read through to its end: its rows, then the enumeration's own failure. */
  function HostsTable(s: Stream<HostRow>): Result<map<string, string>>
  {
    match HostsInto(map[], s.rows)
    case Failure(e) => Failure(e)
    case Success(hosts) => if s.failure.Some? then Failure(s.failure.value) else Success(hosts)
  }

  /** Every row passes its check and names an interface that is neither in `hosts` nor on another row. */
  ghost predicate HostsAcceptable(hosts: map<string, string>, rows: seq<HostRow>)
  {
    && (forall i :: 0 <= i < |rows| ==> CheckHost(rows[i]).None? && rows[i].onInterface !in hosts)
    && (forall i, j :: 0 <= i < j < |rows| ==> rows[i].onInterface != rows[j].onInterface)
  }

  /** `result` is `hosts` extended with one entry per row: its interface maps to its MAC address. */
  ghost predicate HostsExtended(hosts: map<string, string>, rows: seq<HostRow>, result: map<string, string>)
  {
    && (forall k :: k in result <==> k in hosts || exists i :: 0 <= i < |rows| && rows[i].onInterface == k)
    && (forall k :: k in hosts ==> result[k] == hosts[k])
    && (forall i :: 0 <= i < |rows| ==> rows[i].onInterface in result && result[rows[i].onInterface] == rows[i].macAddress)
  }

  /** Accepting a good first row moves its interface into the map and leaves the rest to decide. */
  lemma HostsAcceptableStep(hosts: map<string, string>, rows: seq<HostRow>)
    requires rows != [] && CheckHost(rows[0]).None? && rows[0].onInterface !in hosts
    ensures HostsAcceptable(hosts, rows) <==>
      HostsAcceptable(hosts[rows[0].onInterface := rows[0].macAddress], rows[1..])
  {
    var next := hosts[rows[0].onInterface := rows[0].macAddress];
    var tail := rows[1..];
    if HostsAcceptable(next, tail) {
      forall i | 0 <= i < |rows| ensures CheckHost(rows[i]).None? && rows[i].onInterface !in hosts {
        if i > 0 { assert rows[i] == tail[i - 1]; }
      }
      forall i, j | 0 <= i < j < |rows| ensures rows[i].onInterface != rows[j].onInterface {
        if i > 0 { assert rows[i] == tail[i - 1] && rows[j] == tail[j - 1]; }
        else { assert rows[j] == tail[j - 1]; }
      }
    }
    if HostsAcceptable(hosts, rows) {
      forall i | 0 <= i < |tail| ensures CheckHost(tail[i]).None? && tail[i].onInterface !in next {
        assert tail[i] == rows[i + 1];
      }
      forall i, j | 0 <= i < j < |tail| ensures tail[i].onInterface != tail[j].onInterface {
        assert tail[i] == rows[i + 1] && tail[j] == rows[j + 1];
      }
    }
  }

  /** The host rows are accepted exactly when they are acceptable. */
  lemma {:induction false} HostsAccepted(hosts: map<string, string>, rows: seq<HostRow>)
    ensures HostsInto(hosts, rows).Success? <==> HostsAcceptable(hosts, rows)
    decreases |rows|
  {
    if rows != [] {
      if CheckHost(rows[0]).None? && rows[0].onInterface !in hosts {
        HostsAcceptableStep(hosts, rows);
        HostsAccepted(hosts[rows[0].onInterface := rows[0].macAddress], rows[1..]);
      }
    }
  }

  /** Accepted host rows all land in the map: each interface maps to the MAC address on its row. */
  lemma {:induction false} HostsMapped(hosts: map<string, string>, rows: seq<HostRow>)
    requires HostsInto(hosts, rows).Success?
    ensures HostsExtended(hosts, rows, HostsInto(hosts, rows).value)
    decreases |rows|
  {
    if rows != [] {
      var h := rows[0];
      var next := hosts[h.onInterface := h.macAddress];
      assert h.onInterface !in hosts && HostsInto(hosts, rows) == HostsInto(next, rows[1..]);
      HostsMapped(next, rows[1..]);
      HostsExtendedStep(hosts, rows, HostsInto(hosts, rows).value);
    }
  }

  /** A map that extends the first row's entry with the other rows extends the map before it with all of them. */
  lemma HostsExtendedStep(hosts: map<string, string>, rows: seq<HostRow>, result: map<string, string>)
    requires rows != [] && rows[0].onInterface !in hosts
    requires HostsExtended(hosts[rows[0].onInterface := rows[0].macAddress], rows[1..], result)
    ensures HostsExtended(hosts, rows, result)
  {
    var h, tail := rows[0], rows[1..];
    var next := hosts[h.onInterface := h.macAddress];
    forall k ensures k in result <==> k in hosts || exists i :: 0 <= i < |rows| && rows[i].onInterface == k {
      if k in result && k !in hosts && k != h.onInterface {
        var i :| 0 <= i < |tail| && tail[i].onInterface == k;
        assert rows[i + 1].onInterface == k;
      }
      if exists i :: 0 <= i < |rows| && rows[i].onInterface == k {
        var i :| 0 <= i < |rows| && rows[i].onInterface == k;
        if i > 0 { assert tail[i - 1].onInterface == k; }
      }
    }
    forall k | k in hosts ensures result[k] == hosts[k] {
      assert k in next && next[k] == hosts[k];
    }
    forall i | 0 <= i < |rows| ensures rows[i].onInterface in result && result[rows[i].onInterface] == rows[i].macAddress {
      if i > 0 { assert rows[i] == tail[i - 1]; }
      else { assert h.onInterface in next; }
    }
  }

  // ---- IP/DHCP Server/Leases ----

  /** What the lease table gives for one MAC address. */
  datatype Lease = Lease(ipAddress: string, hostName: string)

  /**
   * One lease row added to the map: checked, rejected when its MAC address is a key of the host
   * map (the guard consults `hosts`), then rejected by Dictionary.Add when the MAC is already there.
   */
  function AddLease(hosts: map<string, string>, leases: map<string, Lease>, l: LeaseRow): Result<map<string, Lease>>
  {
    match CheckLease(l)
    case Some(e) => Failure(e)
    case None =>
      if l.macAddress in hosts then Failure(Invalid(ItemHasAlreadyBeenAdded(l.macAddress)))
      else if l.macAddress in leases then Failure(DuplicateKey(l.macAddress))
      else Success(leases[l.macAddress := Lease(l.ipAddress, l.hostName)])
  }

  function LeasesInto(hosts: map<string, string>, leases: map<string, Lease>, rows: seq<LeaseRow>): Result<map<string, Lease>>
    decreases |rows|
  {
    if rows == [] then Success(leases)
    else
      match AddLease(hosts, leases, rows[0])
      case Failure(e) => Failure(e)
      case Success(next) => LeasesInto(hosts, next, rows[1..])
  }

  function LeasesTable(hosts: map<string, string>, s: Stream<LeaseRow>): Result<map<string, Lease>>
  {
    match LeasesInto(hosts, map[], s.rows)
    case Failure(e) => Failure(e)
    case Success(leases) => if s.failure.Some? then Failure(s.failure.value) else Success(leases)
  }

  ghost predicate LeasesAcceptable(hosts: map<string, string>, leases: map<string, Lease>, rows: seq<LeaseRow>)
  {
    && (forall i :: 0 <= i < |rows| ==>
          CheckLease(rows[i]).None? && rows[i].macAddress !in hosts && rows[i].macAddress !in leases)
    && (forall i, j :: 0 <= i < j < |rows| ==> rows[i].macAddress != rows[j].macAddress)
  }

  ghost predicate LeasesExtended(leases: map<string, Lease>, rows: seq<LeaseRow>, result: map<string, Lease>)
  {
    && (forall k :: k in result <==> k in leases || exists i :: 0 <= i < |rows| && rows[i].macAddress == k)
    && (forall k :: k in leases ==> result[k] == leases[k])
    && (forall i :: 0 <= i < |rows| ==>
          rows[i].macAddress in result && result[rows[i].macAddress] == Lease(rows[i].ipAddress, rows[i].hostName))
  }

  lemma LeasesAcceptableStep(hosts: map<string, string>, leases: map<string, Lease>, rows: seq<LeaseRow>)
    requires rows != [] && CheckLease(rows[0]).None?
    requires rows[0].macAddress !in hosts && rows[0].macAddress !in leases
    ensures LeasesAcceptable(hosts, leases, rows) <==>
      LeasesAcceptable(hosts, leases[rows[0].macAddress := Lease(rows[0].ipAddress, rows[0].hostName)], rows[1..])
  {
    var next := leases[rows[0].macAddress := Lease(rows[0].ipAddress, rows[0].hostName)];
    var tail := rows[1..];
    if LeasesAcceptable(hosts, next, tail) {
      forall i | 0 <= i < |rows|
        ensures CheckLease(rows[i]).None? && rows[i].macAddress !in hosts && rows[i].macAddress !in leases
      {
        if i > 0 { assert rows[i] == tail[i - 1]; }
      }
      forall i, j | 0 <= i < j < |rows| ensures rows[i].macAddress != rows[j].macAddress {
        if i > 0 { assert rows[i] == tail[i - 1] && rows[j] == tail[j - 1]; }
        else { assert rows[j] == tail[j - 1]; }
      }
    }
    if LeasesAcceptable(hosts, leases, rows) {
      forall i | 0 <= i < |tail|
        ensures CheckLease(tail[i]).None? && tail[i].macAddress !in hosts && tail[i].macAddress !in next
      {
        assert tail[i] == rows[i + 1];
      }
      forall i, j | 0 <= i < j < |tail| ensures tail[i].macAddress != tail[j].macAddress {
        assert tail[i] == rows[i + 1] && tail[j] == rows[j + 1];
      }
    }
  }

  /**
   * The lease rows are accepted exactly when each passes its check, no MAC address is a key of
   * the host map, none is already a lease and none repeats.
   */
  lemma {:induction false} LeasesAccepted(hosts: map<string, string>, leases: map<string, Lease>, rows: seq<LeaseRow>)
    ensures LeasesInto(hosts, leases, rows).Success? <==> LeasesAcceptable(hosts, leases, rows)
    decreases |rows|
  {
    if rows != [] {
      var l := rows[0];
      if CheckLease(l).None? && l.macAddress !in hosts && l.macAddress !in leases {
        LeasesAcceptableStep(hosts, leases, rows);
        LeasesAccepted(hosts, leases[l.macAddress := Lease(l.ipAddress, l.hostName)], rows[1..]);
      }
    }
  }

  /** Accepted lease rows all land in the map: each MAC address maps to the address and host name on its row. */
  lemma {:induction false} LeasesMapped(hosts: map<string, string>, leases: map<string, Lease>, rows: seq<LeaseRow>)
    requires LeasesInto(hosts, leases, rows).Success?
    ensures LeasesExtended(leases, rows, LeasesInto(hosts, leases, rows).value)
    decreases |rows|
  {
    if rows != [] {
      var l := rows[0];
      var next := leases[l.macAddress := Lease(l.ipAddress, l.hostName)];
      assert l.macAddress !in leases && LeasesInto(hosts, leases, rows) == LeasesInto(hosts, next, rows[1..]);
      LeasesMapped(hosts, next, rows[1..]);
      LeasesExtendedStep(leases, rows, LeasesInto(hosts, leases, rows).value);
    }
  }

  /** A map that extends the first row's entry with the other rows extends the map before it with all of them. */
  lemma LeasesExtendedStep(leases: map<string, Lease>, rows: seq<LeaseRow>, result: map<string, Lease>)
    requires rows != [] && rows[0].macAddress !in leases
    requires LeasesExtended(leases[rows[0].macAddress := Lease(rows[0].ipAddress, rows[0].hostName)], rows[1..], result)
    ensures LeasesExtended(leases, rows, result)
  {
    var l, tail := rows[0], rows[1..];
    var next := leases[l.macAddress := Lease(l.ipAddress, l.hostName)];
    forall k ensures k in result <==> k in leases || exists i :: 0 <= i < |rows| && rows[i].macAddress == k {
      if k in result && k !in leases && k != l.macAddress {
        var i :| 0 <= i < |tail| && tail[i].macAddress == k;
        assert rows[i + 1].macAddress == k;
      }
      if exists i :: 0 <= i < |rows| && rows[i].macAddress == k {
        var i :| 0 <= i < |rows| && rows[i].macAddress == k;
        if i > 0 { assert tail[i - 1].macAddress == k; }
      }
    }
    forall k | k in leases ensures result[k] == leases[k] {
      assert k in next && next[k] == leases[k];
    }
    forall i | 0 <= i < |rows|
      ensures rows[i].macAddress in result && result[rows[i].macAddress] == Lease(rows[i].ipAddress, rows[i].hostName)
    {
      if i > 0 { assert rows[i] == tail[i - 1]; }
      else { assert l.macAddress in next; }
    }
  }

  // ---- Interfaces ----

  /** A record with no client. */
  function Bare(isEnabled: bool, name: string): RouterInterface
  {
    RouterInterface(isEnabled, name, "", "", "")
  }

  /** The address switch for an enabled PPPoE interface: no address, exactly one, or too many. */
  function PppoeAddress(name: string, addresses: seq<AddressRow>): Result<RouterInterface>
  {
    if |addresses| == 0 then Success(Bare(true, name))
    else if |addresses| == 1 then
      match CheckAddress(addresses[0])
      case Some(e) => Failure(e)
      case None =>
        var parts := SplitNonEmpty(addresses[0].ipAddress, '/');
        if |parts| != 2 then Failure(Invalid("Неверный формат строки."))
        else Success(RouterInterface(true, name, "", "", parts[0]))
    else Failure(Invalid("Неверный ответ API."))
  }

  /** The PPPoE branch for an enabled interface, with its two wrappers. */
  function PppoeRecord(name: string, answer: Result<seq<AddressRow>>): Result<RouterInterface>
  {
    match answer
    case Failure(e) => Failure(Wrap("Команда не была выполнена.", e))
    case Success(addresses) =>
      match PppoeAddress(name, addresses)
      case Failure(e) => Failure(Wrap("IP-адрес для PPPoE интерфейса \"" + name + "\" не был получен.", e))
      case Success(record) => Success(record)
  }

  predicate IsPppoe(row: InterfaceRow)
  {
    EqualsIgnoreCase(row.ifType, "pppoe-out")
  }

  /** The record for one interface row, or the failure that ends the walk. */
  function InterfaceRecord(hosts: map<string, string>, leases: map<string, Lease>, t: RouterTables, row: InterfaceRow)
    : (f: Fetched<RouterInterface>)
    ensures f.result.Success? ==>
      (CheckInterface(row).None? && row.disabled.Some?
       && f.result.value.name == row.name && f.result.value.isEnabled == !row.disabled.value)
    ensures f.events != [] ==> IsPppoe(row) && row.disabled == Some(false) && f.events == [Query(AddressesCommand(row.name))]
  {
    match CheckInterface(row)
    case Some(e) => Fetched([], Failure(e))
    case None =>
      var isEnabled := !row.disabled.value;
      if IsPppoe(row) then
        if isEnabled then Fetched([Query(AddressesCommand(row.name))], PppoeRecord(row.name, t.addresses(row.name)))
        else Fetched([], Success(Bare(false, row.name)))
      else if row.name !in hosts then Fetched([], Success(Bare(isEnabled, row.name)))
      else if hosts[row.name] !in leases then
        Fetched([], Success(RouterInterface(isEnabled, row.name, hosts[row.name], "", "")))
      else
        var lease := leases[hosts[row.name]];
        Fetched([], Success(RouterInterface(isEnabled, row.name, hosts[row.name], lease.hostName, lease.ipAddress)))
  }

  /** The walk over the interface rows, after `events` and `records` so far. */
  function RecordsInto(hosts: map<string, string>, leases: map<string, Lease>, t: RouterTables,
                       events: seq<Event>, records: seq<RouterInterface>, rows: seq<InterfaceRow>)
    : Fetched<seq<RouterInterface>>
    decreases |rows|
  {
    if rows == [] then Fetched(events, Success(records))
    else
      var step := InterfaceRecord(hosts, leases, t, rows[0]);
      if step.result.Failure? then Fetched(events + step.events, Failure(step.result.error))
      else RecordsInto(hosts, leases, t, events + step.events, records + [step.result.value], rows[1..])
  }

  /** The whole correlation over what the tables answer. */
  function Correlate(t: RouterTables): Fetched<seq<RouterInterface>>
  {
    match HostsTable(t.hosts)
    case Failure(e) => Fetched([Query(HostsCommand)], Failure(TableFailure("Bridge/Hosts", e)))
    case Success(hosts) =>
      match LeasesTable(hosts, t.leases)
      case Failure(e) => Fetched([Query(HostsCommand), Query(LeasesCommand)], Failure(TableFailure("IP/DHCP Server/Leases", e)))
      case Success(leases) =>
        var head := [Query(HostsCommand), Query(LeasesCommand), Query(InterfacesCommand)];
        match t.interfaces
        case Failure(e) => Fetched(head, Failure(TableFailure("Interfaces", e)))
        case Success(rows) =>
          var walk := RecordsInto(hosts, leases, t, head, [], rows);
          match walk.result
          case Failure(e) => Fetched(walk.events, Failure(TableFailure("Interfaces", e)))
          case Success(records) => walk
  }

  /** The first try block of GetInterfacesInfoAsync: the host map filled row by row. */
  method FillHosts(s: Stream<HostRow>) returns (r: Result<map<string, string>>)
    ensures r == HostsTable(s)
  {
    var hosts: map<string, string> := map[];
    var i := 0;
    while i < |s.rows|
      invariant 0 <= i <= |s.rows|
      invariant HostsInto(hosts, s.rows[i..]) == HostsInto(map[], s.rows)
    {
      var host := s.rows[i];
      assert s.rows[i..][0] == host && s.rows[i..][1..] == s.rows[i + 1..];
      var check := CheckHost(host);
      if check.Some? {
        return Failure(check.value);
      }
      if host.onInterface in hosts {
        return Failure(Invalid(ItemHasAlreadyBeenAdded(host.onInterface)));
      }
      hosts := hosts[host.onInterface := host.macAddress];
      i := i + 1;
    }
    if s.failure.Some? {
      return Failure(s.failure.value);
    }
    return Success(hosts);
  }

  /** The second try block: the lease map filled row by row, guarded by the host map. */
  method FillLeases(hosts: map<string, string>, s: Stream<LeaseRow>) returns (r: Result<map<string, Lease>>)
    ensures r == LeasesTable(hosts, s)
  {
    var leases: map<string, Lease> := map[];
    var i := 0;
    while i < |s.rows|
      invariant 0 <= i <= |s.rows|
      invariant LeasesInto(hosts, leases, s.rows[i..]) == LeasesInto(hosts, map[], s.rows)
    {
      var lease := s.rows[i];
      assert s.rows[i..][0] == lease && s.rows[i..][1..] == s.rows[i + 1..];
      var check := CheckLease(lease);
      if check.Some? {
        return Failure(check.value);
      }
      if lease.macAddress in hosts {
        return Failure(Invalid(ItemHasAlreadyBeenAdded(lease.macAddress)));
      }
      if lease.macAddress in leases {
        return Failure(DuplicateKey(lease.macAddress));
      }
      leases := leases[lease.macAddress := Lease(lease.ipAddress, lease.hostName)];
      i := i + 1;
    }
    if s.failure.Some? {
      return Failure(s.failure.value);
    }
    return Success(leases);
  }

  /** One step of the walk, with the record for the first row given by name. */
  lemma RecordsStep(hosts: map<string, string>, leases: map<string, Lease>, t: RouterTables,
                    events: seq<Event>, records: seq<RouterInterface>, rows: seq<InterfaceRow>, step: Fetched<RouterInterface>)
    requires rows != [] && step == InterfaceRecord(hosts, leases, t, rows[0])
    ensures step.result.Failure? ==>
      RecordsInto(hosts, leases, t, events, records, rows) == Fetched(events + step.events, Failure(step.result.error))
    ensures step.result.Success? ==>
      RecordsInto(hosts, leases, t, events, records, rows)
        == RecordsInto(hosts, leases, t, events + step.events, records + [step.result.value], rows[1..])
  {
  }

  /** The walk of the third try block: one record appended per interface row. */
  method WalkInterfaces(hosts: map<string, string>, leases: map<string, Lease>, t: RouterTables,
                        head: seq<Event>, rows: seq<InterfaceRow>)
    returns (events: seq<Event>, r: Result<seq<RouterInterface>>)
    ensures Fetched(events, r) == RecordsInto(hosts, leases, t, head, [], rows)
  {
    events := head;
    var records: seq<RouterInterface> := [];
    var i := 0;
    while i < |rows|
      invariant 0 <= i <= |rows|
      invariant RecordsInto(hosts, leases, t, events, records, rows[i..]) == RecordsInto(hosts, leases, t, head, [], rows)
    {
      var step := InterfaceRecord(hosts, leases, t, rows[i]);
      RecordsStep(hosts, leases, t, events, records, rows[i..], step);
      assert rows[i..][1..] == rows[i + 1..];
      events := events + step.events;
      if step.result.Failure? {
        return events, Failure(step.result.error);
      }
      records := records + [step.result.value];
      i := i + 1;
    }
    return events, Success(records);
  }

  /**
   * GetInterfacesInfoAsync: the host map, then the lease map, then the walk over the interface
   * list; a failure in each part is rethrown wrapped with the name of its table.
   */
  method GetInterfacesInfo(t: RouterTables) returns (events: seq<Event>, r: Result<seq<RouterInterface>>)
    ensures Fetched(events, r) == Correlate(t)
  {
    events := [Query(HostsCommand)];
    var hosts := FillHosts(t.hosts);
    if hosts.Failure? {
      return events, Failure(TableFailure("Bridge/Hosts", hosts.error));
    }
    events := events + [Query(LeasesCommand)];
    var leases := FillLeases(hosts.value, t.leases);
    if leases.Failure? {
      return events, Failure(TableFailure("IP/DHCP Server/Leases", leases.error));
    }
    events := events + [Query(InterfacesCommand)];
    if t.interfaces.Failure? {
      return events, Failure(TableFailure("Interfaces", t.interfaces.error));
    }
    assert events == [Query(HostsCommand), Query(LeasesCommand), Query(InterfacesCommand)];
    events, r := WalkInterfaces(hosts.value, leases.value, t, events, t.interfaces.value);
    if r.Failure? {
      r := Failure(TableFailure("Interfaces", r.error));
    }
  }

  // ---- what the correlation promises ----

  /** Two host rows naming the same interface end the correlation at Bridge/Hosts: no other table is read. */
  lemma DuplicateHostStops(t: RouterTables, i: nat, j: nat)
    requires i < j < |t.hosts.rows| && t.hosts.rows[i].onInterface == t.hosts.rows[j].onInterface
    ensures Correlate(t).events == [Query(HostsCommand)]
    ensures Correlate(t).result.Failure?
    ensures Correlate(t).result.error.message == FailedGettingDataFromTable("Bridge/Hosts", Correlate(t).result.error.inner.value.message)
  {
    HostsAccepted(map[], t.hosts.rows);
  }

  /**
   * A lease whose MAC address equals the interface name of a host row is rejected, as is a MAC
   * address on two lease rows: the correlation ends at IP/DHCP Server/Leases.
   */
  lemma LeaseRejectionStops(t: RouterTables)
    requires HostsTable(t.hosts).Success?
    requires || (exists i, j :: 0 <= i < |t.leases.rows| && 0 <= j < |t.hosts.rows| &&
                   t.leases.rows[i].macAddress == t.hosts.rows[j].onInterface)
             || (exists i, j :: 0 <= i < j < |t.leases.rows| && t.leases.rows[i].macAddress == t.leases.rows[j].macAddress)
    ensures Correlate(t).events == [Query(HostsCommand), Query(LeasesCommand)]
    ensures Correlate(t).result.Failure?
    ensures Correlate(t).result.error.message
      == FailedGettingDataFromTable("IP/DHCP Server/Leases", Correlate(t).result.error.inner.value.message)
  {
    var hosts := HostsTable(t.hosts).value;
    HostsMapped(map[], t.hosts.rows);
    LeasesRejected(hosts, t.hosts.rows, t.leases.rows);
    assert LeasesTable(hosts, t.leases).Failure?;
  }

  /** Lease rows that reuse a MAC address, or use a host row's interface name as one, are refused. */
  lemma LeasesRejected(hosts: map<string, string>, hostRows: seq<HostRow>, rows: seq<LeaseRow>)
    requires forall j :: 0 <= j < |hostRows| ==> hostRows[j].onInterface in hosts
    requires || (exists i, j :: 0 <= i < |rows| && 0 <= j < |hostRows| && rows[i].macAddress == hostRows[j].onInterface)
             || (exists i, j :: 0 <= i < j < |rows| && rows[i].macAddress == rows[j].macAddress)
    ensures LeasesInto(hosts, map[], rows).Failure?
  {
    LeasesAccepted(hosts, map[], rows);
    if exists i, j :: 0 <= i < |rows| && 0 <= j < |hostRows| && rows[i].macAddress == hostRows[j].onInterface {
      var i, j :| 0 <= i < |rows| && 0 <= j < |hostRows| && rows[i].macAddress == hostRows[j].onInterface;
      assert rows[i].macAddress in hosts;
    }
  }

  /** The walk's records: the ones before it, then one per row, each the record of its row. */
  lemma RecordsShape(hosts: map<string, string>, leases: map<string, Lease>, t: RouterTables,
                     events: seq<Event>, records: seq<RouterInterface>, rows: seq<InterfaceRow>)
    requires RecordsInto(hosts, leases, t, events, records, rows).result.Success?
    ensures var out := RecordsInto(hosts, leases, t, events, records, rows).result.value;
      && |out| == |records| + |rows|
      && out[..|records|] == records
      && forall i :: 0 <= i < |rows| ==> InterfaceRecord(hosts, leases, t, rows[i]).result == Success(out[|records| + i])
  {
    RecordsPrefix(hosts, leases, t, events, records, rows);
    forall i | 0 <= i < |rows|
      ensures InterfaceRecord(hosts, leases, t, rows[i]).result
        == Success(RecordsInto(hosts, leases, t, events, records, rows).result.value[|records| + i])
    {
      RecordsEach(hosts, leases, t, events, records, rows, i);
    }
  }

  /** The walk keeps the records before it and adds one per row. */
  lemma {:induction false} RecordsPrefix(hosts: map<string, string>, leases: map<string, Lease>, t: RouterTables,
                                         events: seq<Event>, records: seq<RouterInterface>, rows: seq<InterfaceRow>)
    requires RecordsInto(hosts, leases, t, events, records, rows).result.Success?
    ensures var out := RecordsInto(hosts, leases, t, events, records, rows).result.value;
      |out| == |records| + |rows| && out[..|records|] == records
    decreases |rows|
  {
    if rows != [] {
      var step := InterfaceRecord(hosts, leases, t, rows[0]);
      RecordsStep(hosts, leases, t, events, records, rows, step);
      var grown := records + [step.result.value];
      var out := RecordsInto(hosts, leases, t, events, records, rows).result.value;
      RecordsPrefix(hosts, leases, t, events + step.events, grown, rows[1..]);
      assert out[..|records|] == grown[..|records|];
    }
  }

  /** The record at position `i` of the walk's own records is the record of row `i`. */
  lemma {:induction false} RecordsEach(hosts: map<string, string>, leases: map<string, Lease>, t: RouterTables,
                                       events: seq<Event>, records: seq<RouterInterface>, rows: seq<InterfaceRow>, i: nat)
    requires RecordsInto(hosts, leases, t, events, records, rows).result.Success?
    requires i < |rows|
    ensures |RecordsInto(hosts, leases, t, events, records, rows).result.value| == |records| + |rows|
    ensures InterfaceRecord(hosts, leases, t, rows[i]).result
      == Success(RecordsInto(hosts, leases, t, events, records, rows).result.value[|records| + i])
    decreases i
  {
    var step := InterfaceRecord(hosts, leases, t, rows[0]);
    RecordsStep(hosts, leases, t, events, records, rows, step);
    var grown := records + [step.result.value];
    RecordsPrefix(hosts, leases, t, events + step.events, grown, rows[1..]);
    if i == 0 {
      RecordsFirst(RecordsInto(hosts, leases, t, events, records, rows).result.value, records, step.result.value);
    } else {
      RecordsEach(hosts, leases, t, events + step.events, grown, rows[1..], i - 1);
      assert rows[1..][i - 1] == rows[i];
    }
  }

  /** A list that starts with `records + [record]` holds `record` right after `records`. */
  lemma RecordsFirst(out: seq<RouterInterface>, records: seq<RouterInterface>, record: RouterInterface)
    requires |out| > |records| && out[..|records| + 1] == records + [record]
    ensures out[|records|] == record
  {
    assert out[|records|] == out[..|records| + 1][|records|];
  }

  /**
   * A successful correlation has exactly one record per interface row, in list order: the record
   * of that row, carrying its name and the negation of its disabled flag.
   */
  lemma OneRecordPerInterface(t: RouterTables)
    requires Correlate(t).result.Success?
    ensures HostsTable(t.hosts).Success? && LeasesTable(HostsTable(t.hosts).value, t.leases).Success?
    ensures t.interfaces.Success? && |Correlate(t).result.value| == |t.interfaces.value|
    ensures forall i :: 0 <= i < |t.interfaces.value| ==>
      && Correlate(t).result.value[i].name == t.interfaces.value[i].name
      && t.interfaces.value[i].disabled.Some?
      && Correlate(t).result.value[i].isEnabled == !t.interfaces.value[i].disabled.value
      && InterfaceRecord(HostsTable(t.hosts).value, LeasesTable(HostsTable(t.hosts).value, t.leases).value, t,
                         t.interfaces.value[i]).result == Success(Correlate(t).result.value[i])
  {
    var hosts := HostsTable(t.hosts).value;
    var leases := LeasesTable(hosts, t.leases).value;
    var head := [Query(HostsCommand), Query(LeasesCommand), Query(InterfacesCommand)];
    RecordsShape(hosts, leases, t, head, [], t.interfaces.value);
  }

  /**
   * The join for an interface that is not PPPoE: a host row on that interface whose MAC address
   * has a lease gives a record with that MAC address and the lease's host name and address.
   */
  lemma JoinedRecord(t: RouterTables, i: nat, j: nat, k: nat)
    requires Correlate(t).result.Success?
    requires t.interfaces.Success? && i < |t.interfaces.value| && !IsPppoe(t.interfaces.value[i])
    requires j < |t.hosts.rows| && t.hosts.rows[j].onInterface == t.interfaces.value[i].name
    requires k < |t.leases.rows| && t.leases.rows[k].macAddress == t.hosts.rows[j].macAddress
    ensures t.interfaces.value[i].disabled.Some?
    ensures i < |Correlate(t).result.value|
    ensures Correlate(t).result.value[i] == RouterInterface(!t.interfaces.value[i].disabled.value,
      t.interfaces.value[i].name, t.hosts.rows[j].macAddress, t.leases.rows[k].hostName, t.leases.rows[k].ipAddress)
  {
    OneRecordPerInterface(t);
    HostsMapped(map[], t.hosts.rows);
    LeasesMapped(HostsTable(t.hosts).value, map[], t.leases.rows);
  }

  /** A host row on the interface whose MAC address has no lease gives a record with the MAC address only. */
  lemma HostOnlyRecord(t: RouterTables, i: nat, j: nat)
    requires Correlate(t).result.Success?
    requires t.interfaces.Success? && i < |t.interfaces.value| && !IsPppoe(t.interfaces.value[i])
    requires j < |t.hosts.rows| && t.hosts.rows[j].onInterface == t.interfaces.value[i].name
    requires forall k :: 0 <= k < |t.leases.rows| ==> t.leases.rows[k].macAddress != t.hosts.rows[j].macAddress
    ensures t.interfaces.value[i].disabled.Some?
    ensures i < |Correlate(t).result.value|
    ensures Correlate(t).result.value[i] ==
      RouterInterface(!t.interfaces.value[i].disabled.value, t.interfaces.value[i].name, t.hosts.rows[j].macAddress, "", "")
  {
    OneRecordPerInterface(t);
    HostsMapped(map[], t.hosts.rows);
    LeasesMapped(HostsTable(t.hosts).value, map[], t.leases.rows);
  }

  /** An interface with no host row gives a record with no client. */
  lemma NoHostRecord(t: RouterTables, i: nat)
    requires Correlate(t).result.Success?
    requires t.interfaces.Success? && i < |t.interfaces.value| && !IsPppoe(t.interfaces.value[i])
    requires forall j :: 0 <= j < |t.hosts.rows| ==> t.hosts.rows[j].onInterface != t.interfaces.value[i].name
    ensures t.interfaces.value[i].disabled.Some?
    ensures i < |Correlate(t).result.value|
    ensures Correlate(t).result.value[i] == Bare(!t.interfaces.value[i].disabled.value, t.interfaces.value[i].name)
  {
    OneRecordPerInterface(t);
    HostsMapped(map[], t.hosts.rows);
  }

  /**
   * The PPPoE branch: a disabled interface gives a bare record without a query; an enabled one
   * queries its addresses and gives a bare record for none, the text before the first '/' of a
   * well-formed single address, and an error for more than one.
   */
  lemma PppoeBranches(hosts: map<string, string>, leases: map<string, Lease>, t: RouterTables, row: InterfaceRow)
    requires CheckInterface(row).None? && IsPppoe(row)
    ensures row.disabled == Some(true) ==>
      InterfaceRecord(hosts, leases, t, row) == Fetched([], Success(Bare(false, row.name)))
    ensures row.disabled == Some(false) ==>
      InterfaceRecord(hosts, leases, t, row).events == [Query(AddressesCommand(row.name))]
    ensures row.disabled == Some(false) && t.addresses(row.name) == Success([]) ==>
      InterfaceRecord(hosts, leases, t, row).result == Success(Bare(true, row.name))
    ensures row.disabled == Some(false) && t.addresses(row.name).Success? && |t.addresses(row.name).value| > 1 ==>
      InterfaceRecord(hosts, leases, t, row).result ==
        Failure(Wrap("IP-адрес для PPPoE интерфейса \"" + row.name + "\" не был получен.", Invalid("Неверный ответ API.")))
    ensures row.disabled == Some(false) && t.addresses(row.name).Failure? ==>
      InterfaceRecord(hosts, leases, t, row).result == Failure(Wrap("Команда не была выполнена.", t.addresses(row.name).error))
  {
  }

  /**
   * A single PPPoE address: a blank one fails the address check, one that does not split on '/'
   * into exactly two non-empty parts is a format error, and otherwise the record takes the first
   * part, which is the text before the first '/' when the address does not start with one.
   * Both failures are wrapped with the interface's name.
   */
  lemma PppoeSingleAddress(hosts: map<string, string>, leases: map<string, Lease>, t: RouterTables, row: InterfaceRow, a: string)
    requires CheckInterface(row).None? && IsPppoe(row) && row.disabled == Some(false)
    requires t.addresses(row.name) == Success([AddressRow(a)])
    ensures IsNullOrWhiteSpace(a) ==>
      InterfaceRecord(hosts, leases, t, row).result
        == Failure(Wrap("IP-адрес для PPPoE интерфейса \"" + row.name + "\" не был получен.", MissingProperty("IpAddress", "Address")))
    ensures !IsNullOrWhiteSpace(a) && |SplitNonEmpty(a, '/')| != 2 ==>
      InterfaceRecord(hosts, leases, t, row).result
        == Failure(Wrap("IP-адрес для PPPoE интерфейса \"" + row.name + "\" не был получен.", Invalid("Неверный формат строки.")))
    ensures !IsNullOrWhiteSpace(a) && |SplitNonEmpty(a, '/')| == 2 ==>
      InterfaceRecord(hosts, leases, t, row).result == Success(RouterInterface(true, row.name, "", "", SplitNonEmpty(a, '/')[0]))
    ensures !IsNullOrWhiteSpace(a) && |SplitNonEmpty(a, '/')| == 2 && a[0] != '/' ==>
      SplitNonEmpty(a, '/')[0] == a[..IndexOf(a, '/')]
  {
    if !IsNullOrWhiteSpace(a) && a[0] != '/' {
      FirstPart(a, '/');
    }
  }
}
