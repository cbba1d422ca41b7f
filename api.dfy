/**
 * The RouterOS API as the program sees it: commands it sends, the sentences and table rows it
 * gets back, and the observable trace of one session. The router itself is an oracle: every
 * answer it can give is a field of `Router`.
 */
module Api {
  import opened Wrappers
  import opened Errors
  import opened Settings

  /** One word of an API command: `AddParameter(word)` or `AddParameter(name, value)`. */
  datatype Parameter = Word(text: string) | Pair(name: string, value: string)

  /** `ApiCommand.New(name)...Build()`. */
  datatype Command = Command(name: string, parameters: seq<Parameter>)

  /** A reply sentence: the `!done` sentence or any other one (its type name and its text). */
  datatype Sentence = Done | Other(typeName: string, text: string)

  /** A row of Bridge/Hosts (HostModel); a property the router leaves out reads as "". */
  datatype HostRow = HostRow(onInterface: string, macAddress: string)

  /** A row of IP/DHCP Server/Leases (LeaseAddressModel). */
  datatype LeaseRow = LeaseRow(ipAddress: string, macAddress: string, hostName: string)

  /** A row of Interfaces; `disabled` is a nullable flag. */
  datatype InterfaceRow = InterfaceRow(name: string, ifType: string, disabled: Option<bool>)

  /** A row of IP/Addresses (Address). */
  datatype AddressRow = AddressRow(ipAddress: string)

  /** An asynchronous enumeration: the rows it yields, then possibly the exception that ends it. */
  datatype Stream<T> = Stream(rows: seq<T>, failure: Option<Exception>)

  /** What the router's tables answer at one moment. */
  datatype RouterTables = RouterTables(
    hosts: Stream<HostRow>,
    leases: Stream<LeaseRow>,
    interfaces: Result<seq<InterfaceRow>>,
    addresses: string -> Result<seq<AddressRow>>)   // `/ip/address/print ?interface=<name>`

  /** IRouterInterface: one interface with the client behind it. */
  datatype RouterInterface = RouterInterface(
    isEnabled: bool,
    name: string,
    clientMacAddress: string,
    clientName: string,
    clientIpAddress: string)

  /**
   * The router and the API factory behind one session. Each field is the answer to one call;
   * `poll(k)` is what the tables answer when they are read for the k-th time in the session.
   */
  datatype Router = Router(
    createConnection: EndPoint -> Option<Exception>,
    connect: Option<Exception>,
    authenticate: (string, string) -> Option<Exception>,
    execute: Command -> Result<Sentence>,
    list: Command -> Result<seq<InterfaceRow>>,
    poll: nat -> RouterTables,
    quit: Option<Exception>)

  /** IReadOnlyCredentialService.DecryptPassword. */
  datatype Credentials = Credentials(decrypt: seq<byte> -> Result<string>)

  /** A cancellation token: the loop sees it set from its `requestedAt`-th check on. */
  datatype CancellationToken = CancellationToken(requestedAt: nat)

  predicate IsCancellationRequested(token: CancellationToken, check: nat)
  {
    check >= token.requestedAt
  }

  /** What a session visibly does, in order. */
  datatype Event =
    | Report(message: string)             // progress?.Report(message)
    | CreateConnection(address: EndPoint) // IApiFactory.CreateConnection
    | Connect
    | Authenticate(userName: string, password: string)
    | Execute(command: Command)           // IRouterApi.ExecuteCommandAsync
    | Query(command: Command)             // a query that returns rows
    | Updated(batch: seq<RouterInterface>) // the UpdatingData event
    | Quit
    | Dispose

  /** What a step of a session did, in order, and what it produced or threw. */
  datatype Fetched<T> = Fetched(events: seq<Event>, result: Result<T>)

  /** `progress?.Report(message)`: nothing happens without a sink. */
  function Progress(hasSink: bool, message: string): (events: seq<Event>)
    ensures hasSink ==> events == [Report(message)]
    ensures !hasSink ==> events == []
  {
    if hasSink then [Report(message)] else []
  }

  /** The events that are calls into the router, with reports and notifications dropped. */
  function Calls(events: seq<Event>): seq<Event>
  {
    if events == [] then []
    else
      var rest := Calls(events[1..]);
      if events[0].Report? || events[0].Updated? then rest else [events[0]] + rest
  }

  /** The progress messages among the events, in order. */
  function Messages(events: seq<Event>): seq<string>
  {
    if events == [] then []
    else
      var rest := Messages(events[1..]);
      if events[0].Report? then [events[0].message] + rest else rest
  }

  /** The notification batches among the events, in order. */
  function Batches(events: seq<Event>): seq<seq<RouterInterface>>
  {
    if events == [] then []
    else
      var rest := Batches(events[1..]);
      if events[0].Updated? then [events[0].batch] + rest else rest
  }

  /** What a single event contributes to each projection. */
  lemma Single(e: Event)
    ensures Calls([e]) == (if e.Report? || e.Updated? then [] else [e])
    ensures Messages([e]) == (if e.Report? then [e.message] else [])
    ensures Batches([e]) == (if e.Updated? then [e.batch] else [])
  {
    assert [e][1..] == [];
  }

  lemma {:induction false} CallsAppend(a: seq<Event>, b: seq<Event>)
    ensures Calls(a + b) == Calls(a) + Calls(b)
  {
    if a != [] {
      assert (a + b)[1..] == a[1..] + b;
      CallsAppend(a[1..], b);
    } else {
      assert a + b == b;
    }
  }

  lemma {:induction false} MessagesAppend(a: seq<Event>, b: seq<Event>)
    ensures Messages(a + b) == Messages(a) + Messages(b)
  {
    if a != [] {
      assert (a + b)[1..] == a[1..] + b;
      MessagesAppend(a[1..], b);
    } else {
      assert a + b == b;
    }
  }

  lemma {:induction false} BatchesAppend(a: seq<Event>, b: seq<Event>)
    ensures Batches(a + b) == Batches(a) + Batches(b)
  {
    if a != [] {
      assert (a + b)[1..] == a[1..] + b;
      BatchesAppend(a[1..], b);
    } else {
      assert a + b == b;
    }
  }

  /** The projections of four consecutive parts are the parts' projections, in order. */
  lemma Split4(a: seq<Event>, b: seq<Event>, c: seq<Event>, d: seq<Event>)
    ensures Calls(a + b + c + d) == Calls(a) + Calls(b) + Calls(c) + Calls(d)
    ensures Messages(a + b + c + d) == Messages(a) + Messages(b) + Messages(c) + Messages(d)
  {
    CallsAppend(a, b);
    CallsAppend(a + b, c);
    CallsAppend(a + b + c, d);
    MessagesAppend(a, b);
    MessagesAppend(a + b, c);
    MessagesAppend(a + b + c, d);
  }

  /** Events without a report carry no message. */
  lemma {:induction false} NoReports(events: seq<Event>)
    requires forall e :: e in events ==> !e.Report?
    ensures Messages(events) == []
  {
    if events != [] {
      assert events[0] in events;
      assert forall e :: e in events[1..] ==> e in events;
      NoReports(events[1..]);
    }
  }
}
