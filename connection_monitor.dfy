/**
 * ConnectionStateNotifierService: a polling loop that pings a fixed public address once per
 * iteration and raises StateChanged when the reachability it observes differs from the last
 * one it stored (always on the first poll), plus the query for the program's public IP address.
 * The ping and the HTTP answer are oracles; the one-second delay is one cancellation check.
 */
module ConnectionMonitor {
  import opened Wrappers
  import opened Text
  import opened Errors
  import opened Settings
  import opened Api

  /** The address the loop pings: 8.8.8.8, built from the little-endian value 134744072. */
  const PingTarget := V4(0x0808_0808)

  /**
   * The outcome of a ping to an address at a given check: whether the reply status was Success,
   * or the exception the ping threw.
   */
  type PingOracle = (IpAddress, nat) -> Result<bool>

  /** A StateChanged notification is due: the first observation, or one that differs from the stored state. */
  predicate Changed(stored: Option<bool>, current: bool)
  {
    stored.None? || stored.value != current
  }

  /** The exception a failed ping is rethrown as. */
  function PingFailure(cause: Exception): Exception
  {
    Rethrow(WithCause, "Команда проверки доступности IP-адреса не была выполнена.", cause)
  }

  /** What the loop did from its `check`-th iteration on: the raised states, the stored state, how it ended. */
  datatype Watch = Watch(raised: seq<bool>, state: Option<bool>, result: Result<()>)

  /** StartNotificationsAsync from its `check`-th iteration on, with `stored` in `_state`. */
  function Watching(stored: Option<bool>, ping: PingOracle, token: CancellationToken, check: nat): Watch
    decreases token.requestedAt - check
  {
    if IsCancellationRequested(token, check) then Watch([], stored, Success(()))
    else
      match ping(PingTarget, check)
      case Failure(e) => Watch([], stored, Failure(PingFailure(e)))
      case Success(current) =>
        var rest := Watching(Some(current), ping, token, check + 1);
        Watch((if Changed(stored, current) then [current] else []) + rest.raised, rest.state, rest.result)
  }

  class ConnectionStateNotifierService {
    var state: Option<bool>   // _state

    constructor()
      ensures state.None?
    {
      state := None;
    }

    /** One successful poll: raise the observed state if it changed, then store it. */
    method Observe(currentState: bool) returns (raised: seq<bool>)
      modifies this
      ensures raised == (if Changed(old(state), currentState) then [currentState] else [])
      ensures state == Some(currentState)
    {
      raised := [];
      if state.None? {
        raised := [currentState];
      } else {
        if currentState {
          if !state.value {
            raised := [currentState];
          }
        } else {
          if state.value {
            raised := [currentState];
          }
        }
      }
      state := Some(currentState);
    }

    /** StartNotificationsAsync: the states raised, in order, and how the loop ended. */
    method StartNotificationsAsync(ping: PingOracle, token: CancellationToken)
      returns (raised: seq<bool>, r: Result<()>)
      modifies this
      ensures Watch(raised, state, r) == Watching(old(state), ping, token, 0)
    {
      raised := [];
      var check := 0;
      ghost var start := state;
      while true
        invariant Watching(start, ping, token, 0) == Prepend(raised, Watching(state, ping, token, check))
        decreases token.requestedAt - check
      {
        // the delay: a cancelled wait is swallowed, and the loop ends
        if IsCancellationRequested(token, check) {
          CancelledLoopStops(state, ping, token, check);
          assert raised + [] == raised;
          return raised, Success(());
        }
        var reply := ping(PingTarget, check);
        if reply.Failure? {
          PingFailureKeepsState(state, ping, token, check);
          assert raised + [] == raised;
          return raised, Failure(PingFailure(reply.error));
        }
        WatchingStep(state, ping, token, check);
        var changed := Observe(reply.value);
        PrependTwice(raised, changed, Watching(state, ping, token, check + 1));
        raised := raised + changed;
        check := check + 1;
      }
    }
  }

  /** The watch `w` after the states `raised` were already raised. */
  function Prepend(raised: seq<bool>, w: Watch): Watch
  {
    Watch(raised + w.raised, w.state, w.result)
  }

  lemma PrependTwice(a: seq<bool>, b: seq<bool>, w: Watch)
    ensures Prepend(a, Prepend(b, w)) == Prepend(a + b, w)
  {
    assert a + (b + w.raised) == a + b + w.raised;
  }

  /** One successful poll, then the rest of the loop from the observed state. */
  lemma WatchingStep(stored: Option<bool>, ping: PingOracle, token: CancellationToken, check: nat)
    requires !IsCancellationRequested(token, check) && ping(PingTarget, check).Success?
    ensures Watching(stored, ping, token, check)
      == Prepend(if Changed(stored, ping(PingTarget, check).value) then [ping(PingTarget, check).value] else [],
                 Watching(Some(ping(PingTarget, check).value), ping, token, check + 1))
  {
  }

  // ---- what the loop promises ----

  /** Cancellation before an iteration's poll ends the loop normally, without a poll and without a change. */
  lemma CancelledLoopStops(stored: Option<bool>, ping: PingOracle, token: CancellationToken, check: nat)
    requires IsCancellationRequested(token, check)
    ensures Watching(stored, ping, token, check) == Watch([], stored, Success(()))
  {
  }

  /** A failing ping ends the loop with the wrapped exception and leaves the stored state as it was. */
  lemma PingFailureKeepsState(stored: Option<bool>, ping: PingOracle, token: CancellationToken, check: nat)
    requires !IsCancellationRequested(token, check) && ping(PingTarget, check).Failure?
    ensures Watching(stored, ping, token, check).raised == []
    ensures Watching(stored, ping, token, check).state == stored
    ensures Watching(stored, ping, token, check).result.error.inner == Some(ping(PingTarget, check).error)
    ensures Watching(stored, ping, token, check).result.error.kind == InvalidOperation
  {
  }

  /** The first successful poll of a fresh service always raises the state it observed. */
  lemma FirstPollRaises(ping: PingOracle, token: CancellationToken, check: nat)
    requires !IsCancellationRequested(token, check) && ping(PingTarget, check).Success?
    ensures |Watching(None, ping, token, check).raised| > 0
    ensures Watching(None, ping, token, check).raised[0] == ping(PingTarget, check).value
  {
  }

  /**
   * Edge triggering: a raised state always differs from the state stored before it, so the raised
   * states alternate; and the stored state is the last one raised.
   */
  lemma {:induction false} RaisedStatesAlternate(stored: Option<bool>, ping: PingOracle, token: CancellationToken, check: nat)
    ensures var w := Watching(stored, ping, token, check);
      stored.Some? && |w.raised| > 0 ==> w.raised[0] != stored.value
    ensures var w := Watching(stored, ping, token, check);
      forall i :: 0 <= i < |w.raised| - 1 ==> w.raised[i] != w.raised[i + 1]
    ensures var w := Watching(stored, ping, token, check);
      |w.raised| > 0 ==> w.state == Some(w.raised[|w.raised| - 1])
    ensures var w := Watching(stored, ping, token, check);
      |w.raised| == 0 ==> w.state == stored
    decreases token.requestedAt - check
  {
    if !IsCancellationRequested(token, check) && ping(PingTarget, check).Success? {
      var current := ping(PingTarget, check).value;
      RaisedStatesAlternate(Some(current), ping, token, check + 1);
    }
  }

  /** A state that does not change raises nothing: every poll agreeing with the stored state keeps the loop silent. */
  lemma {:induction false} SteadyStateIsSilent(value: bool, ping: PingOracle, token: CancellationToken, check: nat)
    requires forall k :: check <= k < token.requestedAt ==> ping(PingTarget, k) == Success(value)
    ensures Watching(Some(value), ping, token, check) == Watch([], Some(value), Success(()))
    decreases token.requestedAt - check
  {
    if !IsCancellationRequested(token, check) {
      SteadyStateIsSilent(value, ping, token, check + 1);
    }
  }

  // ---- GetRemoteIpAddressAsync ----

  /** The exception the request's own failures are rethrown as. */
  function AddressFailure(cause: Exception): Exception
  {
    Rethrow(WithCause, "IP-адрес не был получен.", cause)
  }

  /**
   * GetRemoteIpAddressAsync: `answer` is what the HTTP request returned or threw, `parse` is
   * IPAddress.TryParse. The answer's own checks throw inside the `try`, so they are rethrown
   * wrapped like a failed request; only a cancelled request passes through as it is.
   */
  function GetRemoteIpAddress(answer: Result<string>, parse: string -> Option<IpAddress>): Result<string>
  {
    match answer
    case Failure(e) => if e.kind == TaskCanceled then Failure(e) else Failure(AddressFailure(e))
    case Success(ip) =>
      if IsNullOrWhiteSpace(ip) then Failure(AddressFailure(Invalid("Значение не получено - пустая строка.")))
      else if parse(ip).None? then Failure(AddressFailure(Invalid("Неверный формат. Полученное значение: \"" + ip + "\".")))
      else Success(ip)
  }

  /**
   * The answer is returned exactly when it is a non-blank text that parses as an address;
   * cancellation comes back unchanged; every other failure is one wrapper around its cause.
   */
  lemma RemoteAddressMeaning(answer: Result<string>, parse: string -> Option<IpAddress>)
    ensures GetRemoteIpAddress(answer, parse).Success? <==>
      answer.Success? && !IsNullOrWhiteSpace(answer.value) && parse(answer.value).Some?
    ensures GetRemoteIpAddress(answer, parse).Success? ==> GetRemoteIpAddress(answer, parse) == answer
    ensures answer.Failure? && answer.error.kind == TaskCanceled ==> GetRemoteIpAddress(answer, parse) == answer
    ensures answer.Failure? && answer.error.kind != TaskCanceled ==>
      GetRemoteIpAddress(answer, parse).error.inner == Some(answer.error)
    ensures answer.Success? && IsNullOrWhiteSpace(answer.value) ==>
      GetRemoteIpAddress(answer, parse).error.inner == Some(Invalid("Значение не получено - пустая строка."))
  {
  }
}
