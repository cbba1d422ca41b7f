/**
 * RouterActionExecutor.SettingsHelper: the validation every session runs before it opens a
 * connection. It does not stop at the first bad field: every failing field adds one line.
 */
module SettingsCheck {
  import opened Text
  import opened Errors
  import opened Settings

  /** CheckIpAddress: a usable router address is an IPv4 address other than 0.0.0.0, 127.0.0.1 and 255.255.255.255. */
  function CheckIpAddress(a: IpAddress): (ok: bool)
    ensures ok <==> a.V4? && a.bits != 0 && a.bits != 0x7F00_0001 && a.bits != 0xFFFF_FFFF
  {
    && a.V4?
    && a != NoneAddress && a != AnyAddress && a != BroadcastAddress && a != LoopbackAddress
    && a != IPv6AnyAddress && a != IPv6LoopbackAddress && a != IPv6NoneAddress
  }

  /** The settings fields CheckSettings examines, in the order it examines them. */
  datatype Field = UserName | Password | IpAddressField | Port | PppoeInterface | EtherInterface

  /** The line CheckSettings appends for a failing field. */
  function FieldName(f: Field): string
  {
    match f
    case UserName => "Имя пользователя"
    case Password => "Пароль"
    case IpAddressField => "IP-адрес"
    case Port => "Порт"
    case PppoeInterface => "PPPoE интерфейс"
    case EtherInterface => "Ethernet интерфейс"
  }

  /** Field `f` of `s` fails its check. */
  predicate Wrong(s: ProgramSettings, f: Field)
  {
    match f
    case UserName => IsNullOrWhiteSpace(s.userName)
    case Password => |s.userPassword| == 0
    case IpAddressField => !CheckIpAddress(s.routerAddress.address)
    case Port => s.routerAddress.port <= MinPort
    case PppoeInterface => IsNullOrWhiteSpace(s.networkInterfaces.pppoeInterface)
    case EtherInterface => IsNullOrWhiteSpace(s.networkInterfaces.etherInterface)
  }

  /** `[f]` when field `f` of `s` fails, otherwise nothing. */
  function Verdict(s: ProgramSettings, f: Field): seq<Field>
  {
    if Wrong(s, f) then [f] else []
  }

  /** Every failing field of `s`, in checking order. */
  function WrongFields(s: ProgramSettings): seq<Field>
  {
    Verdict(s, UserName) + Verdict(s, Password) + Verdict(s, IpAddressField) +
    Verdict(s, Port) + Verdict(s, PppoeInterface) + Verdict(s, EtherInterface)
  }

  /** The listing holds every failing field and only those, each once. */
  lemma WrongFieldsAreTheFailingOnes(s: ProgramSettings)
    ensures forall f :: f in WrongFields(s) <==> Wrong(s, f)
    ensures forall i, j :: 0 <= i < j < |WrongFields(s)| ==> WrongFields(s)[i] != WrongFields(s)[j]
  {
    var w := WrongFields(s);
    forall f ensures f in w <==> Wrong(s, f) {
      assert f in w <==> f in Verdict(s, f);
    }
    forall i, j | 0 <= i < j < |w| ensures w[i] != w[j] {
      assert Rank(w[i]) < Rank(w[j]) by { RanksIncrease(s); }
    }
  }

  /** Position of a field in checking order. */
  function Rank(f: Field): nat
  {
    match f
    case UserName => 0
    case Password => 1
    case IpAddressField => 2
    case Port => 3
    case PppoeInterface => 4
    case EtherInterface => 5
  }

  /** Failing fields are listed in checking order. */
  lemma RanksIncrease(s: ProgramSettings)
    ensures forall i, j :: 0 <= i < j < |WrongFields(s)| ==> Rank(WrongFields(s)[i]) < Rank(WrongFields(s)[j])
  {
    RankedSix(Verdict(s, UserName), Verdict(s, Password), Verdict(s, IpAddressField),
              Verdict(s, Port), Verdict(s, PppoeInterface), Verdict(s, EtherInterface));
  }

  /** Fields listed by increasing rank, all below `bound`. */
  predicate RankedBelow(w: seq<Field>, bound: nat)
  {
    && (forall i, j :: 0 <= i < j < |w| ==> Rank(w[i]) < Rank(w[j]))
    && (forall i :: 0 <= i < |w| ==> Rank(w[i]) < bound)
  }

  /** Six verdicts, each empty or naming its own field, concatenated in checking order are ranked. */
  lemma RankedSix(v0: seq<Field>, v1: seq<Field>, v2: seq<Field>, v3: seq<Field>, v4: seq<Field>, v5: seq<Field>)
    requires v0 == [] || v0 == [UserName]
    requires v1 == [] || v1 == [Password]
    requires v2 == [] || v2 == [IpAddressField]
    requires v3 == [] || v3 == [Port]
    requires v4 == [] || v4 == [PppoeInterface]
    requires v5 == [] || v5 == [EtherInterface]
    ensures RankedBelow(v0 + v1 + v2 + v3 + v4 + v5, 6)
  {
    assert RankedBelow(v0, 1);
    RankedAppend(v0, v1, Password);
    RankedAppend(v0 + v1, v2, IpAddressField);
    RankedAppend(v0 + v1 + v2, v3, Port);
    RankedAppend(v0 + v1 + v2 + v3, v4, PppoeInterface);
    RankedAppend(v0 + v1 + v2 + v3 + v4, v5, EtherInterface);
  }

  lemma RankedAppend(w: seq<Field>, v: seq<Field>, f: Field)
    requires RankedBelow(w, Rank(f)) && (v == [] || v == [f])
    ensures RankedBelow(w + v, Rank(f) + 1)
  {
  }

  /** The text a StringBuilder holds after AppendLine of each field's name. */
  function LinesOf(fields: seq<Field>): string
  {
    if fields == [] then "" else FieldName(fields[0]) + NewLine + LinesOf(fields[1..])
  }

  /** The settings are usable: no field fails. */
  predicate Valid(s: ProgramSettings)
  {
    WrongFields(s) == []
  }

  /** The exception ThrowIfWrongSettings throws: the header and one line per failing field. */
  function SettingsError(s: ProgramSettings): Exception
  {
    Invalid("Следующие настройки не заданы:\r\n" + LinesOf(WrongFields(s)))
  }

  lemma {:induction false} LinesAppend(a: seq<Field>, b: seq<Field>)
    ensures LinesOf(a + b) == LinesOf(a) + LinesOf(b)
  {
    if a != [] {
      assert (a + b)[0] == a[0] && (a + b)[1..] == a[1..] + b;
      LinesAppend(a[1..], b);
      var line := FieldName(a[0]) + NewLine;
      assert LinesOf(a + b) == line + (LinesOf(a[1..]) + LinesOf(b));
      assert line + (LinesOf(a[1..]) + LinesOf(b)) == (line + LinesOf(a[1..])) + LinesOf(b);
    } else {
      assert a + b == b;
    }
  }

  lemma Step(found: seq<Field>, s: ProgramSettings, f: Field)
    ensures LinesOf(found + Verdict(s, f)) == if Wrong(s, f) then LinesOf(found) + FieldName(f) + NewLine else LinesOf(found)
  {
    LinesAppend(found, Verdict(s, f));
    if !Wrong(s, f) {
      assert found + Verdict(s, f) == found;
    }
  }

  lemma LinesSnoc(found: seq<Field>, f: Field)
    ensures LinesOf(found + [f]) == LinesOf(found) + FieldName(f) + NewLine
  {
    LinesAppend(found, [f]);
  }

  /** A snapshot is valid exactly when each of the six fields passes its own check. */
  lemma ValidMeansEveryFieldPasses(s: ProgramSettings)
    ensures Valid(s) <==>
      && !IsNullOrWhiteSpace(s.userName)
      && |s.userPassword| > 0
      && s.routerAddress.address.V4?
      && s.routerAddress.address.bits !in {0, 0x7F00_0001, 0xFFFF_FFFF}
      && s.routerAddress.port > 0
      && !IsNullOrWhiteSpace(s.networkInterfaces.pppoeInterface)
      && !IsNullOrWhiteSpace(s.networkInterfaces.etherInterface)
  {
  }

  /** The listing names each failing field once, so a snapshot with k bad fields gets k lines. */
  lemma {:induction false} OneLinePerWrongField(fields: seq<Field>)
    ensures LinesOf(fields) == Concat(seq(|fields|, i requires 0 <= i < |fields| => FieldName(fields[i]) + NewLine))
  {
    var lines := seq(|fields|, i requires 0 <= i < |fields| => FieldName(fields[i]) + NewLine);
    if fields != [] {
      OneLinePerWrongField(fields[1..]);
      assert lines == [FieldName(fields[0]) + NewLine] + seq(|fields| - 1, i requires 0 <= i < |fields| - 1 => FieldName(fields[1..][i]) + NewLine);
      ConcatPrepend(FieldName(fields[0]) + NewLine, seq(|fields| - 1, i requires 0 <= i < |fields| - 1 => FieldName(fields[1..][i]) + NewLine));
    }
  }

  /** What CheckSettings has gathered once the fields in `found` are known to fail. */
  predicate Gathered(found: seq<Field>, collect: bool, ok: bool, wrong: string)
  {
    (ok <==> found == []) && wrong == (if collect then LinesOf(found) else "")
  }

  /**
   * One check of CheckSettings: when field `f` fails, SetWrongValue appends its name as a line
   * (if a builder was passed) and clears the result.
   */
  method CheckField(s: ProgramSettings, f: Field, collect: bool, ok: bool, wrong: string, ghost found: seq<Field>)
    returns (ok': bool, wrong': string, ghost found': seq<Field>)
    requires Gathered(found, collect, ok, wrong)
    ensures found' == found + Verdict(s, f)
    ensures Gathered(found', collect, ok', wrong')
  {
    ok', wrong', found' := ok, wrong, found;
    if Wrong(s, f) {
      if collect { wrong' := wrong' + FieldName(f) + NewLine; }
      ok' := false;
      LinesSnoc(found, f);
      found' := found + [f];
    } else {
      assert found + [] == found;
    }
  }

  /**
   * CheckSettings: `ok` is false iff some field fails; when a builder is passed (`collect`),
   * it receives one line per failing field, in checking order.
   */
  method CheckSettings(s: ProgramSettings, collect: bool) returns (ok: bool, wrong: string)
    ensures ok <==> Valid(s)
    ensures wrong == (if collect then LinesOf(WrongFields(s)) else "")
  {
    ok, wrong := true, "";
    ghost var found: seq<Field> := [];
    ok, wrong, found := CheckField(s, UserName, collect, ok, wrong, found);
    assert found == Verdict(s, UserName);
    ok, wrong, found := CheckField(s, Password, collect, ok, wrong, found);
    ok, wrong, found := CheckField(s, IpAddressField, collect, ok, wrong, found);
    ok, wrong, found := CheckField(s, Port, collect, ok, wrong, found);
    ok, wrong, found := CheckField(s, PppoeInterface, collect, ok, wrong, found);
    ok, wrong, found := CheckField(s, EtherInterface, collect, ok, wrong, found);
    assert found == WrongFields(s);
  }

  /** ThrowIfWrongSettings: throws the listing of every failing field, or returns normally. */
  method ThrowIfWrongSettings(s: ProgramSettings) returns (r: Outcome)
    ensures r.Pass? <==> Valid(s)
    ensures r.Fail? ==> r.error == SettingsError(s)
  {
    var ok, wrong := CheckSettings(s, true);
    if !ok {
      return Fail(Invalid("Следующие настройки не заданы:\r\n" + wrong));
    }
    return Pass;
  }
}
