/** Idempotency keys as text, and the operator's query that parses them back. */
module TxKeys {
  import opened Domain

  // ----- splitting and joining at colons -----

  function Split(s: string): (parts: seq<string>)
    ensures |parts| >= 1 && forall part :: part in parts ==> ':' !in part
  {
    if s == "" then [""]
    else
      var rest := Split(s[1..]);
      if s[0] == ':' then [""] + rest else [[s[0]] + rest[0]] + rest[1..]
  }

  function Join(parts: seq<string>): string {
    if |parts| == 0 then "" else if |parts| == 1 then parts[0] else parts[0] + ":" + Join(parts[1..])
  }

  lemma {:induction false} SplitPart(part: string, s: string)
    requires ':' !in part
    ensures Split(part) == [part]
    ensures Split(part + ":" + s) == [part] + Split(s)
  {
    if part == "" {
      assert ("" + ":" + s)[1..] == s;
    } else {
      SplitPart(part[1..], s);
      assert (part + ":" + s)[1..] == part[1..] + ":" + s;
      assert [part[0]] + part[1..] == part;
      assert ([part[1..]] + Split(s))[1..] == Split(s);
    }
  }

  /** Text parts without colons survive formatting and splitting. */
  lemma {:induction false} SplitOfJoin(parts: seq<string>)
    requires |parts| > 0 && forall part :: part in parts ==> ':' !in part
    ensures Split(Join(parts)) == parts
  {
    if |parts| == 1 {
      SplitPart(parts[0], "");
    } else {
      SplitPart(parts[0], Join(parts[1..]));
      SplitOfJoin(parts[1..]);
    }
  }

  lemma {:induction false} JoinOfSplit(s: string)
    ensures Join(Split(s)) == s
  {
    if s != "" {
      var rest := Split(s[1..]);
      JoinOfSplit(s[1..]);
      if s[0] == ':' {
        assert ([""] + rest)[1..] == rest;
        assert "" + ":" + s[1..] == s;
      } else {
        assert ([[s[0]] + rest[0]] + rest[1..])[1..] == rest[1..];
        assert s == [s[0]] + s[1..];
      }
    }
  }

  // ----- identifiers -----

  predicate IsHex(c: char) {
    '0' <= c <= '9' || 'a' <= c <= 'f' || 'A' <= c <= 'F'
  }

  /** The text form of a UUID (section 3 of RFC 4122), in either case. */
  predicate IsUuid(s: string) {
    |s| == 36 && forall i :: 0 <= i < 36 ==>
      if i == 8 || i == 13 || i == 18 || i == 23 then s[i] == '-' else IsHex(s[i])
  }

  lemma UuidIsPlain(s: string)
    requires IsUuid(s)
    ensures ':' !in s && s != ""
  {
    forall i | 0 <= i < |s|
      ensures s[i] != ':'
    {
      assert s[i] == '-' || IsHex(s[i]);
    }
  }

  // ----- keys -----

  datatype TextKey =
    | DebitText(round: string, user: string, panel: Panel)
    | PayoutText(bet: string)
    | RefundText(bet: string)
    | RestartText(bet: string)
    | ReclaimText(bet: string)
    | VoidRefundText(bet: string)
    | DemoResetText(session: string)

  predicate HasUuids(k: TextKey) {
    match k
    case DebitText(round, user, _) => IsUuid(round) && IsUuid(user)
    case DemoResetText(session) => IsUuid(session)
    case _ => IsUuid(k.bet)
  }

  function PanelText(p: Panel): string {
    if p.A? then "A" else "B"
  }

  function Parts(k: TextKey): seq<string> {
    match k
    case DebitText(round, user, panel) => ["bet", round, user, PanelText(panel), "debit"]
    case PayoutText(bet) => ["bet", bet, "payout"]
    case RefundText(bet) => ["bet", bet, "refund"]
    case RestartText(bet) => ["bet", bet, "restart_refund"]
    case ReclaimText(bet) => ["bet", bet, "void_reclaim"]
    case VoidRefundText(bet) => ["bet", bet, "void_refund"]
    case DemoResetText(session) => ["demo", "reset", session]
  }

  function Format(k: TextKey): string {
    Join(Parts(k))
  }

  lemma SplitOfFormat(k: TextKey)
    requires HasUuids(k)
    ensures Split(Format(k)) == Parts(k)
  {
    if k.DebitText? {
      UuidIsPlain(k.round);
      UuidIsPlain(k.user);
    } else if k.DemoResetText? {
      UuidIsPlain(k.session);
    } else {
      UuidIsPlain(k.bet);
    }
    SplitOfJoin(Parts(k));
  }

  /** Different logical moves never share a key: neither two kinds of move on one bet, nor one
      kind on two bets or slots. */
  lemma KeysAreDistinct(a: TextKey, b: TextKey)
    requires HasUuids(a) && HasUuids(b)
    ensures Format(a) == Format(b) <==> a == b
  {
    if Format(a) == Format(b) {
      SplitOfFormat(a);
      SplitOfFormat(b);
      PartsAreDistinct(a, b);
    }
  }

  lemma PartsAreDistinct(a: TextKey, b: TextKey)
    requires Parts(a) == Parts(b)
    ensures a == b
  {
    assert |Parts(a)| == |Parts(b)|;
    assert Parts(a)[|Parts(a)| - 1] == Parts(b)[|Parts(b)| - 1];
    assert Parts(a)[0] == Parts(b)[0] && Parts(a)[1] == Parts(b)[1] && Parts(a)[2] == Parts(b)[2];
    if a.DebitText? {
      assert Parts(a)[3] == Parts(b)[3];
    }
  }

  // ----- the query -----

  /** White space and line ends (sections 12.2 and 12.3 of ECMA-262). */
  predicate IsSpace(c: char) {
    '\U{9}' <= c <= '\U{D}' || c == ' ' || c == '\U{A0}' || c == '\U{1680}' || '\U{2000}' <= c <= '\U{200A}'
    || c == '\U{2028}' || c == '\U{2029}' || c == '\U{202F}' || c == '\U{205F}' || c == '\U{3000}' || c == '\U{FEFF}'
  }

  function TrimLeft(s: string): string {
    if s != "" && IsSpace(s[0]) then TrimLeft(s[1..]) else s
  }

  function TrimRight(s: string): string {
    if s != "" && IsSpace(s[|s| - 1]) then TrimRight(s[..|s| - 1]) else s
  }

  function Trim(s: string): string {
    TrimRight(TrimLeft(s))
  }

  lemma {:induction false} TrimLeftCuts(s: string) returns (from: nat)
    ensures from <= |s| && TrimLeft(s) == s[from..] && forall i :: 0 <= i < from ==> IsSpace(s[i])
    ensures from < |s| ==> !IsSpace(s[from])
  {
    from := 0;
    if s != "" && IsSpace(s[0]) {
      from := TrimLeftCuts(s[1..]);
      assert s[1..][from..] == s[1 + from..];
      assert forall i :: 0 < i <= from ==> s[i] == s[1..][i - 1];
      from := from + 1;
    }
  }

  lemma {:induction false} TrimRightCuts(s: string) returns (to: nat)
    ensures to <= |s| && TrimRight(s) == s[..to] && forall i :: to <= i < |s| ==> IsSpace(s[i])
    ensures to > 0 ==> !IsSpace(s[to - 1])
  {
    to := |s|;
    if s != "" && IsSpace(s[|s| - 1]) {
      to := TrimRightCuts(s[..|s| - 1]);
      assert s[..|s| - 1][..to] == s[..to];
    } else {
      assert s[..|s|] == s;
    }
  }

  /** Space is cut off at both ends, all of it and nothing else. */
  lemma TrimIsExact(s: string) returns (from: nat, to: nat)
    ensures from <= to <= |s| && Trim(s) == s[from..to]
    ensures forall i :: 0 <= i < from || to <= i < |s| ==> IsSpace(s[i])
    ensures from < to ==> !IsSpace(s[from]) && !IsSpace(s[to - 1])
  {
    from := TrimLeftCuts(s);
    var n := TrimRightCuts(s[from..]);
    to := from + n;
    assert s[from..][..n] == s[from..to];
    assert forall i :: from <= i < |s| ==> s[i] == s[from..][i - from];
  }

  datatype QueryError = ExactlyOne | Missing | InvalidBetId | Unrecognized

  datatype TransactionQuery =
    | ByBet(betId: string)
    | Debit(round: string, user: string, panel: Panel, tx: string)
    | Payout(bet: string, tx: string)
    | RefundClass(bet: string, tx: string)

  datatype Parsed = Ok(query: TransactionQuery) | Err(error: QueryError)

  /** A field that is absent, or empty once trimmed, does not count. */
  function Field(s: Option<string>): Option<string> {
    if s.Some? && Trim(s.value) != "" then Some(Trim(s.value)) else None
  }

  function ParseTransactionQuery(transactionId: Option<string>, betId: Option<string>): Parsed {
    var tx, bet := Field(transactionId), Field(betId);
    if tx.Some? && bet.Some? then Err(ExactlyOne)
    else if tx.None? && bet.None? then Err(Missing)
    else if bet.Some? then (if IsUuid(bet.value) then Ok(ByBet(bet.value)) else Err(InvalidBetId))
    else ParseKey(tx.value)
  }

  /** A parameter that is missing or holds nothing but space. */
  predicate Blank(s: Option<string>) {
    s.Some? ==> forall i :: 0 <= i < |s.value| ==> IsSpace(s.value[i])
  }

  lemma FieldIsExact(s: Option<string>)
    ensures Field(s) == if Blank(s) then None else Some(Trim(s.value))
  {
    if s.Some? {
      var from, to := TrimIsExact(s.value);
    }
  }

  /** Exactly one parameter is needed; a bet is named by a UUID, and any other transaction than
      one of ours is not recognised. */
  lemma QueryByCases(tx: Option<string>, bet: Option<string>)
    ensures var parsed := ParseTransactionQuery(tx, bet);
      && (parsed == Err(ExactlyOne) <==> !Blank(tx) && !Blank(bet))
      && (parsed == Err(Missing) <==> Blank(tx) && Blank(bet))
      && (Blank(tx) && !Blank(bet) ==>
            parsed == if IsUuid(Trim(bet.value)) then Ok(ByBet(Trim(bet.value))) else Err(InvalidBetId))
      && (!Blank(tx) && Blank(bet) ==>
            && parsed == ParseTransactionQuery(tx, None)
            && (if parsed.Ok? then !parsed.query.ByBet? else parsed.error.Unrecognized?))
  {
    FieldIsExact(tx);
    FieldIsExact(bet);
  }

  function ParseKey(tx: string): Parsed {
    var parts := Split(tx);
    if parts[0] != "bet" then Err(Unrecognized)
    else if |parts| == 3 && (parts[2] == "payout" || parts[2] == "refund" || parts[2] == "restart_refund") then
      if !IsUuid(parts[1]) then Err(Unrecognized)
      else if parts[2] == "payout" then Ok(Payout(parts[1], tx))
      else Ok(RefundClass(parts[1], tx))
    else if |parts| == 5 && parts[4] == "debit" then
      if !IsUuid(parts[1]) || !IsUuid(parts[2]) || (parts[3] != "A" && parts[3] != "B") then Err(Unrecognized)
      else Ok(Debit(parts[1], parts[2], if parts[3] == "A" then Panel.A else Panel.B, tx))
    else Err(Unrecognized)
  }

  /** What the operator must learn from each key; the reversals of a void cannot be looked up. */
  function Meaning(k: TextKey): Parsed {
    match k
    case DebitText(round, user, panel) => Ok(Debit(round, user, panel, Format(k)))
    case PayoutText(bet) => Ok(Payout(bet, Format(k)))
    case RefundText(bet) => Ok(RefundClass(bet, Format(k)))
    case RestartText(bet) => Ok(RefundClass(bet, Format(k)))
    case _ => Err(Unrecognized)
  }

  lemma TrimOfFormat(k: TextKey)
    requires HasUuids(k)
    ensures Field(Some(Format(k))) == Some(Format(k))
  {
    var s, parts := Format(k), Parts(k);
    SplitOfFormat(k);
    assert s[0] == 'b' || s[0] == 'd' by {
      assert s == parts[0] + ":" + Join(parts[1..]);
    }
    LastOfJoin(parts);
    if k.DemoResetText? {
      assert k.session[35] == s[|s| - 1] && IsHex(k.session[35]);
    }
  }

  lemma {:induction false} LastOfJoin(parts: seq<string>)
    requires |parts| > 0 && |parts[|parts| - 1]| > 0
    ensures var s, last := Join(parts), parts[|parts| - 1]; |s| > 0 && s[|s| - 1] == last[|last| - 1]
  {
    if |parts| > 1 {
      LastOfJoin(parts[1..]);
    }
  }

  /** Every key that was formatted is parsed back to the move it stands for. */
  lemma ParseOfFormat(k: TextKey)
    requires HasUuids(k)
    ensures ParseTransactionQuery(Some(Format(k)), None) == Meaning(k)
  {
    TrimOfFormat(k);
    SplitOfFormat(k);
  }

  /** And only such keys are recognised: what parses is the text of some key with UUIDs. */
  lemma ParsedIsFormatted(tx: string) returns (k: TextKey)
    requires ParseTransactionQuery(Some(tx), None).Ok?
    ensures HasUuids(k) && Format(k) == Trim(tx) && ParseTransactionQuery(Some(tx), None) == Meaning(k)
  {
    var s := Trim(tx);
    var parts := Split(s);
    JoinOfSplit(s);
    if |parts| == 5 {
      k := DebitText(parts[1], parts[2], if parts[3] == "A" then Panel.A else Panel.B);
    } else if parts[2] == "payout" {
      k := PayoutText(parts[1]);
    } else if parts[2] == "refund" {
      k := RefundText(parts[1]);
    } else {
      k := RestartText(parts[1]);
    }
    assert Parts(k) == parts;
  }
}
