/** The once-only identity of a rollback, as the text it is stored as. */
module DedupeText {
  import opened Domain
  import opened TxKeys
  import Outbox

  /** A claim by its texts: the operator's transaction id is one of our own formatted keys. */
  datatype TextClaim = TextClaim(tx: TextKey, bet: Option<string>, reason: Outbox.Reason)

  datatype TextSubject = BetSubject(bet: string) | TxSubject(tx: TextKey)

  function ReasonText(r: Outbox.Reason): (text: string)
    ensures '#' !in text && text != ""
  {
    match r
    case AmbiguousDebit => "ambiguous_debit"
    case TransientDebit => "transient_debit"
    case VoidReclaim => "void_reclaim"
    case VoidRefund => "void_refund"
    case RestartRefund => "restart_refund"
  }

  function SubjectOf(c: TextClaim): TextSubject {
    if c.bet.Some? then BetSubject(c.bet.value) else TxSubject(c.tx)
  }

  function SubjectText(s: TextSubject): string {
    match s
    case BetSubject(bet) => bet
    case TxSubject(tx) => Format(tx)
  }

  function KeyText(c: TextClaim): string {
    SubjectText(SubjectOf(c)) + "#" + ReasonText(c.reason)
  }

  predicate WellFormed(c: TextClaim) {
    HasUuids(c.tx) && (c.bet.Some? ==> IsUuid(c.bet.value))
  }

  lemma NoHashAfter(y: string, q: string)
    requires '#' !in q
    ensures forall i :: |y| < i < |y| + 1 + |q| ==> (y + "#" + q)[i] != '#'
  {
    forall i | |y| < i < |y| + 1 + |q|
      ensures (y + "#" + q)[i] != '#'
    {
      assert (y + "#" + q)[i] == q[i - |y| - 1];
    }
  }

  /** Text is cut at its last hash in one way only. */
  lemma CutAtLastHash(x: string, r: string, y: string, q: string)
    requires '#' !in r && '#' !in q && x + "#" + r == y + "#" + q
    ensures x == y && r == q
  {
    NoHashAfter(x, r);
    NoHashAfter(y, q);
    var text := x + "#" + r;
    assert text[|x|] == '#' && (y + "#" + q)[|y|] == '#';
    assert x == text[..|x|] && y == text[..|y|];
    assert r == text[|x| + 1..] && q == text[|y| + 1..];
  }

  lemma ReasonsAreDistinct(a: Outbox.Reason, b: Outbox.Reason)
    requires ReasonText(a) == ReasonText(b)
    ensures a == b
  {
    assert ReasonText(a)[0] == ReasonText(b)[0] && |ReasonText(a)| == |ReasonText(b)|;
  }

  /** A formatted key has colons, the text of a bet id has none. */
  lemma SubjectsAreDistinct(a: TextSubject, b: TextSubject)
    requires SubjectText(a) == SubjectText(b)
    requires if a.BetSubject? then IsUuid(a.bet) else HasUuids(a.tx)
    requires if b.BetSubject? then IsUuid(b.bet) else HasUuids(b.tx)
    ensures a == b
  {
    if a.TxSubject? && b.TxSubject? {
      KeysAreDistinct(a.tx, b.tx);
    } else if a.TxSubject? {
      SplitOfFormat(a.tx);
      UuidIsPlain(b.bet);
      SplitPart(b.bet, "");
    } else if b.TxSubject? {
      SplitOfFormat(b.tx);
      UuidIsPlain(a.bet);
      SplitPart(a.bet, "");
    }
  }

  /** Two reversals have the same stored identity if and only if they are about the same bet, or
      the same transaction where no bet is named, for the same reason. On the one debit key
      that successive bets in a slot reuse, different bets never suppress each other. */
  lemma IdentityIsLogical(a: TextClaim, b: TextClaim)
    requires WellFormed(a) && WellFormed(b)
    ensures KeyText(a) == KeyText(b) <==>
      a.reason == b.reason && a.bet == b.bet && (a.bet.None? ==> a.tx == b.tx)
  {
    if KeyText(a) == KeyText(b) {
      var x, y := SubjectText(SubjectOf(a)), SubjectText(SubjectOf(b));
      CutAtLastHash(x, ReasonText(a.reason), y, ReasonText(b.reason));
      ReasonsAreDistinct(a.reason, b.reason);
      SubjectsAreDistinct(SubjectOf(a), SubjectOf(b));
    }
  }

  /** The outbox model numbers operators, bets and transactions; any injective numbers will do. */
  function Numbered(c: TextClaim, operator: Outbox.OperatorId, bets: string -> BetId, txs: TextKey -> Outbox.TxId):
    Outbox.Claim
  {
    Outbox.Claim(operator, txs(c.tx), c.reason, if c.bet.Some? then Some(bets(c.bet.value)) else None)
  }

  /** So the rows of the outbox model are named exactly as the stored texts name them. */
  lemma NumbersStandForText(
      a: TextClaim, b: TextClaim, operator: Outbox.OperatorId, bets: string -> BetId, txs: TextKey -> Outbox.TxId)
    requires WellFormed(a) && WellFormed(b)
    requires forall x, y :: bets(x) == bets(y) ==> x == y
    requires forall x, y :: txs(x) == txs(y) ==> x == y
    ensures Outbox.RefOf(Numbered(a, operator, bets, txs)) == Outbox.RefOf(Numbered(b, operator, bets, txs)) <==>
      KeyText(a) == KeyText(b)
  {
    IdentityIsLogical(a, b);
  }
}
