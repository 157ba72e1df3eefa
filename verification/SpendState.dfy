/** What the mint's per-proof answers say about a token, and which of its proofs may still move. */
module SpendState {
  import opened Options

  /** The states of NUT-07, and the one more that the wallet library knows. */
  datatype State = Unspent | Spent | Pending | Reserved | PendingSpent

  /** `y` is the point of the secret; a secret that does not hash to the curve has none. */
  datatype Proof = Proof(amount: nat, y: Option<nat>)

  datatype Reply = Reply(y: nat, state: State)

  datatype Verdict =
    | NoProofs
    | AllSpent(amountSat: nat)
    | SomeSpent(spentSat: nat, unspentSat: nat)
    | Indeterminate
    | NoneSpent

  const WORD := 0x1_0000_0000_0000_0000

  /** Unsigned 64-bit subtraction wraps around. */
  function Wrapped(difference: int): nat {
    difference % WORD
  }

  function Answered(replies: seq<Reply>): set<nat> {
    set r | r in replies :: r.y
  }

  function SpentYs(replies: seq<Reply>): set<nat> {
    set r | r in replies && r.state.Spent? :: r.y
  }

  function PendingYs(replies: seq<Reply>): set<nat> {
    set r | r in replies && (r.state.Pending? || r.state.Reserved?) :: r.y
  }

  function BlockedYs(replies: seq<Reply>): set<nat> {
    set r | r in replies && !r.state.Unspent? :: r.y
  }

  predicate In(p: Proof, ys: set<nat>) {
    p.y.Some? && p.y.value in ys
  }

  function Value(proofs: seq<Proof>): nat {
    if |proofs| == 0 then 0 else Value(proofs[..|proofs| - 1]) + proofs[|proofs| - 1].amount
  }

  function Select(proofs: seq<Proof>, ys: set<nat>): (kept: seq<Proof>)
    ensures forall p :: p in kept ==> p in proofs && In(p, ys)
  {
    if |proofs| == 0 then []
    else
      var rest, p := Select(proofs[..|proofs| - 1], ys), proofs[|proofs| - 1];
      if In(p, ys) then rest + [p] else rest
  }

  function Classify(proofs: seq<Proof>, amount: nat, spent: set<nat>, pending: set<nat>, answered: set<nat>): Verdict {
    if |proofs| == 0 then NoProofs
    else
      var unanswerable := exists p :: p in proofs && !In(p, answered);
      var spentSat := Value(Select(proofs, spent));
      var hasPending := exists p :: p in proofs && In(p, pending);
      if unanswerable || hasPending then Indeterminate
      else if spentSat == amount then AllSpent(amount)
      else if spentSat == 0 then NoneSpent
      else SomeSpent(spentSat, Wrapped(amount - spentSat))
  }

  function ClassifyReplies(proofs: seq<Proof>, amount: nat, replies: seq<Reply>): Verdict {
    Classify(proofs, amount, SpentYs(replies), PendingYs(replies), Answered(replies))
  }

  /** `value` is what the wallet library computes as the token's value; when it fails, the code goes on with 0. */
  function ClassifyToken(proofs: seq<Proof>, value: Option<nat>, replies: seq<Reply>): Verdict {
    ClassifyReplies(proofs, if value.Some? then value.value else 0, replies)
  }

  /** The proofs that the one-shot recovery of the remainder hands to receive. */
  function Remainder(proofs: seq<Proof>, replies: seq<Reply>): seq<Proof> {
    Select(proofs, Answered(replies) - BlockedYs(replies))
  }

  predicate Definite(v: Verdict) {
    v.AllSpent? || v.SomeSpent? || v.NoneSpent?
  }

  predicate Positive(proofs: seq<Proof>) {
    forall p :: p in proofs ==> p.amount > 0
  }

  // ---------------------------------------------------------------- sums of parts

  lemma {:induction false} ValueAt(proofs: seq<Proof>, i: nat)
    requires i < |proofs|
    ensures proofs[i].amount <= Value(proofs)
  {
    if i < |proofs| - 1 {
      ValueAt(proofs[..|proofs| - 1], i);
    }
  }

  /** A part has the whole value exactly when nothing of value is left out. */
  lemma {:induction false} PartValue(proofs: seq<Proof>, ys: set<nat>)
    ensures Value(Select(proofs, ys)) <= Value(proofs)
    ensures Value(Select(proofs, ys)) == Value(proofs) <==> forall p :: p in proofs && !In(p, ys) ==> p.amount == 0
    ensures Value(Select(proofs, ys)) == 0 <==> forall p :: p in proofs && In(p, ys) ==> p.amount == 0
  {
    if |proofs| > 0 {
      var prev, p := proofs[..|proofs| - 1], proofs[|proofs| - 1];
      PartValue(prev, ys);
      assert forall q :: q in proofs <==> q in prev || q == p;
      var rest := Select(prev, ys);
      assert (rest + [p])[..|rest|] == rest;
    }
  }

  /** Two disjoint sets of points that cover a token's proofs split its value. */
  lemma SelectSnoc(proofs: seq<Proof>, ys: set<nat>)
    requires |proofs| > 0
    ensures var n := |proofs| - 1;
      Value(Select(proofs, ys)) == Value(Select(proofs[..n], ys)) + if In(proofs[n], ys) then proofs[n].amount else 0
  {}

  lemma {:induction false} SplitValue(proofs: seq<Proof>, a: set<nat>, b: set<nat>)
    requires a !! b
    ensures Value(Select(proofs, a)) + Value(Select(proofs, b)) == Value(Select(proofs, a + b))
  {
    if |proofs| > 0 {
      SplitValue(proofs[..|proofs| - 1], a, b);
      SelectSnoc(proofs, a);
      SelectSnoc(proofs, b);
      SelectSnoc(proofs, a + b);
    }
  }

  lemma {:induction false} SelectAll(proofs: seq<Proof>, ys: set<nat>)
    requires forall p :: p in proofs ==> In(p, ys)
    ensures Select(proofs, ys) == proofs
  {
    if |proofs| > 0 {
      SelectAll(proofs[..|proofs| - 1], ys);
    }
  }

  // ---------------------------------------------------------------- what the answers mean

  /** A definite answer is given exactly when every proof was answered for and none is in flight. */
  lemma DefiniteExactlyWhenAnswered(proofs: seq<Proof>, amount: nat, replies: seq<Reply>)
    requires |proofs| > 0
    ensures Definite(ClassifyReplies(proofs, amount, replies)) <==>
      forall p :: p in proofs ==> In(p, Answered(replies)) && !In(p, PendingYs(replies))
  {}

  predicate AllIn(proofs: seq<Proof>, ys: set<nat>) {
    forall p :: p in proofs ==> In(p, ys)
  }

  predicate NoneIn(proofs: seq<Proof>, ys: set<nat>) {
    forall p :: p in proofs ==> !In(p, ys)
  }

  lemma PartMeans(proofs: seq<Proof>, ys: set<nat>)
    requires Positive(proofs) && |proofs| > 0
    ensures Value(Select(proofs, ys)) == Value(proofs) <==> AllIn(proofs, ys)
    ensures Value(Select(proofs, ys)) == 0 <==> NoneIn(proofs, ys)
    ensures 0 <= Value(Select(proofs, ys)) <= Value(proofs) && Value(proofs) > 0
  {}

  /** For a token of known value in positive amounts, a definite answer says what it seems to say. */
  lemma {:induction false} AnswersMean(proofs: seq<Proof>, replies: seq<Reply>, v: Verdict)
    requires Positive(proofs) && Value(proofs) < WORD
    requires v == ClassifyReplies(proofs, Value(proofs), replies) && Definite(v)
    ensures v.AllSpent? <==> AllIn(proofs, SpentYs(replies))
    ensures v.NoneSpent? <==> NoneIn(proofs, SpentYs(replies))
    ensures v.AllSpent? ==> v.amountSat == Value(proofs)
    ensures v.SomeSpent? ==>
      && v.spentSat == Value(Select(proofs, SpentYs(replies))) > 0
      && v.unspentSat == Value(Select(proofs, Answered(replies) - SpentYs(replies))) > 0
      && v.spentSat + v.unspentSat == Value(proofs)
  {
    var spent := SpentYs(replies);
    var spentSat := Value(Select(proofs, spent));
    PartMeans(proofs, spent);
    NoWrap(Value(proofs) - spentSat);
    SplitValue(proofs, spent, Answered(replies) - spent);
    assert spent + (Answered(replies) - spent) == Answered(replies);
    SelectAll(proofs, Answered(replies));
  }

  lemma NoWrap(n: int)
    requires 0 <= n < WORD
    ensures Wrapped(n) == n
  {}

  /** When the library cannot compute the value, a definite answer turns around: a token none of whose proofs is spent
      is called entirely spent, and any other partly spent.  The answer is the right one exactly when it is not
      definite. */
  lemma {:induction false} UnknownValueInverts(proofs: seq<Proof>, replies: seq<Reply>)
    requires Positive(proofs) && |proofs| > 0 && Value(proofs) < WORD
    ensures var v, spent := ClassifyToken(proofs, None, replies), SpentYs(replies);
      && (Definite(v) ==> (v == AllSpent(0) <==> NoneIn(proofs, spent)) && (v.SomeSpent? <==> !NoneIn(proofs, spent)))
      && (v == ClassifyToken(proofs, Some(Value(proofs)), replies) <==> !Definite(v))
  {
    var spentSat := Value(Select(proofs, SpentYs(replies)));
    PartMeans(proofs, SpentYs(replies));
    if spentSat > 0 {
      WrapsBelowZero(spentSat);
      NoWrap(Value(proofs) - spentSat);
    }
  }

  lemma WrapsBelowZero(n: nat)
    requires 0 < n < WORD
    ensures Wrapped(0 - n) == WORD - n
  {}

  /** A token of one proof that the mint answers for. */
  lemma OneProof(amount: nat, y: nat, state: State, value: Option<nat>)
    requires state.Unspent? || state.Spent?
    ensures var proofs, spentSat := [Proof(amount, Some(y))], if state.Spent? then amount else 0;
      var claimed := if value.Some? then value.value else 0;
      ClassifyToken(proofs, value, [Reply(y, state)]) ==
        if spentSat == claimed then AllSpent(claimed)
        else if spentSat == 0 then NoneSpent else SomeSpent(spentSat, Wrapped(claimed - spentSat))
  {
    var p, replies := Proof(amount, Some(y)), [Reply(y, state)];
    assert Reply(y, state) in replies;
    assert Answered(replies) == {y} && PendingYs(replies) == {};
    assert SpentYs(replies) == if state.Spent? then {y} else {};
    assert [p][..0] == [];
    SelectSnoc([p], SpentYs(replies));
  }

  /** One proof of two sats: unspent it is called entirely spent, and spent it is called partly spent with almost 2^64
      sats left. */
  lemma UnknownValueExample()
    ensures ClassifyToken([Proof(2, Some(7))], None, [Reply(7, Unspent)]) == AllSpent(0)
    ensures ClassifyToken([Proof(2, Some(7))], None, [Reply(7, Spent)]) == SomeSpent(2, WORD - 2)
  {
    OneProof(2, 7, Unspent, None);
    OneProof(2, 7, Spent, None);
    WrapsBelowZero(2);
  }

  // ---------------------------------------------------------------- conservation

  /** Neither spent nor free: some reply about it is not Unspent, none says Spent. */
  function StuckYs(replies: seq<Reply>): set<nat> {
    BlockedYs(replies) - SpentYs(replies)
  }

  /** Spent value, the remainder that would be received, and what is stuck add up to the token. */
  lemma ValueSplits(proofs: seq<Proof>, replies: seq<Reply>)
    requires AllIn(proofs, Answered(replies))
    ensures Value(Select(proofs, SpentYs(replies))) + Value(Remainder(proofs, replies)) +
      Value(Select(proofs, StuckYs(replies)))
      == Value(proofs)
  {
    var spent, free, stuck := SpentYs(replies), Answered(replies) - BlockedYs(replies), StuckYs(replies);
    assert spent <= BlockedYs(replies) <= Answered(replies);
    SplitValue(proofs, spent, free);
    SplitValue(proofs, spent + free, stuck);
    assert spent + free + stuck == Answered(replies);
    SelectAll(proofs, Answered(replies));
  }

  /** The spent value and the remainder add up to the token exactly when no proof of value is stuck; and after a
      definite answer a proof is stuck exactly when it is PendingSpent and never called Spent, a state that the
      classification does not count as in flight but the remainder filter refuses. */
  lemma ConservedExactlyWhenNothingIsStuck(proofs: seq<Proof>, replies: seq<Reply>)
    requires Definite(ClassifyReplies(proofs, Value(proofs), replies))
    ensures Value(Select(proofs, SpentYs(replies))) + Value(Remainder(proofs, replies)) == Value(proofs) <==>
      forall p :: p in proofs && In(p, StuckYs(replies)) ==> p.amount == 0
    ensures forall p :: p in proofs ==>
      (In(p, StuckYs(replies)) <==>
        !In(p, SpentYs(replies)) && exists r :: r in replies && p.y == Some(r.y) && r.state.PendingSpent?)
  {
    DefiniteExactlyWhenAnswered(proofs, Value(proofs), replies);
    ValueSplits(proofs, replies);
    PartValue(proofs, StuckYs(replies));
    forall p | p in proofs
      ensures In(p, StuckYs(replies)) <==>
        !In(p, SpentYs(replies)) && exists r :: r in replies && p.y == Some(r.y) && r.state.PendingSpent?
    {
      StuckMeans(p, replies);
    }
  }

  lemma StuckMeans(p: Proof, replies: seq<Reply>)
    requires !In(p, PendingYs(replies))
    ensures In(p, StuckYs(replies)) <==>
      !In(p, SpentYs(replies)) && exists r :: r in replies && p.y == Some(r.y) && r.state.PendingSpent?
  {}

  // ---------------------------------------------------------------- the single-token check

  datatype CheckState = SpentToken | PendingToken | UnspentToken

  /** The check that payment reconciliation uses: it looks at the replies alone. */
  function TokenCheckState(replies: seq<Reply>): CheckState {
    if forall r :: r in replies ==> r.state.Spent? then SpentToken
    else if exists r :: r in replies && (r.state.Pending? || r.state.Reserved?) then PendingToken
    else UnspentToken
  }

  /** Its Spent is right exactly when the mint answered for every proof; a mint that leaves proofs out, or answers
      nothing at all, makes an unspent token count as spent. */
  lemma SpentIsRightExactlyWhenAnswered(proofs: seq<Proof>, replies: seq<Reply>)
    requires TokenCheckState(replies) == SpentToken
    ensures AllIn(proofs, SpentYs(replies)) <==> AllIn(proofs, Answered(replies))
    ensures TokenCheckState([]) == SpentToken
  {}

  /** Replies about just this token, one state per point, none left out. */
  predicate Complete(proofs: seq<Proof>, replies: seq<Reply>) {
    && AllIn(proofs, Answered(replies))
    && (forall r, s :: r in replies && s in replies && r.y == s.y ==> r.state == s.state)
    && (forall r :: r in replies ==> exists p :: p in proofs && p.y == Some(r.y))
  }

  lemma CompleteCheck(proofs: seq<Proof>, replies: seq<Reply>)
    requires Complete(proofs, replies)
    ensures TokenCheckState(replies) == SpentToken <==> AllIn(proofs, SpentYs(replies))
  {}

  lemma SpentIsNotPending(p: Proof, proofs: seq<Proof>, replies: seq<Reply>)
    requires Complete(proofs, replies) && In(p, SpentYs(replies))
    ensures !In(p, PendingYs(replies))
  {}

  /** A complete set of replies has one in flight exactly when the batched answer is indeterminate. */
  lemma CompletePending(proofs: seq<Proof>, amount: nat, replies: seq<Reply>)
    requires |proofs| > 0 && Complete(proofs, replies)
    ensures TokenCheckState(replies) == PendingToken <==> ClassifyReplies(proofs, amount, replies).Indeterminate?
  {
    DefiniteExactlyWhenAnswered(proofs, amount, replies);
    if r :| r in replies && (r.state.Pending? || r.state.Reserved?) {
      assert r.y in PendingYs(replies);
      var p :| p in proofs && p.y == Some(r.y);
      assert In(p, PendingYs(replies)) && !r.state.Spent?;
    }
    if p :| p in proofs && In(p, PendingYs(replies)) {
      var r :| r in replies && (r.state.Pending? || r.state.Reserved?) && r.y == p.y.value;
    }
  }

  /** On complete replies both checks call the same tokens spent, and the same tokens in flight. */
  lemma {:induction false} ChecksAgreeOnSpent(proofs: seq<Proof>, replies: seq<Reply>)
    requires |proofs| > 0 && Positive(proofs) && Value(proofs) < WORD && Complete(proofs, replies)
    ensures var v := ClassifyReplies(proofs, Value(proofs), replies);
      && (TokenCheckState(replies) == SpentToken <==> v.AllSpent?)
      && (TokenCheckState(replies) == PendingToken <==> v.Indeterminate?)
      && (TokenCheckState(replies) == UnspentToken <==> v.NoneSpent? || v.SomeSpent?)
  {
    CompletePending(proofs, Value(proofs), replies);
    CompleteCheck(proofs, replies);
    if AllIn(proofs, SpentYs(replies)) {
      forall p | p in proofs ensures !In(p, PendingYs(replies)) {
        SpentIsNotPending(p, proofs, replies);
      }
      DefiniteExactlyWhenAnswered(proofs, Value(proofs), replies);
    }
    if Definite(ClassifyReplies(proofs, Value(proofs), replies)) {
      AnswersMean(proofs, replies, ClassifyReplies(proofs, Value(proofs), replies));
    }
  }
}
