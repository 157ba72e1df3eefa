/** A payout tick: thresholds, the rounded split, the owner first, every melt journalled. */
module PayoutPlan {
  import opened Options
  import opened Journals
  import opened PayoutJournal
  import opened PayoutRuns

  datatype Config = Config(mint: string, minBalance: nat, minPayout: nat)

  datatype Share = Share(factor: real, identity: string, address: Option<string>)

  datatype Recipient = Recipient(identity: string, amount: nat, address: Option<string>, isOwner: bool)

  // ---------------------------------------------------------------- the split

  /** Round half up, and clamp as a cast to u64 does. */
  function RoundToU64(x: real): nat {
    var n := (x + 0.5).Floor;
    if n < 0 then 0 else if n > 0xFFFF_FFFF_FFFF_FFFF then 0xFFFF_FFFF_FFFF_FFFF else n
  }

  /** The product n * f, by repeated addition so that proofs about it stay linear; see TimesIsProduct. */
  function Times(n: nat, f: real): real {
    if n == 0 then 0.0 else Times(n - 1, f) + f
  }

  lemma {:induction false} TimesIsProduct(n: nat, f: real)
    ensures Times(n, f) == n as real * f
  {
    if n > 0 {
      TimesIsProduct(n - 1, f);
      Successor((n - 1) as real, f);
      assert n as real == (n - 1) as real + 1.0;
    }
  }

  lemma Successor(a: real, f: real)
    ensures (a + 1.0) * f == a * f + f
  {}

  /** The exact part of every share. */
  function Parts(shares: seq<Share>, aimed: nat): seq<real> {
    seq(|shares|, i requires 0 <= i < |shares| => Times(aimed, shares[i].factor))
  }

  /** One recipient per share whose rounded part is not zero. */
  function Build(shares: seq<Share>, parts: seq<real>): seq<Recipient>
    requires |shares| == |parts|
  {
    if shares == [] then []
    else
      var n := |shares| - 1;
      var before, s, amount := Build(shares[..n], parts[..n]), shares[n], RoundToU64(parts[n]);
      if amount == 0 then before
      else before + [Recipient(s.identity, amount, s.address, s.identity == "owner")]
  }

  /** Shares that round to zero stay in the wallet. */
  method BuildRecipients(shares: seq<Share>, aimed: nat) returns (recipients: seq<Recipient>)
    ensures recipients == Build(shares, Parts(shares, aimed))
    ensures forall r :: r in recipients ==> r.amount > 0
  {
    recipients := [];
    ghost var parts := Parts(shares, aimed);
    for i := 0 to |shares|
      invariant recipients == Build(shares[..i], parts[..i])
      invariant forall r :: r in recipients ==> r.amount > 0
    {
      assert shares[..i + 1][..i] == shares[..i] && parts[..i + 1][..i] == parts[..i];
      var amount := RoundToU64(Times(aimed, shares[i].factor));
      assert parts[i] == Times(aimed, shares[i].factor);
      if amount != 0 {
        recipients :=
          recipients + [Recipient(shares[i].identity, amount, shares[i].address, shares[i].identity == "owner")];
      }
    }
    assert shares[..|shares|] == shares && parts[..|shares|] == parts;
  }

  function Total(recipients: seq<Recipient>): nat {
    if recipients == [] then 0 else Total(recipients[..|recipients| - 1]) + recipients[|recipients| - 1].amount
  }

  function Sum(xs: seq<real>): real {
    if xs == [] then 0.0 else Sum(xs[..|xs| - 1]) + xs[|xs| - 1]
  }

  function Factors(shares: seq<Share>): seq<real> {
    seq(|shares|, i requires 0 <= i < |shares| => shares[i].factor)
  }

  predicate Within(x: real, y: real, d: real) {
    y - d <= x <= y + d
  }

  predicate Validated(shares: seq<Share>) {
    shares != [] && Within(Sum(Factors(shares)), 1.0, 0.000001)
  }

  lemma RoundNear(x: real)
    requires 0.0 <= x <= 0xFFFF_FFFF_FFFF_FFFF as real
    ensures Within(RoundToU64(x) as real, x, 0.5)
  {}

  lemma {:induction false} RoundingBound(shares: seq<Share>, parts: seq<real>)
    requires |shares| == |parts| && forall i :: 0 <= i < |parts| ==> 0.0 <= parts[i] <= 0xFFFF_FFFF_FFFF_FFFF as real
    ensures Within(Total(Build(shares, parts)) as real, Sum(parts), |shares| as real * 0.5)
  {
    if shares != [] {
      var n := |shares| - 1;
      RoundingBound(shares[..n], parts[..n]);
      RoundNear(parts[n]);
      var all, before := Build(shares, parts), Build(shares[..n], parts[..n]);
      if RoundToU64(parts[n]) != 0 {
        assert all[..|all| - 1] == before;
      }
      assert Total(all) == Total(before) + RoundToU64(parts[n]);
    }
  }

  lemma {:induction false} TimesAdds(n: nat, x: real, y: real)
    ensures Times(n, x + y) == Times(n, x) + Times(n, y)
  {
    if n > 0 {
      TimesAdds(n - 1, x, y);
    }
  }

  lemma {:induction false} TimesMonotone(n: nat, x: real, y: real)
    requires x <= y
    ensures Times(n, x) <= Times(n, y)
  {
    if n > 0 {
      TimesMonotone(n - 1, x, y);
    }
  }

  lemma {:induction false} TimesUnit(n: nat)
    ensures Times(n, 0.0) == 0.0 && Times(n, 1.0) == n as real
  {
    if n > 0 {
      TimesUnit(n - 1);
    }
  }

  /** The exact parts add up to the aimed payment times the factors. */
  lemma {:induction false} SumOfParts(n: nat, fs: seq<real>, parts: seq<real>)
    requires |fs| == |parts| && forall i :: 0 <= i < |fs| ==> parts[i] == Times(n, fs[i])
    ensures Sum(parts) == Times(n, Sum(fs))
  {
    if fs == [] {
      TimesUnit(n);
    } else {
      SumOfParts(n, fs[..|fs| - 1], parts[..|fs| - 1]);
      TimesAdds(n, Sum(fs[..|fs| - 1]), fs[|fs| - 1]);
    }
  }

  /** What is paid out differs from the factors' share of the aimed payment by at most half a sat per entry,
      the entries that were dropped at zero included. */
  lemma {:induction false} SplitBound(shares: seq<Share>, aimed: nat)
    requires aimed <= 0xFFFF_FFFF_FFFF_FFFF && forall i :: 0 <= i < |shares| ==> 0.0 <= shares[i].factor <= 1.0
    ensures Within(Total(Build(shares, Parts(shares, aimed))) as real, Times(aimed, Sum(Factors(shares))),
                   |shares| as real * 0.5)
  {
    var parts := Parts(shares, aimed);
    forall i | 0 <= i < |parts| ensures 0.0 <= parts[i] <= 0xFFFF_FFFF_FFFF_FFFF as real {
      TimesMonotone(aimed, 0.0, shares[i].factor);
      TimesMonotone(aimed, shares[i].factor, 1.0);
      TimesUnit(aimed);
    }
    RoundingBound(shares, parts);
    SumOfParts(aimed, Factors(shares), parts);
  }

  lemma {:induction false} Drift(n: nat, f: real)
    requires Within(f, 1.0, 0.000001)
    ensures Within(Times(n, f), n as real, Times(n, 0.000001))
  {
    TimesUnit(n);
    TimesMonotone(n, f, 1.0 + 0.000001);
    TimesAdds(n, 1.0, 0.000001);
    TimesMonotone(n, 1.0, f + 0.000001);
    TimesAdds(n, f, 0.000001);
  }

  lemma Triangle(x: real, y: real, z: real, d: real, e: real)
    requires Within(x, y, d) && Within(y, z, e)
    ensures Within(x, z, d + e)
  {}

  /** With a validated configuration the plan stays within n/2 sat and a millionth of the aimed payment. */
  lemma {:induction false} ValidatedSplitBound(shares: seq<Share>, aimed: nat)
    requires aimed <= 0xFFFF_FFFF_FFFF_FFFF && forall i :: 0 <= i < |shares| ==> 0.0 <= shares[i].factor <= 1.0
    requires Validated(shares)
    ensures Within(Total(Build(shares, Parts(shares, aimed))) as real, aimed as real,
                   |shares| as real * 0.5 + Times(aimed, 0.000001))
  {
    var f, total := Sum(Factors(shares)), Total(Build(shares, Parts(shares, aimed))) as real;
    SplitBound(shares, aimed);
    Drift(aimed, f);
    Triangle(total, Times(aimed, f), aimed as real, |shares| as real * 0.5, Times(aimed, 0.000001));
  }

  predicate ShouldSkip(balance: nat, config: Config) {
    balance < config.minPayout || balance <= config.minBalance
  }

  predicate Reachable(r: Recipient) {
    r.address.Some? && '@' in r.address.value
  }

  // ---------------------------------------------------------------- one tick

  datatype MeltResult = PaidNow | AlreadyDone | AmbiguousSkipped | MeltFailed

  predicate Settled(r: MeltResult) {
    r.PaidNow? || r.AlreadyDone?
  }

  datatype MeltAnswer = MeltOk | MeltError

  /** What LNURL, the wallet and the disk answer for one recipient. */
  datatype Answers = Answers(
    invoice: Option<string>,
    unresolvedSaga: bool,
    advance: Append,
    intent: Append,
    melt: MeltAnswer,
    terminal: Append)

  datatype Call = Call(recipient: Recipient, result: MeltResult)

  datatype Outcome =
    | Skipped
    | AbortedOwnerUnreachable
    | Completed(ownerPaid: bool, reached: seq<string>, failed: seq<string>)

  /** The identities of the calls whose result is as wanted, in order. */
  function Identities(calls: seq<Call>, settled: bool): seq<string> {
    if calls == [] then []
    else
      var before, c := Identities(calls[..|calls| - 1], settled), calls[|calls| - 1];
      if Settled(c.result) == settled then before + [c.recipient.identity] else before
  }

  function Recipients(calls: seq<Call>): seq<Recipient> {
    seq(|calls|, i requires 0 <= i < |calls| => calls[i].recipient)
  }

  /** Every recipient that is reachable, or the maintainers among them. */
  function Kept(rs: seq<Recipient>, ownersToo: bool): seq<Recipient> {
    if rs == [] then []
    else
      var before, r := Kept(rs[..|rs| - 1], ownersToo), rs[|rs| - 1];
      if Reachable(r) && (ownersToo || !r.isOwner) then before + [r] else before
  }

  /** The result of a melt that the journal permits. */
  function WhenCleared(wallet: bool, a: Answers): MeltResult {
    if !a.intent.AppendOk? || !wallet then MeltFailed else if a.melt.MeltOk? then PaidNow else AmbiguousSkipped
  }

  /** The result of a melt, given the last row of its id. */
  function Attempted(last: Option<Phase>, wallet: bool, literal: bool, a: Answers): MeltResult {
    match Decide(last, literal, wallet && a.unresolvedSaga).0
    case Proceed => WhenCleared(wallet, a)
    case SkipDone => AlreadyDone
    case SkipSurface => AmbiguousSkipped
  }

  predicate Literal(r: Recipient)
    requires r.address.Some?
  {
    "lnbc" <= r.address.value
  }

  /** An address that is itself an invoice is used verbatim. */
  function InvoiceFor(r: Recipient, a: Answers): Option<string>
    requires r.address.Some?
  {
    if Literal(r) then r.address else a.invoice
  }

  /** What becomes of the melt to `r`: it fails without an invoice, and otherwise follows the last row of its id. */
  function ResultFor(j: Journal, mint: string, r: Recipient, wallet: bool, a: Answers): MeltResult
    requires r.address.Some?
  {
    match InvoiceFor(r, a)
    case None => MeltFailed
    case Some(invoice) => Attempted(LastFor(j, MeltEntry(mint, r.identity, invoice)), wallet, Literal(r), a)
  }

  /** The melt calls counted so far, and one more. */
  ghost function OneMelt(melts: map<EntryId, nat>, id: EntryId): map<EntryId, nat> {
    melts[id := (if id in melts then melts[id] else 0) + 1]
  }

  /** Every move of the run is one of a payment in `ids`. */
  ghost predicate Concerns(ms: seq<Move>, ids: iset<EntryId>) {
    forall i :: 0 <= i < |ms| ==> !ms[i].CompactFile? && !ms[i].Crash? && ms[i].id in ids
  }

  ghost function PaymentsTo(mint: string, identities: set<string>): iset<EntryId> {
    iset id: EntryId | id.MeltEntry? && id.mint == mint && id.identity in identities
  }

  function Names(rs: seq<Recipient>): set<string> {
    set i | 0 <= i < |rs| :: rs[i].identity
  }

  /** The last row such a melt leaves once its intent is durable. */
  function LastPhase(wallet: bool, a: Answers): Phase {
    if a.terminal.AppendLost? then Intent
    else if !wallet then Failed
    else if a.melt.MeltOk? then Paid
    else Ambiguous
  }

  function LastEntry(j: Journal, id: EntryId): Option<Entry> {
    if id in FoldLast(j) then Some(FoldLast(j)[id]) else None
  }

  lemma LastLogged(j: Journal, id: EntryId, entry: Entry)
    ensures LastFor(j + [Row(id, entry)], id) == Some(entry.phase)
    ensures LastEntry(j + [Row(id, entry)], id) == Some(entry)
    ensures forall k :: k != id ==> LastEntry(j + [Row(id, entry)], k) == LastEntry(j, k)
  {}

  /** The last row of an id after an attempt that the journal permits. */
  function EntryWhenCleared(last: Option<Entry>, wallet: bool, amount: nat, literal: bool, a: Answers): Option<Entry> {
    var intent := Entry(amount, literal, None, Intent);
    if a.intent.AppendLost? then last
    else if a.intent.LandedUnsynced? then Some(intent)
    else Some(intent.(phase := LastPhase(wallet, a)))
  }

  /** The last row of an id after any attempt. */
  function EntryAfter(last: Option<Entry>, wallet: bool, amount: nat, literal: bool, a: Answers): Option<Entry> {
    var phase := if last.Some? then Some(last.value.phase) else None;
    var (decision, advance) := Decide(phase, literal, wallet && a.unresolvedSaga);
    if decision == Proceed then EntryWhenCleared(last, wallet, amount, literal, a)
    else if advance.Some? && !a.advance.AppendLost? then Some(Entry(amount, literal, None, advance.value))
    else last
  }

  // ---------------------------------------------------------------- what attempts do to the melts

  /** A row stands in the way of a melt. */
  predicate Barred(last: Option<Entry>) {
    last.Some? && last.value.phase != Failed
  }

  /** A row that stays as it is, whatever is attempted. */
  predicate Sealed(last: Option<Entry>) {
    last.Some? && (last.value.phase == Paid || last.value.phase == Intent)
  }

  ghost predicate Apart(w: World, w': World, ids: iset<EntryId>) {
    forall k :: k !in ids ==> Melts(w', k) == Melts(w, k) && LastEntry(w'.file, k) == LastEntry(w.file, k)
  }

  /** At most one melt, after which no other is permitted; a melt that was paid for the amount; and none for a failure
      or for what was done before. */
  ghost predicate Attempts(w: World, w': World, id: EntryId, amount: nat, result: MeltResult) {
    var last, last' := LastEntry(w.file, id), LastEntry(w'.file, id);
    && Apart(w, w', iset{id})
    && (Sealed(last) ==> last' == last)
    && (Barred(last) ==> Melts(w', id) == Melts(w, id) && Barred(last'))
    && (Melts(w', id) == Melts(w, id) || (Melts(w', id) == Melts(w, id) + 1 && Barred(last')))
    && (result.PaidNow? ==> Melts(w', id) == Melts(w, id) + 1 && Sealed(last') && last'.value.amountSat == amount)
    && (Melts(w', id) != Melts(w, id) ==>
          result.PaidNow? || (result.AmbiguousSkipped? && last'.value.phase in {Ambiguous, Intent}))
  }

  /** The id under which a recipient is paid, when there is an invoice. */
  function IdFor(mint: string, r: Recipient, a: Answers): Option<EntryId> {
    if r.address.None? || InvoiceFor(r, a).None? then None
    else Some(MeltEntry(mint, r.identity, InvoiceFor(r, a).value))
  }

  /** When a recipient is paid, was paid before, or was not.  In every other case the payment is unclear, and is not
      tried again. */
  lemma PaidExactlyWhen(j: Journal, mint: string, r: Recipient, wallet: bool, a: Answers, result: MeltResult)
    requires r.address.Some? && result == ResultFor(j, mint, r, wallet, a)
    ensures var id := IdFor(mint, r, a);
      var last, unresolved := if id.Some? then LastFor(j, id.value) else None, wallet && a.unresolvedSaga;
      var permitted := id.Some? && (last == Some(Failed) || (last == None && !unresolved));
      && (result.PaidNow? <==> permitted && a.intent.AppendOk? && wallet && a.melt.MeltOk?)
      && (result.MeltFailed? <==> id == None || (permitted && !(a.intent.AppendOk? && wallet)))
      && (result.AlreadyDone? <==>
            (last.Some? && last.value in {Paid, TokenCreated, Delivered, DeliveryFailed, DeliveryAmbiguous}) ||
            (!("lnbc" <= r.address.value) && (last == Some(Resolved) || (last == Some(Ambiguous) && !unresolved))))
    ensures "lnbc" <= r.address.value ==> IdFor(mint, r, a) == Some(MeltEntry(mint, r.identity, r.address.value))
    ensures !("lnbc" <= r.address.value) && a.invoice.Some? ==>
      IdFor(mint, r, a) == Some(MeltEntry(mint, r.identity, a.invoice.value))
  {}

  ghost predicate Pays(w: World, w': World, mint: string, r: Recipient, a: Answers, result: MeltResult) {
    match IdFor(mint, r, a)
    case None => w' == w && result.MeltFailed?
    case Some(id) => Attempts(w, w', id, r.amount, result)
  }

  lemma LogApart(w: World, id: EntryId, entry: Entry, result: Append, ids: iset<EntryId>)
    requires id in ids
    ensures Apart(w, Log(w, id, entry, result), ids)
  {
    LastLogged(w.file, id, entry);
  }

  lemma MoveApart(w: World, m: Move, ids: iset<EntryId>)
    requires !m.CompactFile? && !m.Crash? && m.id in ids
    ensures Apart(w, Next(w, m), ids)
  {
    if m.WriteIntent? || m.NoWallet? || m.WriteOutcome? || m.OtherRow? {
      LogApart(w, m.id, m.entry, m.result, ids);
    }
  }

  /** A run over some payments leaves the melts and the last rows of all others. */
  lemma {:induction false} RunApart(w: World, ms: seq<Move>, w': World, ids: iset<EntryId>)
    requires Runs(w, ms, w') && Concerns(ms, ids)
    ensures Apart(w, w', ids)
  {
    if ms != [] {
      var prev, m := ms[..|ms| - 1], ms[|ms| - 1];
      LastMove(w, ms, w');
      RunApart(w, prev, Exec(w, prev), ids);
      MoveApart(Exec(w, prev), m, ids);
    }
  }

  lemma AttemptMade(w: World, ms: seq<Move>, w': World, id: EntryId, wallet: bool, amount: nat, literal: bool,
                    a: Answers)
    requires Runs(w, ms, w') && Concerns(ms, iset{id})
    requires var proceeds := Decide(LastFor(w.file, id), literal, wallet && a.unresolvedSaga).0 == Proceed;
      w'.melts == if proceeds && wallet && a.intent.AppendOk? then OneMelt(w.melts, id) else w.melts
    requires LastEntry(w'.file, id) == EntryAfter(LastEntry(w.file, id), wallet, amount, literal, a)
    ensures Attempts(w, w', id, amount, Attempted(LastFor(w.file, id), wallet, literal, a))
  {
    RunApart(w, ms, w', iset{id});
  }

  lemma OneMove(w: World, m: Move, w': World)
    requires Does(w, m, w')
    ensures Runs(w, [m], w')
  {
    OneMore(w, [], w, m, w');
    assert [] + [m] == [m];
  }

  lemma ClearFirst(w: World, m: Move, v: World, ms: seq<Move>, w': World, id: EntryId)
    requires m.Clear? && m.id == id && Does(w, m, v) && Runs(v, ms, w') && Concerns(ms, iset{id})
    ensures Runs(w, [m] + ms, w') && Concerns([m] + ms, iset{id})
  {
    OneMove(w, m, v);
    Chain(w, [m], v, ms, w');
  }

  lemma ConcernsMore(ms: seq<Move>, ms': seq<Move>, mint: string, rs: seq<Recipient>, r: Recipient)
    requires Concerns(ms, PaymentsTo(mint, Names(rs))) && Concerns(ms', PaymentsTo(mint, {r.identity}))
    ensures Concerns(ms + ms', PaymentsTo(mint, Names(rs + [r])))
  {
    assert (rs + [r])[|rs|].identity in Names(rs + [r]);
    forall name | name in Names(rs) ensures name in Names(rs + [r]) {
      var i :| 0 <= i < |rs| && rs[i].identity == name;
      assert (rs + [r])[i].identity == name;
    }
  }

  // ---------------------------------------------------------------- what a tick does to the melts

  /** Since `w0` the recipient's invoice was melted exactly once, and the journal has it with the amount. */
  predicate PaidOnce(w0: World, w: World, mint: string, r: Recipient, a: Answers) {
    match IdFor(mint, r, a)
    case None => false
    case Some(id) =>
      var last := LastEntry(w.file, id);
      Melts(w, id) == Melts(w0, id) + 1 && Sealed(last) && last.value.amountSat == r.amount
  }

  /** No invoice was melted twice since `w0`, and none that was melted may be again. */
  ghost predicate OnceAtMost(w0: World, w: World) {
    forall id :: Melts(w, id) == Melts(w0, id) ||
      (Melts(w, id) == Melts(w0, id) + 1 && Barred(LastEntry(w.file, id)))
  }

  /** The first `n` recipients of the plan include a maintainer who is paid under `id`. */
  predicate Tried(mint: string, plan: seq<Recipient>, n: nat, answers: nat -> Answers, id: EntryId)
    requires n <= |plan|
  {
    exists h :: 0 <= h < n && !plan[h].isOwner && IdFor(mint, plan[h], answers(h + 1)) == Some(id)
  }

  /** The call that pays the maintainer at place `i`: reported as paid only when it was, and with the result that the
      journal of the beginning calls for, unless an earlier one had the same invoice. */
  predicate CallAt(w0: World, w: World, mint: string, wallet: bool, plan: seq<Recipient>, i: nat,
                   answers: nat -> Answers, call: Call)
    requires i < |plan|
  {
    var r, a := plan[i], answers(i + 1);
    && call.recipient == r && r.address.Some?
    && (call.result.PaidNow? ==> PaidOnce(w0, w, mint, r, a))
    && ((IdFor(mint, r, a).Some? ==> !Tried(mint, plan, i, answers, IdFor(mint, r, a).value)) ==>
          call.result == ResultFor(w0.file, mint, r, wallet, a))
  }

  ghost predicate CallsMade(w0: World, w: World, mint: string, wallet: bool, plan: seq<Recipient>, n: nat,
                            answers: nat -> Answers, calls: seq<Call>)
    requires n <= |plan|
  {
    forall i :: 0 <= i < n && !plan[i].isOwner ==>
      var c := |Kept(plan[..i], false)|;
      c < |calls| && CallAt(w0, w, mint, wallet, plan, i, answers, calls[c])
  }

  /** What holds between two calls. */
  ghost predicate Underway(w0: World, w: World, mint: string, wallet: bool, plan: seq<Recipient>, n: nat,
                           answers: nat -> Answers, calls: seq<Call>)
    requires n <= |plan|
  {
    && CallsMade(w0, w, mint, wallet, plan, n, answers, calls) && OnceAtMost(w0, w)
    && Recipients(calls) == Kept(plan[..n], false)
    && forall id :: !Tried(mint, plan, n, answers, id) ==> LastEntry(w.file, id) == LastEntry(w0.file, id)
  }

  lemma StaysPaid(w0: World, w: World, w': World, id: EntryId, amount: nat, result: MeltResult, mint: string,
                  r: Recipient, a: Answers)
    requires Attempts(w, w', id, amount, result) && PaidOnce(w0, w, mint, r, a)
    ensures PaidOnce(w0, w', mint, r, a)
  {}

  lemma NowPaid(w0: World, w: World, w': World, mint: string, r: Recipient, a: Answers, result: MeltResult)
    requires OnceAtMost(w0, w) && Pays(w, w', mint, r, a, result)
    ensures OnceAtMost(w0, w') && (result.PaidNow? ==> PaidOnce(w0, w', mint, r, a))
  {}

  lemma StaysAt(w0: World, w: World, w': World, mint: string, wallet: bool, plan: seq<Recipient>, i: nat,
                answers: nat -> Answers, call: Call, r: Recipient, a: Answers, result: MeltResult)
    requires i < |plan| && CallAt(w0, w, mint, wallet, plan, i, answers, call) && Pays(w, w', mint, r, a, result)
    ensures CallAt(w0, w', mint, wallet, plan, i, answers, call)
  {
    if call.result.PaidNow? && IdFor(mint, r, a).Some? {
      StaysPaid(w0, w, w', IdFor(mint, r, a).value, r.amount, result, mint, plan[i], answers(i + 1));
    }
  }

  lemma KeptMore(rs: seq<Recipient>, i: nat, ownersToo: bool)
    requires i < |rs|
    ensures Kept(rs[..i + 1], ownersToo) ==
      if Reachable(rs[i]) && (ownersToo || !rs[i].isOwner) then Kept(rs[..i], ownersToo) + [rs[i]]
      else Kept(rs[..i], ownersToo)
  {
    assert rs[..i + 1][..i] == rs[..i];
  }

  lemma CallsMore(w0: World, w: World, w': World, mint: string, wallet: bool, plan: seq<Recipient>, n: nat,
                  answers: nat -> Answers, calls: seq<Call>, call: Call)
    requires n < |plan| && CallsMade(w0, w, mint, wallet, plan, n, answers, calls) && !plan[n].isOwner
    requires |calls| == |Kept(plan[..n], false)| && CallAt(w0, w', mint, wallet, plan, n, answers, call)
    requires Pays(w, w', mint, plan[n], answers(n + 1), call.result)
    ensures CallsMade(w0, w', mint, wallet, plan, n + 1, answers, calls + [call])
  {
    forall i | 0 <= i < n && !plan[i].isOwner
      ensures var c := |Kept(plan[..i], false)|;
        c < |calls| && CallAt(w0, w', mint, wallet, plan, i, answers, (calls + [call])[c])
    {
      StaysAt(w0, w, w', mint, wallet, plan, i, answers, calls[|Kept(plan[..i], false)|], plan[n], answers(n + 1),
              call.result);
    }
  }

  lemma TriedMore(mint: string, plan: seq<Recipient>, n: nat, answers: nat -> Answers, id: EntryId)
    requires n < |plan|
    ensures Tried(mint, plan, n + 1, answers, id) <==>
      Tried(mint, plan, n, answers, id) || (!plan[n].isOwner && IdFor(mint, plan[n], answers(n + 1)) == Some(id))
  {}

  /** One more maintainer is paid. */
  lemma StillUnderway(w0: World, w: World, w': World, mint: string, wallet: bool, plan: seq<Recipient>, n: nat,
                      answers: nat -> Answers, calls: seq<Call>, call: Call)
    requires n < |plan| && Underway(w0, w, mint, wallet, plan, n, answers, calls) && !plan[n].isOwner
    requires Reachable(plan[n])
    requires call == Call(plan[n], ResultFor(w.file, mint, plan[n], wallet, answers(n + 1)))
    requires Pays(w, w', mint, plan[n], answers(n + 1), call.result)
    ensures Underway(w0, w', mint, wallet, plan, n + 1, answers, calls + [call])
  {
    NowPaid(w0, w, w', mint, plan[n], answers(n + 1), call.result);
    assert |calls| == |Recipients(calls)|;
    CallsMore(w0, w, w', mint, wallet, plan, n, answers, calls, call);
    KeptMore(plan, n, false);
    assert Recipients(calls + [call]) == Recipients(calls) + [plan[n]];
    forall id | !Tried(mint, plan, n + 1, answers, id) ensures LastEntry(w'.file, id) == LastEntry(w0.file, id) {
      TriedMore(mint, plan, n, answers, id);
    }
  }

  /** The owner is passed over. */
  lemma PassedOver(w0: World, w: World, mint: string, wallet: bool, plan: seq<Recipient>, n: nat,
                   answers: nat -> Answers, calls: seq<Call>)
    requires n < |plan| && Underway(w0, w, mint, wallet, plan, n, answers, calls) && plan[n].isOwner
    ensures Underway(w0, w, mint, wallet, plan, n + 1, answers, calls)
  {
    KeptMore(plan, n, false);
    forall id ensures Tried(mint, plan, n + 1, answers, id) <==> Tried(mint, plan, n, answers, id) {
      TriedMore(mint, plan, n, answers, id);
    }
  }

  lemma IdentitiesMore(calls: seq<Call>, call: Call, settled: bool)
    ensures Identities(calls + [call], settled) ==
      if Settled(call.result) == settled then Identities(calls, settled) + [call.recipient.identity]
      else Identities(calls, settled)
  {
    assert (calls + [call])[..|calls|] == calls;
  }

  /** What the tick's calls did to the melts: no invoice is melted twice, and whoever is reported as paid was. */
  ghost predicate TickPays(w0: World, w: World, mint: string, wallet: bool, plan: seq<Recipient>,
                           answers: nat -> Answers, calls: seq<Call>) {
    && |calls| >= 1 && OnceAtMost(w0, w)
    && (calls[0].result.PaidNow? ==> PaidOnce(w0, w, mint, calls[0].recipient, answers(0)))
    && (Settled(calls[0].result) ==> CallsMade(w0, w, mint, wallet, plan, |plan|, answers, calls[1..]))
  }

  lemma OwnerOnly(w0: World, w: World, mint: string, owner: Recipient, a: Answers, result: MeltResult)
    requires Pays(w0, w, mint, owner, a, result) && owner.identity == "owner"
    ensures OnceAtMost(w0, w) && (result.PaidNow? ==> PaidOnce(w0, w, mint, owner, a))
    ensures Apart(w0, w, PaymentsTo(mint, {"owner"}))
  {}

  /** What holds since the owner was paid holds since the tick began. */
  lemma SinceTheTick(w0: World, w1: World, w: World, mint: string, wallet: bool, plan: seq<Recipient>, i: nat,
                     answers: nat -> Answers, call: Call)
    requires Apart(w0, w1, PaymentsTo(mint, {"owner"})) && i < |plan| && plan[i].identity != "owner"
    requires CallAt(w1, w, mint, wallet, plan, i, answers, call)
    ensures CallAt(w0, w, mint, wallet, plan, i, answers, call)
  {
    var id := IdFor(mint, plan[i], answers(i + 1));
    if id.Some? {
      assert id.value !in PaymentsTo(mint, {"owner"});
      SameLast(w0, w1, id.value);
    }
  }

  lemma SameLast(w: World, w': World, id: EntryId)
    requires LastEntry(w.file, id) == LastEntry(w'.file, id)
    ensures LastFor(w.file, id) == LastFor(w'.file, id)
  {}

  lemma BothOnce(w0: World, w1: World, w: World, mint: string, names: set<string>)
    requires OnceAtMost(w0, w1) && OnceAtMost(w1, w) && "owner" !in names
    requires Apart(w0, w1, PaymentsTo(mint, {"owner"})) && Apart(w1, w, PaymentsTo(mint, names))
    ensures OnceAtMost(w0, w)
  {
    forall id ensures Melts(w, id) == Melts(w0, id) ||
      (Melts(w, id) == Melts(w0, id) + 1 && Barred(LastEntry(w.file, id)))
    {
      assert id !in PaymentsTo(mint, {"owner"}) || id !in PaymentsTo(mint, names);
    }
  }

  lemma OwnerStaysPaid(w0: World, w1: World, w: World, mint: string, names: set<string>, owner: Recipient, a: Answers)
    requires PaidOnce(w0, w1, mint, owner, a) && owner.identity == "owner" && "owner" !in names
    requires Apart(w1, w, PaymentsTo(mint, names))
    ensures PaidOnce(w0, w, mint, owner, a)
  {
    assert IdFor(mint, owner, a).value !in PaymentsTo(mint, names);
  }

  lemma OwnerAndOthers(w0: World, w1: World, w: World, mint: string, names: set<string>, owner: Recipient, a: Answers,
                       first: MeltResult)
    requires Pays(w0, w1, mint, owner, a, first) && owner.identity == "owner" && "owner" !in names
    requires OnceAtMost(w1, w) && Apart(w1, w, PaymentsTo(mint, names))
    ensures OnceAtMost(w0, w) && (first.PaidNow? ==> PaidOnce(w0, w, mint, owner, a))
    ensures Apart(w0, w1, PaymentsTo(mint, {"owner"}))
  {
    OwnerOnly(w0, w1, mint, owner, a, first);
    BothOnce(w0, w1, w, mint, names);
    if first.PaidNow? {
      OwnerStaysPaid(w0, w1, w, mint, names, owner, a);
    }
  }

  lemma WholeTick(w0: World, w1: World, w: World, mint: string, wallet: bool, plan: seq<Recipient>,
                  answers: nat -> Answers, owner: Recipient, first: MeltResult, rest: seq<Call>)
    requires OnceAtMost(w0, w) && (first.PaidNow? ==> PaidOnce(w0, w, mint, owner, answers(0)))
    requires Apart(w0, w1, PaymentsTo(mint, {"owner"}))
    requires forall r :: r in plan && !r.isOwner ==> r.identity != "owner"
    requires CallsMade(w1, w, mint, wallet, plan, |plan|, answers, rest)
    ensures TickPays(w0, w, mint, wallet, plan, answers, [Call(owner, first)] + rest)
  {
    assert ([Call(owner, first)] + rest)[1..] == rest;
    CallsSinceTheTick(w0, w1, w, mint, wallet, plan, answers, rest);
  }

  lemma CallsSinceTheTick(w0: World, w1: World, w: World, mint: string, wallet: bool, plan: seq<Recipient>,
                          answers: nat -> Answers, rest: seq<Call>)
    requires Apart(w0, w1, PaymentsTo(mint, {"owner"}))
    requires forall r :: r in plan && !r.isOwner ==> r.identity != "owner"
    requires CallsMade(w1, w, mint, wallet, plan, |plan|, answers, rest)
    ensures CallsMade(w0, w, mint, wallet, plan, |plan|, answers, rest)
  {
    forall i | 0 <= i < |plan| && !plan[i].isOwner
      ensures var c := |Kept(plan[..i], false)|;
        c < |rest| && CallAt(w0, w, mint, wallet, plan, i, answers, rest[c])
    {
      SinceTheTick(w0, w1, w, mint, wallet, plan, i, answers, rest[|Kept(plan[..i], false)|]);
    }
  }

  /** The first recipient of the plan who is the owner. */
  predicate FirstOwner(owner: Recipient, rs: seq<Recipient>) {
    exists i :: 0 <= i < |rs| && rs[i] == owner && owner.isOwner && forall j :: 0 <= j < i ==> !rs[j].isOwner
  }

  /** Some share of the owner is worth paying and can be reached. */
  predicate OwnerReachable(shares: seq<Share>, parts: seq<real>)
    requires |shares| == |parts|
  {
    exists i :: 0 <= i < |shares| && shares[i].identity == "owner" && RoundToU64(parts[i]) != 0 &&
      shares[i].address.Some? && '@' in shares[i].address.value
  }

  class PayoutDesk {
    var file: Journal
    ghost var history: Journal
    ghost var unsynced: nat
    ghost var stages: map<EntryId, Stage>
    ghost var melts: map<EntryId, nat>

    constructor ()
      ensures State() == EMPTY
    {
      file := [];
      history, unsynced, stages, melts := [], 0, map[], map[];
    }

    ghost function State(): World
      reads this
    {
      World(file, history, unsynced, stages, melts)
    }

    method AppendEntry(id: EntryId, entry: Entry, result: Append) returns (ok: bool)
      modifies this`file, this`history, this`unsynced
      ensures State() == Log(old(State()), id, entry, result) && ok == result.AppendOk?
    {
      if !result.AppendLost? {
        file := file + [Row(id, entry)];
        history := history + [Row(id, entry)];
        unsynced := if result.AppendOk? then 0 else unsynced + 1;
      }
      ok := result.AppendOk?;
    }

    /** No melt is under way in this task. */
    ghost predicate AtRest()
      reads this
    {
      stages.Values <= {Resting}
    }

    /** The journal is compacted in place once it is long. */
    method CompactJournal(threshold: nat)
      modifies this`file, this`unsynced
      ensures |old(file)| > threshold ==> Does(old(State()), CompactFile, State())
      ensures |old(file)| <= threshold ==> State() == old(State())
    {
      var compacted, changed := CompactIfLarge(file, threshold);
      if changed {
        file, unsynced := compacted, 0;
      }
    }

    /** An ambiguity that has settled is advanced first; the result of that append is not waited for. */
    method Advance(id: EntryId, entry: Entry, result: Append) returns (ghost trace: seq<Move>)
      requires entry.phase == Resolved && LastFor(file, id) == Some(Ambiguous)
      modifies this`file, this`history, this`unsynced
      ensures Runs(old(State()), trace, State()) && Concerns(trace, iset{id})
      ensures LastEntry(file, id) == if result.AppendLost? then LastEntry(old(file), id) else Some(entry)
    {
      ghost var w0 := State();
      LastLogged(file, id, entry);
      var _ := AppendEntry(id, entry, result);
      OneMore(w0, [], w0, OtherRow(id, entry, result), State());
      trace := [] + [OtherRow(id, entry, result)];
    }

    /** The only melt under way is that of `id`. */
    ghost predicate OthersRest(id: EntryId)
      reads this
    {
      forall k :: k != id && k in stages ==> stages[k] == Resting
    }

    method Begin(id: EntryId, literal: bool, unresolved: bool)
      requires AtRest() && id.MeltEntry? && Decide(LastFor(file, id), literal, unresolved).0 == Proceed
      modifies this`stages
      ensures Does(old(State()), Clear(id, literal, unresolved), State())
      ensures StageOf(State(), id) == Cleared && OthersRest(id)
    {
      assert forall k :: k in stages ==> stages[k] in stages.Values;
      stages := stages[id := Cleared];
    }

    method WriteIntentRow(id: EntryId, intent: Entry, result: Append) returns (ok: bool)
      requires StageOf(State(), id) == Cleared && OthersRest(id) && intent.phase == Intent
      modifies this`stages, this`file, this`history, this`unsynced
      ensures Does(old(State()), WriteIntent(id, intent, result), State()) && ok == result.AppendOk?
      ensures ok ==> StageOf(State(), id) == IntentWritten && OthersRest(id)
      ensures !ok ==> AtRest()
      ensures LastEntry(file, id) == if result.AppendLost? then LastEntry(old(file), id) else Some(intent)
    {
      LastLogged(file, id, intent);
      ok := AppendEntry(id, intent, result);
      stages := stages[id := if ok then IntentWritten else Resting];
    }

    method RecordNoWallet(id: EntryId, entry: Entry, result: Append)
      requires StageOf(State(), id) == IntentWritten && OthersRest(id) && entry.phase == Failed
      modifies this`stages, this`file, this`history, this`unsynced
      ensures Does(old(State()), NoWallet(id, entry, result), State()) && AtRest()
      ensures LastEntry(file, id) == if result.AppendLost? then LastEntry(old(file), id) else Some(entry)
    {
      LastLogged(file, id, entry);
      var _ := AppendEntry(id, entry, result);
      stages := stages[id := Resting];
    }

    method CallMelt(id: EntryId)
      requires StageOf(State(), id) == IntentWritten && OthersRest(id)
      modifies this`stages, this`melts
      ensures Does(old(State()), Melt(id), State())
      ensures StageOf(State(), id) == Melted && OthersRest(id)
      ensures melts == OneMelt(old(melts), id)
    {
      melts := OneMelt(melts, id);
      stages := stages[id := Melted];
    }

    method RecordOutcome(id: EntryId, entry: Entry, result: Append)
      requires StageOf(State(), id) == Melted && OthersRest(id) && (entry.phase == Paid || entry.phase == Ambiguous)
      modifies this`stages, this`file, this`history, this`unsynced
      ensures Does(old(State()), WriteOutcome(id, entry, result), State()) && AtRest()
      ensures LastEntry(file, id) == if result.AppendLost? then LastEntry(old(file), id) else Some(entry)
    {
      LastLogged(file, id, entry);
      var _ := AppendEntry(id, entry, result);
      stages := stages[id := Resting];
    }

    /** The journalled melt: decide by the last row, write the intent, melt, write the outcome. */
    method JournalledMelt(wallet: bool, id: EntryId, amount: nat, literal: bool, a: Answers)
      returns (result: MeltResult, ghost trace: seq<Move>)
      requires AtRest() && id.MeltEntry?
      modifies this
      ensures Runs(old(State()), trace, State()) && AtRest() && Concerns(trace, iset{id})
      ensures result == Attempted(LastFor(old(file), id), wallet, literal, a)
      ensures var proceeds := Decide(LastFor(old(file), id), literal, wallet && a.unresolvedSaga).0 == Proceed;
        melts == if proceeds && wallet && a.intent.AppendOk? then OneMelt(old(melts), id) else old(melts)
      ensures LastEntry(file, id) == EntryAfter(LastEntry(old(file), id), wallet, amount, literal, a)
      ensures Attempts(old(State()), State(), id, amount, result)
    {
      ghost var w0 := State();
      result, trace := FollowJournal(wallet, id, amount, literal, a);
      AttemptMade(w0, trace, State(), id, wallet, amount, literal, a);
    }

    /** Decide by the last row of the id, advance it when its ambiguity has settled, and melt when it permits. */
    method FollowJournal(wallet: bool, id: EntryId, amount: nat, literal: bool, a: Answers)
      returns (result: MeltResult, ghost trace: seq<Move>)
      requires AtRest() && id.MeltEntry?
      modifies this
      ensures Runs(old(State()), trace, State()) && AtRest() && Concerns(trace, iset{id})
      ensures result == Attempted(LastFor(old(file), id), wallet, literal, a)
      ensures var proceeds := Decide(LastFor(old(file), id), literal, wallet && a.unresolvedSaga).0 == Proceed;
        melts == if proceeds && wallet && a.intent.AppendOk? then OneMelt(old(melts), id) else old(melts)
      ensures LastEntry(file, id) == EntryAfter(LastEntry(old(file), id), wallet, amount, literal, a)
    {
      trace := [];
      var folded := Fold(file);
      var last := if id in folded then Some(folded[id].phase) else None;
      var unresolved := wallet && a.unresolvedSaga;
      var (decision, advance) := Decide(last, literal, unresolved);
      if advance.Some? {
        trace := Advance(id, Entry(amount, literal, None, advance.value), a.advance);
      }
      match decision
      case SkipDone => result := AlreadyDone;
      case SkipSurface => result := AmbiguousSkipped;
      case Proceed => result, trace := MeltCleared(wallet, id, amount, literal, a);
    }

    /** The journal permits the melt. */
    method MeltCleared(wallet: bool, id: EntryId, amount: nat, literal: bool, a: Answers)
      returns (result: MeltResult, ghost trace: seq<Move>)
      requires AtRest() && id.MeltEntry?
      requires Decide(LastFor(file, id), literal, wallet && a.unresolvedSaga).0 == Proceed
      modifies this
      ensures Runs(old(State()), trace, State()) && AtRest() && Concerns(trace, iset{id})
      ensures result == WhenCleared(wallet, a)
      ensures melts == if wallet && a.intent.AppendOk? then OneMelt(old(melts), id) else old(melts)
      ensures LastEntry(file, id) == EntryWhenCleared(LastEntry(old(file), id), wallet, amount, literal, a)
    {
      ghost var w0, m := State(), Clear(id, literal, wallet && a.unresolvedSaga);
      Begin(id, literal, wallet && a.unresolvedSaga);
      ghost var w1 := State();
      result, trace := MeltWithIntent(wallet, id, amount, literal, a);
      ClearFirst(w0, m, w1, trace, State(), id);
      trace := [m] + trace;
    }

    method MeltWithIntent(wallet: bool, id: EntryId, amount: nat, literal: bool, a: Answers)
      returns (result: MeltResult, ghost trace: seq<Move>)
      requires StageOf(State(), id) == Cleared && OthersRest(id)
      modifies this
      ensures Runs(old(State()), trace, State()) && AtRest() && Concerns(trace, iset{id})
      ensures result == WhenCleared(wallet, a)
      ensures melts == if wallet && a.intent.AppendOk? then OneMelt(old(melts), id) else old(melts)
      ensures LastEntry(file, id) == EntryWhenCleared(LastEntry(old(file), id), wallet, amount, literal, a)
    {
      ghost var w0 := State();
      var intent := Entry(amount, literal, None, Intent);
      var ok := WriteIntentRow(id, intent, a.intent);
      ghost var w1 := State();
      OneMore(w0, [], w0, WriteIntent(id, intent, a.intent), w1);
      trace := [] + [WriteIntent(id, intent, a.intent)];
      result := MeltFailed;
      if ok {
        ghost var t;
        result, t := MeltAfterIntent(wallet, id, intent, a);
        Chain(w0, trace, w1, t, State());
        trace := trace + t;
      }
    }

    /** Without a wallet the intent is followed by a failure, which permits the next attempt. */
    method MeltAfterIntent(wallet: bool, id: EntryId, intent: Entry, a: Answers)
      returns (result: MeltResult, ghost trace: seq<Move>)
      requires StageOf(State(), id) == IntentWritten && OthersRest(id) && intent.phase == Intent
      requires LastEntry(file, id) == Some(intent)
      modifies this
      ensures Runs(old(State()), trace, State()) && AtRest() && Concerns(trace, iset{id})
      ensures result == if !wallet then MeltFailed else if a.melt.MeltOk? then PaidNow else AmbiguousSkipped
      ensures melts == if wallet then OneMelt(old(melts), id) else old(melts)
      ensures LastEntry(file, id) == Some(intent.(phase := LastPhase(wallet, a)))
    {
      if wallet {
        result, trace := MeltOnce(id, intent, a);
      } else {
        ghost var w0, m := State(), NoWallet(id, intent.(phase := Failed), a.terminal);
        RecordNoWallet(id, intent.(phase := Failed), a.terminal);
        OneMore(w0, [], w0, m, State());
        result, trace := MeltFailed, [] + [m];
      }
    }

    /** Every error from the melt call itself is ambiguous: the payment may have fired. */
    method MeltOnce(id: EntryId, intent: Entry, a: Answers) returns (result: MeltResult, ghost trace: seq<Move>)
      requires StageOf(State(), id) == IntentWritten && OthersRest(id)
      modifies this
      ensures Runs(old(State()), trace, State()) && AtRest() && Concerns(trace, iset{id})
      ensures melts == OneMelt(old(melts), id)
      ensures result == if a.melt.MeltOk? then PaidNow else AmbiguousSkipped
      ensures LastEntry(file, id) ==
        if a.terminal.AppendLost? then LastEntry(old(file), id)
        else Some(intent.(phase := if a.melt.MeltOk? then Paid else Ambiguous))
    {
      ghost var w0 := State();
      CallMelt(id);
      ghost var w1 := State();
      OneMore(w0, [], w0, Melt(id), w1);
      trace := [] + [Melt(id)];
      var outcome := intent.(phase := if a.melt.MeltOk? then Paid else Ambiguous);
      RecordOutcome(id, outcome, a.terminal);
      OneMore(w0, trace, w1, WriteOutcome(id, outcome, a.terminal), State());
      trace := trace + [WriteOutcome(id, outcome, a.terminal)];
      result := if a.melt.MeltOk? then PaidNow else AmbiguousSkipped;
    }

    /** An address that is itself an invoice is melted verbatim; any other is asked for a new one. */
    method MeltToLightning(wallet: bool, mint: string, r: Recipient, a: Answers)
      returns (call: Call, ghost trace: seq<Move>)
      requires AtRest() && r.address.Some?
      modifies this
      ensures Runs(old(State()), trace, State()) && AtRest()
      ensures call == Call(r, ResultFor(old(file), mint, r, wallet, a))
      ensures Pays(old(State()), State(), mint, r, a, call.result)
      ensures Concerns(trace, PaymentsTo(mint, {r.identity}))
    {
      trace := [];
      var literal := Literal(r);
      if !literal && a.invoice.None? {
        return Call(r, MeltFailed), trace;
      }
      var invoice := if literal then r.address.value else a.invoice.value;
      var result;
      result, trace := JournalledMelt(wallet, MeltEntry(mint, r.identity, invoice), r.amount, literal, a);
      call := Call(r, result);
    }

    // -------------------------------------------------------------- the plan

    method Reach(recipients: seq<Recipient>) returns (reachable: seq<Recipient>)
      ensures reachable == Kept(recipients, true)
      ensures forall r :: r in reachable ==> r.address.Some?
    {
      reachable := [];
      for i := 0 to |recipients|
        invariant reachable == Kept(recipients[..i], true)
        invariant forall r :: r in reachable ==> r.address.Some?
      {
        assert recipients[..i + 1][..i] == recipients[..i];
        if Reachable(recipients[i]) {
          reachable := reachable + [recipients[i]];
        }
      }
      assert recipients[..|recipients|] == recipients;
    }

    method FindOwner(rs: seq<Recipient>) returns (owner: Option<Recipient>)
      ensures owner == None <==> forall r :: r in rs ==> !r.isOwner
      ensures owner.Some? ==> FirstOwner(owner.value, rs)
    {
      for i := 0 to |rs|
        invariant forall j :: 0 <= j < i ==> !rs[j].isOwner
      {
        if rs[i].isOwner {
          return Some(rs[i]);
        }
      }
      owner := None;
    }

    /** Pay the maintainers in order, each whatever became of the others. */
    method PayMaintainers(wallet: bool, mint: string, reachable: seq<Recipient>, answers: nat -> Answers)
      returns (calls: seq<Call>, reached: seq<string>, failed: seq<string>, ghost trace: seq<Move>)
      requires AtRest() && forall i :: 0 <= i < |reachable| ==> Reachable(reachable[i])
      modifies this
      ensures Runs(old(State()), trace, State()) && AtRest()
      ensures Concerns(trace, PaymentsTo(mint, Names(Kept(reachable, false))))
      ensures Recipients(calls) == Kept(reachable, false)
      ensures reached == Identities(calls, true) && failed == Identities(calls, false)
      ensures Underway(old(State()), State(), mint, wallet, reachable, |reachable|, answers, calls)
    {
      ghost var w0 := State();
      calls, reached, failed, trace := [], [], [], [];
      for i := 0 to |reachable|
        invariant Runs(w0, trace, State()) && AtRest()
        invariant Concerns(trace, PaymentsTo(mint, Names(Kept(reachable[..i], false))))
        invariant Underway(w0, State(), mint, wallet, reachable, i, answers, calls)
        invariant reached == Identities(calls, true) && failed == Identities(calls, false)
      {
        KeptMore(reachable, i, false);
        if reachable[i].isOwner {
          PassedOver(w0, State(), mint, wallet, reachable, i, answers, calls);
        } else {
          var call;
          call, trace := PayMaintainer(wallet, mint, reachable, i, answers, w0, trace, calls);
          IdentitiesMore(calls, call, true);
          IdentitiesMore(calls, call, false);
          calls := calls + [call];
          if Settled(call.result) {
            reached := reached + [call.recipient.identity];
          } else {
            failed := failed + [call.recipient.identity];
          }
        }
      }
      assert reachable[..|reachable|] == reachable;
    }

    /** One maintainer, at place `i` of the plan. */
    method PayMaintainer(wallet: bool, mint: string, plan: seq<Recipient>, i: nat, answers: nat -> Answers,
                         ghost w0: World, ghost before: seq<Move>, ghost calls: seq<Call>)
      returns (call: Call, ghost trace: seq<Move>)
      requires AtRest() && i < |plan| && Reachable(plan[i]) && !plan[i].isOwner
      requires Runs(w0, before, State()) && Concerns(before, PaymentsTo(mint, Names(Kept(plan[..i], false))))
      requires Underway(w0, State(), mint, wallet, plan, i, answers, calls)
      modifies this
      ensures Runs(w0, trace, State()) && AtRest()
      ensures Concerns(trace, PaymentsTo(mint, Names(Kept(plan[..i + 1], false))))
      ensures Underway(w0, State(), mint, wallet, plan, i + 1, answers, calls + [call])
      ensures call.recipient == plan[i]
    {
      ghost var v := State();
      ghost var t;
      call, t := MeltToLightning(wallet, mint, plan[i], answers(i + 1));
      Chain(w0, before, v, t, State());
      ConcernsMore(before, t, mint, Kept(plan[..i], false), plan[i]);
      KeptMore(plan, i, false);
      trace := before + t;
      StillUnderway(w0, v, State(), mint, wallet, plan, i, answers, calls, call);
    }

    /** The first `ownerPart` moves melt for the owner only, all others for the maintainers only. */
    static ghost predicate OwnerFirst(trace: seq<Move>, ownerPart: nat, mint: string, plan: seq<Recipient>) {
      && ownerPart <= |trace|
      && Concerns(trace[..ownerPart], PaymentsTo(mint, {"owner"}))
      && Concerns(trace[ownerPart..], PaymentsTo(mint, Names(Kept(plan, false))))
      && "owner" !in Names(Kept(plan, false))
    }

    /** What the tick's calls and their results must be, given the result of the owner's. */
    static predicate Reported(outcome: Outcome, calls: seq<Call>, plan: seq<Recipient>) {
      && outcome.Completed? && |calls| >= 1
      && (outcome.ownerPaid <==> calls[0].result.PaidNow? || calls[0].result.AlreadyDone?)
      && (if outcome.ownerPaid then Recipients(calls[1..]) == Kept(plan, false) else calls == [calls[0]])
      && outcome.reached == Identities(calls[1..], true) && outcome.failed == Identities(calls[1..], false)
    }

    /** The owner, and only when that is settled the maintainers. */
    method PayReachable(mint: string, owner: Recipient, reachable: seq<Recipient>, wallet: bool,
                        answers: nat -> Answers)
      returns (outcome: Outcome, calls: seq<Call>, ghost trace: seq<Move>, ghost ownerPart: nat)
      requires AtRest() && owner.identity == "owner" && owner.address.Some?
      requires forall r :: r in reachable ==> Reachable(r) && (r.isOwner <==> r.identity == "owner")
      requires "owner" !in Names(Kept(reachable, false))
      modifies this
      ensures Runs(old(State()), trace, State()) && AtRest()
      ensures OwnerFirst(trace, ownerPart, mint, reachable) && Reported(outcome, calls, reachable)
      ensures calls[0] == Call(owner, ResultFor(old(file), mint, owner, wallet, answers(0)))
      ensures !outcome.ownerPaid ==> ownerPart == |trace|
      ensures TickPays(old(State()), State(), mint, wallet, reachable, answers, calls)
    {
      ghost var w0 := State();
      var first;
      first, trace := MeltToLightning(wallet, mint, owner, answers(0));
      ownerPart := |trace|;
      assert trace[..ownerPart] == trace && trace[ownerPart..] == [];
      ghost var w1 := State();
      OwnerOnly(w0, w1, mint, owner, answers(0), first.result);
      if !Settled(first.result) {
        return Completed(false, [], []), [first], trace, ownerPart;
      }
      var rest, reached, failed;
      ghost var t;
      rest, reached, failed, t := PayMaintainers(wallet, mint, reachable, answers);
      Chain(w0, trace, w1, t, State());
      ghost var names := Names(Kept(reachable, false));
      RunApart(w1, t, State(), PaymentsTo(mint, names));
      OwnerAndOthers(w0, w1, State(), mint, names, owner, answers(0), first.result);
      WholeTick(w0, w1, State(), mint, wallet, reachable, answers, owner, first.result, rest);
      assert (trace + t)[..ownerPart] == trace && (trace + t)[ownerPart..] == t;
      trace := trace + t;
      calls := [first] + rest;
      assert calls[1..] == rest;
      outcome := Completed(true, reached, failed);
    }

    /** One tick.  The melts of the first `ownerPart` moves are the owner's and all others the maintainers'; unless the
        owner's melt is settled there are no others, and then every reachable maintainer is tried in the order of
        the plan. */
    method ProcessPayout(config: Config, shares: seq<Share>, balance: nat, wallet: bool, answers: nat -> Answers)
      returns (outcome: Outcome, calls: seq<Call>, ghost trace: seq<Move>, ghost ownerPart: nat)
      requires AtRest()
      modifies this
      ensures Runs(old(State()), trace, State()) && AtRest()
      ensures outcome.Skipped? <==>
        balance < config.minPayout || balance <= config.minBalance ||
        Build(shares, Parts(shares, balance - config.minBalance)) == []
      ensures outcome.Completed? <==>
        balance >= config.minPayout && balance > config.minBalance &&
        OwnerReachable(shares, Parts(shares, balance - config.minBalance))
      ensures !outcome.Completed? ==> calls == [] && State() == old(State()) && trace == []
      ensures outcome.Completed? ==>
        var plan := Kept(Build(shares, Parts(shares, balance - config.minBalance)), true);
        && OwnerFirst(trace, ownerPart, config.mint, plan) && Reported(outcome, calls, plan)
        && (!outcome.ownerPaid ==> ownerPart == |trace|)
        && TickPays(old(State()), State(), config.mint, wallet, plan, answers, calls)
        && var owner := calls[0].recipient;
        && FirstOwner(owner, plan) && owner.address.Some?
        && calls[0].result == ResultFor(old(file), config.mint, owner, wallet, answers(0))
    {
      trace, calls, ownerPart := [], [], 0;
      if ShouldSkip(balance, config) {
        return Skipped, calls, trace, 0;
      }
      var recipients := BuildRecipients(shares, balance - config.minBalance);
      OwnerIsKept(shares, Parts(shares, balance - config.minBalance), Kept(recipients, true));
      if recipients == [] {
        return Skipped, calls, trace, 0;
      }
      var reachable := Reach(recipients);
      var owner := FindOwner(reachable);
      if owner.None? {
        return AbortedOwnerUnreachable, calls, trace, 0;
      }
      KeptAreNamed(shares, Parts(shares, balance - config.minBalance), reachable);
      outcome, calls, trace, ownerPart := PayReachable(config.mint, owner.value, reachable, wallet, answers);
    }
  }

  lemma {:induction false} KeptAre(rs: seq<Recipient>, ownersToo: bool)
    ensures forall r :: r in Kept(rs, ownersToo) <==> r in rs && Reachable(r) && (ownersToo || !r.isOwner)
  {
    if rs != [] {
      KeptAre(rs[..|rs| - 1], ownersToo);
      assert forall r :: r in rs <==> r in rs[..|rs| - 1] || r == rs[|rs| - 1];
    }
  }

  /** The recipient that a share gets, when its part is not zero. */
  function RecipientOf(s: Share, part: real): Recipient {
    Recipient(s.identity, RoundToU64(part), s.address, s.identity == "owner")
  }

  lemma BuildSnoc(shares: seq<Share>, parts: seq<real>)
    requires |shares| == |parts| > 0
    ensures var n := |shares| - 1;
      Build(shares, parts) == Build(shares[..n], parts[..n]) +
        if RoundToU64(parts[n]) == 0 then [] else [RecipientOf(shares[n], parts[n])]
  {}

  lemma {:induction false} BuiltAt(shares: seq<Share>, parts: seq<real>, i: nat)
    requires |shares| == |parts| && i < |shares| && RoundToU64(parts[i]) != 0
    ensures var place := |Build(shares[..i], parts[..i])|;
      place < |Build(shares, parts)| && Build(shares, parts)[place] == RecipientOf(shares[i], parts[i])
  {
    var n := |shares| - 1;
    BuildSnoc(shares, parts);
    if i < n {
      BuiltAt(shares[..n], parts[..n], i);
      assert shares[..n][..i] == shares[..i] && parts[..n][..i] == parts[..i];
    }
  }

  lemma {:induction false} BuiltFrom(shares: seq<Share>, parts: seq<real>, r: Recipient) returns (i: nat)
    requires |shares| == |parts| && r in Build(shares, parts)
    ensures i < |shares| && RoundToU64(parts[i]) != 0 && r == RecipientOf(shares[i], parts[i])
  {
    var n := |shares| - 1;
    BuildSnoc(shares, parts);
    if r in Build(shares[..n], parts[..n]) {
      i := BuiltFrom(shares[..n], parts[..n], r);
    } else {
      i := n;
    }
  }

  /** Who is built: the shares with a part, each at the place that the shares before it leave, and nobody else. */
  lemma BuiltAre(shares: seq<Share>, parts: seq<real>)
    requires |shares| == |parts|
    ensures forall i :: 0 <= i < |shares| && RoundToU64(parts[i]) != 0 ==>
      var place := |Build(shares[..i], parts[..i])|;
      place < |Build(shares, parts)| && Build(shares, parts)[place] == RecipientOf(shares[i], parts[i])
    ensures forall r :: r in Build(shares, parts) ==>
      exists i :: 0 <= i < |shares| && RoundToU64(parts[i]) != 0 && r == RecipientOf(shares[i], parts[i])
  {
    forall i | 0 <= i < |shares| && RoundToU64(parts[i]) != 0
      ensures var place := |Build(shares[..i], parts[..i])|;
        place < |Build(shares, parts)| && Build(shares, parts)[place] == RecipientOf(shares[i], parts[i])
    {
      BuiltAt(shares, parts, i);
    }
    forall r | r in Build(shares, parts)
      ensures exists i :: 0 <= i < |shares| && RoundToU64(parts[i]) != 0 && r == RecipientOf(shares[i], parts[i])
    {
      var i := BuiltFrom(shares, parts, r);
    }
  }

  /** An owner is among the reachable exactly when a share of the owner is worth paying and can be reached. */
  lemma OwnerIsKept(shares: seq<Share>, parts: seq<real>, reachable: seq<Recipient>)
    requires |shares| == |parts| && reachable == Kept(Build(shares, parts), true)
    ensures OwnerReachable(shares, parts) <==> exists r :: r in reachable && r.isOwner
    ensures OwnerReachable(shares, parts) ==> Build(shares, parts) != []
  {
    BuiltAre(shares, parts);
    KeptAre(Build(shares, parts), true);
    if OwnerReachable(shares, parts) {
      var i :| 0 <= i < |shares| && shares[i].identity == "owner" && RoundToU64(parts[i]) != 0 &&
        shares[i].address.Some? && '@' in shares[i].address.value;
      var r := RecipientOf(shares[i], parts[i]);
      assert Build(shares, parts)[|Build(shares[..i], parts[..i])|] == r;
      assert r in reachable && r.isOwner;
    }
    if r :| r in reachable && r.isOwner {
      var i :| 0 <= i < |shares| && RoundToU64(parts[i]) != 0 && r == RecipientOf(shares[i], parts[i]);
    }
  }

  /** The recipient of the share, with its factor's part of the aimed payment to half a sat. */
  predicate GetsShare(r: Recipient, s: Share, aimed: nat) {
    r.identity == s.identity && r.address == s.address && Within(r.amount as real, aimed as real * s.factor, 0.5)
  }

  /** Its part is half a sat or more. */
  predicate WorthPaying(s: Share, aimed: nat) {
    aimed as real * s.factor >= 0.5
  }

  /** Everybody who is paid gets their own factor's share of the aimed payment, to half a sat; and whose share is half a
      sat or more is in the plan. */
  lemma {:induction false} EachGetsTheirShare(shares: seq<Share>, aimed: nat, recipients: seq<Recipient>)
    requires aimed <= 0xFFFF_FFFF_FFFF_FFFF && forall i :: 0 <= i < |shares| ==> 0.0 <= shares[i].factor <= 1.0
    requires recipients == Build(shares, Parts(shares, aimed))
    ensures forall r :: r in recipients ==> exists i :: 0 <= i < |shares| && GetsShare(r, shares[i], aimed)
    ensures forall i :: 0 <= i < |shares| && WorthPaying(shares[i], aimed) ==>
      exists r :: r in recipients && GetsShare(r, shares[i], aimed)
    ensures |recipients| <= |shares|
  {
    var parts := Parts(shares, aimed);
    BuiltAre(shares, parts);
    BuiltNoMore(shares, parts);
    forall i | 0 <= i < |shares|
      ensures GetsShare(RecipientOf(shares[i], parts[i]), shares[i], aimed)
      ensures WorthPaying(shares[i], aimed) ==> RoundToU64(parts[i]) != 0
    {
      PartNear(shares, aimed, i);
    }
    forall i | 0 <= i < |shares| && WorthPaying(shares[i], aimed)
      ensures exists r :: r in recipients && GetsShare(r, shares[i], aimed)
    {
      assert recipients[|Build(shares[..i], parts[..i])|] == RecipientOf(shares[i], parts[i]);
    }
  }

  lemma PartNear(shares: seq<Share>, aimed: nat, i: nat)
    requires aimed <= 0xFFFF_FFFF_FFFF_FFFF && i < |shares| && 0.0 <= shares[i].factor <= 1.0
    ensures GetsShare(RecipientOf(shares[i], Parts(shares, aimed)[i]), shares[i], aimed)
    ensures WorthPaying(shares[i], aimed) ==> RoundToU64(Parts(shares, aimed)[i]) != 0
  {
    TimesIsProduct(aimed, shares[i].factor);
    TimesMonotone(aimed, 0.0, shares[i].factor);
    TimesMonotone(aimed, shares[i].factor, 1.0);
    TimesUnit(aimed);
    RoundNear(Parts(shares, aimed)[i]);
  }

  lemma {:induction false} BuiltNoMore(shares: seq<Share>, parts: seq<real>)
    requires |shares| == |parts|
    ensures |Build(shares, parts)| <= |shares|
  {
    if shares != [] {
      BuiltNoMore(shares[..|shares| - 1], parts[..|shares| - 1]);
    }
  }

  /** The owner is who bears that name. */
  lemma {:induction false} BuiltOwners(shares: seq<Share>, parts: seq<real>)
    requires |shares| == |parts|
    ensures forall r :: r in Build(shares, parts) ==> (r.isOwner <==> r.identity == "owner")
  {
    if shares != [] {
      BuiltOwners(shares[..|shares| - 1], parts[..|shares| - 1]);
    }
  }

  lemma {:induction false} KeptAreNamed(shares: seq<Share>, parts: seq<real>, reachable: seq<Recipient>)
    requires |shares| == |parts| && reachable == Kept(Build(shares, parts), true)
    ensures forall r :: r in reachable ==> Reachable(r) && (r.isOwner <==> r.identity == "owner")
    ensures "owner" !in Names(Kept(reachable, false))
  {
    BuiltOwners(shares, parts);
    KeptAre(Build(shares, parts), true);
    KeptAre(reachable, false);
    forall i | 0 <= i < |Kept(reachable, false)| ensures Kept(reachable, false)[i].identity != "owner" {
      assert Kept(reachable, false)[i] in Kept(reachable, false);
    }
  }
}
