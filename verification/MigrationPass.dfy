/** The import pass and its ending, statement by statement: the counters, what a clean pass means, the completion
    marker, and when wallet.db may be renamed. */
module MigrationPass {
  import opened Options
  import opened Journals
  import opened MigrationRuns
  import opened Text

  datatype Summary = Summary(
    imported: nat,
    failed: nat,
    skipped: nat,
    pending: nat,
    spent: nat,
    spentSat: nat,
    partiallySpent: nat,
    partiallySpentUnspentSat: nat,
    remainderRecoveredSat: nat)

  const NOTHING: Summary := Summary(0, 0, 0, 0, 0, 0, 0, 0, 0)

  function SaturatingSub(a: nat, b: nat): nat {
    if b > a then 0 else a - b
  }

  function TallyReceive(s: Summary, r: Receive): Summary {
    match r
    case Received(amount) => s.(imported := s.imported + amount)
    case TimedOut => s.(pending := s.pending + 1)
    case Rejected => s.(failed := s.failed + 1)
  }

  function TallySalvage(s: Summary, unspent: nat, r: Remainder): Summary {
    var left := s.partiallySpentUnspentSat + unspent;
    if r.Recovered? then
      s.(partiallySpent := s.partiallySpent + 1,
         remainderRecoveredSat := s.remainderRecoveredSat + r.sat,
         partiallySpentUnspentSat := SaturatingSub(left, r.sat))
    else
      s.(partiallySpent := s.partiallySpent + 1, partiallySpentUnspentSat := left)
  }

  function TallyDone(s: Summary, o: Outcome): Summary {
    match o
    case Imported(_) => s.(skipped := s.skipped + 1)
    case Spent(amount) => s.(spent := s.spent + 1, spentSat := s.spentSat + amount)
    case PartiallySpent(_, unspent) => TallySalvage(s, unspent, NothingLeft)
    case RemainderImported(_, sat) =>
      s.(partiallySpent := s.partiallySpent + 1, remainderRecoveredSat := s.remainderRecoveredSat + sat)
    case Failed => s
    case Pending => s
  }

  /** What one token adds to the counters. */
  function Tally(s: Summary, last: Option<Outcome>, a: Answers): Summary {
    if Done(last) then TallyDone(s, last.value)
    else if Untouchable(last, a) then s.(pending := s.pending + 1)
    else
      match a.check
      case AllSpent(amount) => s.(spent := s.spent + 1, spentSat := s.spentSat + amount)
      case SomeSpent(_, unspent) => TallySalvage(s, unspent, a.remainder)
      case Indeterminate => s.(pending := s.pending + 1)
      case Unspent => TallyReceive(s, a.receive)
      case CheckFailed => TallyReceive(s, a.receive)
  }

  function TallyAll(tokens: seq<string>, already: map<string, Outcome>, answers: string -> Answers): Summary {
    if tokens == [] then NOTHING
    else
      var t := tokens[|tokens| - 1];
      Tally(TallyAll(tokens[..|tokens| - 1], already, answers), LastOf(already, t), answers(t))
  }

  predicate Clean(s: Summary) {
    s.failed == 0 && s.pending == 0
  }

  // ---------------------------------------------------------------- what the counters count

  /** The value and the number of the whole tokens that the wallet received. */
  function ReceivedSat(es: seq<Event>): nat {
    if es == [] then 0
    else
      var before, e := ReceivedSat(es[..|es| - 1]), es[|es| - 1];
      if e.CallReceive? && e.result.Received? then before + e.result.amountSat else before
  }

  function ReceivedTokens(es: seq<Event>): nat {
    if es == [] then 0
    else
      var before, e := ReceivedTokens(es[..|es| - 1]), es[|es| - 1];
      if e.CallReceive? && e.result.Received? then before + 1 else before
  }

  lemma {:induction false} ReceivedConcat(a: seq<Event>, b: seq<Event>)
    ensures ReceivedSat(a + b) == ReceivedSat(a) + ReceivedSat(b)
    ensures ReceivedTokens(a + b) == ReceivedTokens(a) + ReceivedTokens(b)
  {
    if b == [] {
      assert a + b == a;
    } else {
      ReceivedConcat(a, b[..|b| - 1]);
      assert (a + b)[..|a + b| - 1] == a + b[..|b| - 1];
    }
  }

  /** No receive of a whole token among the events. */
  lemma {:induction false} NoneReceived(es: seq<Event>)
    requires forall i :: 0 <= i < |es| ==> !es[i].CallReceive?
    ensures ReceivedSat(es) == 0 && ReceivedTokens(es) == 0
  {
    if es != [] {
      NoneReceived(es[..|es| - 1]);
    }
  }

  lemma AttemptReceives(t: string, r: Receive)
    ensures ReceivedSat(Attempt(t, r)) == if r.Received? then r.amountSat else 0
    ensures ReceivedTokens(Attempt(t, r)) == if r.Received? then 1 else 0
  {
    var es := Attempt(t, r);
    NoneReceived(es[..2]);
    NoneReceived(es[3..]);
    assert es[..3][..2] == es[..2] && es[..3][2] == CallReceive(t, r);
    ReceivedConcat(es[..3], es[3..]);
    assert es == es[..3] + es[3..];
  }

  /** The tokens that a summary counts one by one; those just received it only adds up. */
  function Counted(s: Summary): nat {
    s.failed + s.skipped + s.pending + s.spent + s.partiallySpent
  }

  lemma TokenCounted(s: Summary, t: string, last: Option<Outcome>, a: Answers)
    ensures var s', es := Tally(s, last, a), TokenEvents(t, last, a);
      && s'.imported == s.imported + ReceivedSat(es)
      && Counted(s') + ReceivedTokens(es) == Counted(s) + 1
  {
    var es := TokenEvents(t, last, a);
    if es == Attempt(t, a.receive) {
      AttemptReceives(t, a.receive);
    } else {
      NoneReceived(es);
    }
  }

  /** A pass counts every token once: as received now, or in exactly one of the counters; and what it calls imported is
      what the wallet received. */
  lemma {:induction false} SummaryAddsUp(tokens: seq<string>, already: map<string, Outcome>, answers: string -> Answers)
    ensures var s, es := TallyAll(tokens, already, answers), TokensEvents(tokens, already, answers);
      && s.imported == ReceivedSat(es)
      && Counted(s) + ReceivedTokens(es) == |tokens|
  {
    if tokens != [] {
      var prev, t := tokens[..|tokens| - 1], tokens[|tokens| - 1];
      SummaryAddsUp(prev, already, answers);
      TokenCounted(TallyAll(prev, already, answers), t, LastOf(already, t), answers(t));
      ReceivedConcat(TokensEvents(prev, already, answers), TokenEvents(t, LastOf(already, t), answers(t)));
    }
  }

  // ---------------------------------------------------------------- what a pass leaves in the journal

  function AfterReceive(r: Receive): Outcome {
    match r
    case Received(amount) => Imported(amount)
    case TimedOut => Pending
    case Rejected => Failed
  }

  /** The token's last row after its events. */
  function After(last: Option<Outcome>, a: Answers): Option<Outcome> {
    if Done(last) || Untouchable(last, a) then last
    else
      match a.check
      case AllSpent(amount) => Some(Spent(amount))
      case SomeSpent(spent, unspent) =>
        Some(if a.remainder.Recovered? then RemainderImported(spent, a.remainder.sat)
             else PartiallySpent(spent, unspent))
      case Indeterminate => last
      case Unspent => Some(AfterReceive(a.receive))
      case CheckFailed => Some(AfterReceive(a.receive))
  }

  function Put(folded: map<string, Outcome>, t: string, o: Option<Outcome>): map<string, Outcome> {
    if o.Some? then folded[t := o.value] else folded
  }

  lemma FoldSnoc(w: World, t: string, o: Outcome)
    ensures FoldLast(Step(w, Append(t, o)).rows) == FoldLast(w.rows)[t := o]
  {}

  /** Events whose appends all name `t` leave the fold as it was, but for `t`, which gets the last one. */
  function LastAppend(es: seq<Event>, before: Option<Outcome>): Option<Outcome> {
    if es == [] then before
    else
      var e := es[|es| - 1];
      if e.Append? then Some(e.outcome) else LastAppend(es[..|es| - 1], before)
  }

  predicate OwnEvents(es: seq<Event>, t: string) {
    forall i :: 0 <= i < |es| && es[i].Append? ==> es[i].token == t
  }

  lemma {:induction false} OwnEventsFold(w: World, es: seq<Event>, t: string)
    requires OwnEvents(es, t)
    ensures FoldLast(Exec(w, es).rows) == Put(FoldLast(w.rows), t, LastAppend(es, LastOf(FoldLast(w.rows), t)))
  {
    if es != [] {
      var prev, e := es[..|es| - 1], es[|es| - 1];
      OwnEventsFold(w, prev, t);
      if e.Append? {
        FoldSnoc(Exec(w, prev), e.token, e.outcome);
      }
    }
  }

  lemma TokenEventsAreOwn(t: string, last: Option<Outcome>, a: Answers)
    ensures OwnEvents(TokenEvents(t, last, a), t)
  {}

  lemma TokenLeaves(w: World, t: string, a: Answers)
    ensures var last := LastOf(FoldLast(w.rows), t);
      FoldLast(Exec(w, TokenEvents(t, last, a)).rows) == Put(FoldLast(w.rows), t, After(last, a))
  {
    var last := LastOf(FoldLast(w.rows), t);
    var es := TokenEvents(t, last, a);
    TokenEventsAreOwn(t, last, a);
    OwnEventsFold(w, es, t);
    TokenLastAppend(t, last, a);
  }

  lemma EndsWithSync(es: seq<Event>, e: Event, before: Option<Outcome>)
    requires e.Append?
    ensures LastAppend(es + [e], before) == Some(e.outcome)
    ensures LastAppend(es + [e, Sync], before) == Some(e.outcome)
  {}

  lemma AttemptLast(t: string, r: Receive, before: Option<Outcome>)
    ensures LastAppend(Attempt(t, r), before) == Some(AfterReceive(r))
  {
    var start := [Append(t, Pending), Sync, CallReceive(t, r)];
    if r.TimedOut? {
      EndsWithSync([], Append(t, Pending), before);
      assert Attempt(t, r) == start && start[..2] == [] + [Append(t, Pending), Sync];
    } else {
      var e := Append(t, AfterReceive(r));
      EndsWithSync(start, e, before);
      assert Attempt(t, r) == start + [e];
    }
  }

  lemma TokenLastAppend(t: string, last: Option<Outcome>, a: Answers)
    ensures LastAppend(TokenEvents(t, last, a), last) == After(last, a)
  {
    var es := TokenEvents(t, last, a);
    if es != [] {
      match a.check
      case AllSpent(amount) =>
        EndsWithSync([], Append(t, Spent(amount)), last);
        assert es == [] + [Append(t, Spent(amount)), Sync];
      case SomeSpent(_, _) => EndsWithSync(es[..5], es[5], last); assert es == es[..5] + [es[5], Sync];
      case Indeterminate =>
      case Unspent => AttemptLast(t, a.receive, last);
      case CheckFailed => AttemptLast(t, a.receive, last);
    }
  }

  lemma OneTokenLeaves(v: World, t: string, last: Option<Outcome>, a: Answers, u: string)
    requires LastOf(FoldLast(v.rows), t) == last
    ensures LastOf(FoldLast(Exec(v, TokenEvents(t, last, a)).rows), u)
      == if u == t then After(last, a) else LastOf(FoldLast(v.rows), u)
  {
    TokenLeaves(v, t, a);
  }

  /** The last token's turn, in `v`, where the turns of the others have left it. */
  lemma TurnLeaves(w: World, tokens: seq<string>, already: map<string, Outcome>, answers: string -> Answers, v: World,
                   u: string)
    requires tokens != [] && v == Exec(w, TokensEvents(tokens[..|tokens| - 1], already, answers))
    requires LastOf(FoldLast(v.rows), tokens[|tokens| - 1]) == LastOf(already, tokens[|tokens| - 1])
    ensures var t := tokens[|tokens| - 1];
      LastOf(FoldLast(Exec(w, TokensEvents(tokens, already, answers)).rows), u)
        == if u == t then After(LastOf(already, t), answers(t)) else LastOf(FoldLast(v.rows), u)
  {
    var t := tokens[|tokens| - 1];
    ExecConcat(w, TokensEvents(tokens[..|tokens| - 1], already, answers),
               TokenEvents(t, LastOf(already, t), answers(t)));
    OneTokenLeaves(v, t, LastOf(already, t), answers(t), u);
  }

  /** After all tokens' events, each token's last row is the one its own events left. */
  lemma {:induction false} TokensLeave(w: World, tokens: seq<string>, already: map<string, Outcome>,
                                       answers: string -> Answers, v: World, u: string)
    requires Distinct(tokens) && already == FoldLast(w.rows) && v == Exec(w, TokensEvents(tokens, already, answers))
    ensures LastOf(FoldLast(v.rows), u) ==
      if u in tokens then After(LastOf(already, u), answers(u)) else LastOf(already, u)
  {
    if tokens != [] {
      var prev, t := tokens[..|tokens| - 1], tokens[|tokens| - 1];
      var before := Exec(w, TokensEvents(prev, already, answers));
      TokensLeave(w, prev, already, answers, before, u);
      TokensLeave(w, prev, already, answers, before, t);
      assert t !in prev && (u in tokens <==> u in prev || u == t);
      TurnLeaves(w, tokens, already, answers, before, u);
    }
  }

  lemma PassLeaves(w: World, tokens: seq<string>, answers: string -> Answers, u: string)
    requires Distinct(tokens)
    ensures var already := FoldLast(w.rows);
      LastOf(FoldLast(Exec(w, TokensEvents(tokens, already, answers)).rows), u)
        == if u in tokens then After(LastOf(already, u), answers(u)) else LastOf(already, u)
  {
    TokensLeave(w, tokens, FoldLast(w.rows), answers, Exec(w, TokensEvents(tokens, FoldLast(w.rows), answers)), u);
  }

  /** The sync at the end of a pass changes no row. */
  lemma PassRows(w: World, tokens: seq<string>, already: map<string, Outcome>, answers: string -> Answers)
    ensures Exec(w, PassEvents(tokens, already, answers)).rows == Exec(w, TokensEvents(tokens, already, answers)).rows
  {
    var v := Exec(w, TokensEvents(tokens, already, answers));
    ExecConcat(w, TokensEvents(tokens, already, answers), [Sync]);
    assert Exec(v, [Sync]) == Step(v, Sync) by { assert [Sync][..0] == []; }
  }

  /** What one turn makes of a token. */
  lemma AfterIs(before: Option<Outcome>, a: Answers)
    ensures var after, free := After(before, a), Unsettled(before) && (a.saga == NoReceive || a.saga == Unparseable);
      var tried := free && (a.check == Unspent || (a.check == CheckFailed && before != Some(Pending)));
      Becomes(before, after, a, free, tried)
  {}

  /** A token that is tried has the row of its receive, one that the mint calls spent or partly spent has its amounts,
      and any other has the row that it had. */
  predicate Becomes(before: Option<Outcome>, after: Option<Outcome>, a: Answers, free: bool, tried: bool) {
    && (tried && a.receive.Received? ==> after == Some(Imported(a.receive.amountSat)))
    && (tried && a.receive.TimedOut? ==> after == Some(Pending))
    && (tried && a.receive.Rejected? ==> after == Some(Failed))
    && (free && a.check.AllSpent? ==> after == Some(Spent(a.check.amountSat)))
    && (free && a.check.SomeSpent? && a.remainder.Recovered? ==>
          after == Some(RemainderImported(a.check.spentSat, a.remainder.sat)))
    && (free && a.check.SomeSpent? && !a.remainder.Recovered? ==>
          after == Some(PartiallySpent(a.check.spentSat, a.check.unspentSat)))
    && (!tried && !(free && (a.check.AllSpent? || a.check.SomeSpent?)) ==> after == before)
  }

  /** What becomes of every token of the file in a pass that is not cut off. */
  lemma PassSettles(w: World, tokens: seq<string>, answers: string -> Answers, t: string, before: Option<Outcome>,
                    v: World)
    requires Distinct(tokens) && t in tokens && before == LastOf(FoldLast(w.rows), t)
    requires v == Exec(w, PassEvents(tokens, FoldLast(w.rows), answers))
    ensures var a := answers(t);
      var free := Unsettled(before) && (a.saga == NoReceive || a.saga == Unparseable);
      var tried := free && (a.check == Unspent || (a.check == CheckFailed && before != Some(Pending)));
      Becomes(before, LastOf(FoldLast(v.rows), t), a, free, tried)
  {
    PassRows(w, tokens, FoldLast(w.rows), answers);
    PassLeaves(w, tokens, answers, t);
    AfterIs(before, answers(t));
  }

  lemma TokenClean(s: Summary, last: Option<Outcome>, a: Answers)
    ensures Clean(Tally(s, last, a)) <==> Clean(s) && Done(After(last, a))
  {}

  lemma {:induction false} TallyClean(tokens: seq<string>, already: map<string, Outcome>, answers: string -> Answers)
    ensures Clean(TallyAll(tokens, already, answers)) <==>
      forall t :: t in tokens ==> Done(After(LastOf(already, t), answers(t)))
  {
    if tokens != [] {
      var n := |tokens| - 1;
      TallyClean(tokens[..n], already, answers);
      TokenClean(TallyAll(tokens[..n], already, answers), LastOf(already, tokens[n]), answers(tokens[n]));
      forall t ensures t in tokens <==> t in tokens[..n] || t == tokens[n] {}
    }
  }

  /** A pass reports no failed and no pending token exactly when every token of the file has a terminal last row. */
  lemma CleanMeansSettled(w: World, tokens: seq<string>, answers: string -> Answers)
    requires Distinct(tokens)
    ensures var already := FoldLast(w.rows);
      var folded := FoldLast(Exec(w, PassEvents(tokens, already, answers)).rows);
      Clean(TallyAll(tokens, already, answers)) <==> forall t :: t in tokens ==> Done(LastOf(folded, t))
  {
    var already := FoldLast(w.rows);
    TallyClean(tokens, already, answers);
    forall t | t in tokens
      ensures LastOf(FoldLast(Exec(w, TokensEvents(tokens, already, answers)).rows), t)
        == After(LastOf(already, t), answers(t))
    {
      PassLeaves(w, tokens, answers, t);
    }
    ExecConcat(w, TokensEvents(tokens, already, answers), [Sync]);
    var v := Exec(w, TokensEvents(tokens, already, answers));
    assert Exec(v, [Sync]) == Step(v, Sync) by { assert [Sync][..0] == []; }
  }

  lemma {:induction false} SettledTokensDoNothing(tokens: seq<string>, already: map<string, Outcome>,
                                                  answers: string -> Answers)
    requires forall t :: t in tokens ==> Done(LastOf(already, t))
    ensures TokensEvents(tokens, already, answers) == []
  {
    if tokens != [] {
      SettledTokensDoNothing(tokens[..|tokens| - 1], already, answers);
    }
  }

  /** After a clean pass, and whatever crash follows it, another pass over the same tokens submits nothing and
      appends nothing, whatever the mint would answer. */
  lemma CleanPassIsFinal(w: World, tokens: seq<string>, answers: string -> Answers, keep: nat, again: string -> Answers)
    requires Distinct(tokens) && Clean(TallyAll(tokens, FoldLast(w.rows), answers))
    ensures var v := Exec(w, PassEvents(tokens, FoldLast(w.rows), answers));
      && v.synced == |v.rows|
      && CrashKeeping(v, keep) == v
      && PassEvents(tokens, FoldLast(v.rows), again) == [Sync]
  {
    var already := FoldLast(w.rows);
    CleanMeansSettled(w, tokens, answers);
    var es := TokensEvents(tokens, already, answers);
    ExecConcat(w, es, [Sync]);
    assert Exec(Exec(w, es), [Sync]) == Step(Exec(w, es), Sync) by { assert [Sync][..0] == []; }
    var v := Exec(w, PassEvents(tokens, already, answers));
    assert v.rows[..|v.rows|] == v.rows;
    SettledTokensDoNothing(tokens, FoldLast(v.rows), again);
  }

  // ---------------------------------------------------------------- the completion marker

  function MarkerState(s: Summary): string {
    "state=" + (if Clean(s) then "complete" else "partial")
  }

  function MarkerCounts(s: Summary, date: nat): string {
    "imported_sat=" + Decimal(s.imported)
    + "\nfailed=" + Decimal(s.failed)
    + "\nskipped_already_imported=" + Decimal(s.skipped)
    + "\npending=" + Decimal(s.pending)
    + "\nspent=" + Decimal(s.spent)
    + "\nspent_sat=" + Decimal(s.spentSat)
    + "\npartially_spent=" + Decimal(s.partiallySpent)
    + "\npartially_spent_unspent_sat=" + Decimal(s.partiallySpentUnspentSat)
    + "\nremainder_recovered_sat=" + Decimal(s.remainderRecoveredSat)
    + "\ndate=" + Decimal(date) + "\n"
  }

  function MarkerBody(s: Summary, date: nat): string {
    MarkerState(s) + "\n" + MarkerCounts(s, date)
  }

  /** The scan of the marker's lines: the first explicit state decides; a marker without one is complete when it
      names its imports and no failure. */
  function Scan(lines: seq<string>, sawImported: bool, legacyFailed: Option<nat>): bool {
    if lines == [] then sawImported && legacyFailed == Some(0)
    else
      var l := Trim(lines[0]);
      if l == "state=complete" then true
      else if "state=" <= l || "pending=" <= l then false
      else
        Scan(lines[1..], sawImported || "imported=" <= l, if "failed=" <= l then ParseU64(l[7..]) else legacyFailed)
  }

  function MarkerIsComplete(marker: Option<string>): bool {
    if marker.None? then false
    else if Trim(marker.value) == "" then true
    else Scan(Lines(marker.value), false, None)
  }

  method ReadMarker(marker: Option<string>) returns (complete: bool)
    ensures complete == MarkerIsComplete(marker)
  {
    if marker.None? {
      return false;
    }
    if Trim(marker.value) == "" {
      return true;
    }
    var lines := Lines(marker.value);
    var sawImported, legacyFailed := false, None;
    for i := 0 to |lines|
      invariant Scan(lines, false, None) == Scan(lines[i..], sawImported, legacyFailed)
    {
      assert lines[i..][1..] == lines[i + 1..];
      var l := Trim(lines[i]);
      if l == "state=complete" {
        return true;
      }
      if "state=" <= l || "pending=" <= l {
        return false;
      }
      if "imported=" <= l {
        sawImported := true;
      }
      if "failed=" <= l {
        legacyFailed := ParseU64(l[7..]);
      }
    }
    complete := sawImported && legacyFailed == Some(0);
  }

  // ---------------------------------------------------------------- what a marker says

  /** A line that states an outcome outright. */
  predicate Explicit(line: string) {
    "state=" <= Trim(line) || "pending=" <= Trim(line)
  }

  predicate FirstExplicit(lines: seq<string>, n: nat) {
    n < |lines| && Explicit(lines[n]) && forall i :: 0 <= i < n ==> !Explicit(lines[i])
  }

  predicate NamesImports(line: string) {
    "imported=" <= Trim(line)
  }

  predicate NamesFailures(line: string) {
    "failed=" <= Trim(line)
  }

  predicate NamesNoFailure(line: string) {
    NamesFailures(line) && ParseU64(Trim(line)[7..]) == Some(0)
  }

  /** The last line about failures, if there is one, says that there were none; without one, `before` counts. */
  predicate LastSaysNone(lines: seq<string>, before: bool) {
    if lines == [] then before
    else if NamesFailures(lines[|lines| - 1]) then NamesNoFailure(lines[|lines| - 1])
    else LastSaysNone(lines[..|lines| - 1], before)
  }

  lemma {:induction false} LastSaysNoneCons(lines: seq<string>, before: bool)
    requires lines != []
    ensures LastSaysNone(lines, before) ==
      LastSaysNone(lines[1..], if NamesFailures(lines[0]) then NamesNoFailure(lines[0]) else before)
  {
    if |lines| > 1 && !NamesFailures(lines[|lines| - 1]) {
      LastSaysNoneCons(lines[..|lines| - 1], before);
      assert lines[..|lines| - 1][1..] == lines[1..][..|lines| - 2];
    }
  }

  lemma {:induction false} ScanWithout(lines: seq<string>, sawImported: bool, legacyFailed: Option<nat>)
    requires forall i :: 0 <= i < |lines| ==> !Explicit(lines[i])
    ensures Scan(lines, sawImported, legacyFailed) <==>
      (sawImported || exists i :: 0 <= i < |lines| && NamesImports(lines[i])) &&
      LastSaysNone(lines, legacyFailed == Some(0))
  {
    if lines != [] {
      var l := Trim(lines[0]);
      ScanWithout(lines[1..], sawImported || "imported=" <= l,
                  if "failed=" <= l then ParseU64(l[7..]) else legacyFailed);
      LastSaysNoneCons(lines, legacyFailed == Some(0));
      assert !Explicit(lines[0]) && l != "state=complete";
      assert forall i :: 0 <= i < |lines[1..]| ==> lines[1..][i] == lines[i + 1];
      if i :| 0 <= i < |lines| && NamesImports(lines[i]) {
        assert i > 0 ==> NamesImports(lines[1..][i - 1]);
      }
    }
  }

  lemma {:induction false} ScanStops(lines: seq<string>, n: nat, sawImported: bool, legacyFailed: Option<nat>)
    requires FirstExplicit(lines, n)
    ensures Scan(lines, sawImported, legacyFailed) <==> Trim(lines[n]) == "state=complete"
  {
    if n > 0 {
      var l := Trim(lines[0]);
      assert !Explicit(lines[0]) && l != "state=complete";
      ScanStops(lines[1..], n - 1, sawImported || "imported=" <= l,
                if "failed=" <= l then ParseU64(l[7..]) else legacyFailed);
    }
  }

  /** What a marker means.  None is no completion, and a blank one is the operator's.  Otherwise the first line that
      states an outcome decides; and a legacy marker, which has no such line, is complete exactly when it names imports
      and its last word about failures is zero. */
  lemma MarkerMeans(body: string, n: nat)
    ensures !MarkerIsComplete(None)
    ensures Trim(body) == "" ==> MarkerIsComplete(Some(body))
    ensures Trim(body) != "" && FirstExplicit(Lines(body), n) ==>
        (MarkerIsComplete(Some(body)) <==> Trim(Lines(body)[n]) == "state=complete")
    ensures Trim(body) != "" && (forall i :: 0 <= i < |Lines(body)| ==> !Explicit(Lines(body)[i])) ==>
      (MarkerIsComplete(Some(body)) <==>
        (exists i :: 0 <= i < |Lines(body)| && NamesImports(Lines(body)[i])) && LastSaysNone(Lines(body), false))
  {
    var lines := Lines(body);
    if FirstExplicit(lines, n) {
      ScanStops(lines, n, false, None);
    }
    if forall i :: 0 <= i < |lines| ==> !Explicit(lines[i]) {
      ScanWithout(lines, false, None);
    }
  }

  lemma {:induction false} BlankTrims(s: string)
    requires forall i :: 0 <= i < |s| ==> IsWhitespace(s[i])
    ensures Trim(s) == ""
  {
    if s != "" {
      BlankTrims(s[1..]);
    }
  }

  /** What an earlier version wrote. */
  function LegacyMarker(imported: nat, failed: nat, date: nat): string {
    "imported=" + Decimal(imported) + "\n" +
    ("failed=" + Decimal(failed) + "\n" + ("date=" + Decimal(date) + "\n" + ""))
  }

  lemma FieldLine(name: string, n: nat, rest: string)
    requires '\n' !in name
    ensures Lines(name + Decimal(n) + "\n" + rest) == [name + Decimal(n)] + Lines(rest)
  {
    var line := name + Decimal(n);
    DecimalDigits(n);
    assert line[|line| - 1] == Decimal(n)[|Decimal(n)| - 1];
    FirstLine(line, rest);
  }

  lemma LegacyLines(imported: nat, failed: nat, date: nat)
    ensures Lines(LegacyMarker(imported, failed, date)) ==
      ["imported=" + Decimal(imported), "failed=" + Decimal(failed), "date=" + Decimal(date)]
    ensures Trim(LegacyMarker(imported, failed, date)) != ""
  {
    var rest := "date=" + Decimal(date) + "\n" + "";
    FieldLine("date=", date, "");
    FieldLine("failed=", failed, rest);
    FieldLine("imported=", imported, "failed=" + Decimal(failed) + "\n" + rest);
    TrimKeepsFirst(LegacyMarker(imported, failed, date));
  }

  /** Three trimmed lines, about imports, failures and the date. */
  lemma LegacyScan(a: string, b: string, c: string)
    requires Trim(a) == a && Trim(b) == b && Trim(c) == c
    requires "imported=" <= a && "failed=" <= b && "date=" <= c
    ensures Scan([a, b, c], false, None) <==> ParseU64(b[7..]) == Some(0)
  {
    var failed := ParseU64(b[7..]);
    assert a[0] == 'i' && b[0] == 'f' && c[0] == 'd';
    assert Scan([c], true, failed) <==> failed == Some(0) by { assert [c][1..] == []; }
    assert Scan([b, c], true, None) <==> Scan([c], true, failed) by { assert [b, c][1..] == [c]; }
    assert [a, b, c][1..] == [b, c];
  }

  lemma Field(name: string, n: nat)
    requires name != "" && !IsWhitespace(name[0])
    ensures var line := name + Decimal(n); name <= line && Trim(line) == line && line[|name|..] == Decimal(n)
  {
    var line := name + Decimal(n);
    DecimalDigits(n);
    assert line[|line| - 1] == Decimal(n)[|Decimal(n)| - 1];
    TrimmedAlready(line);
  }

  lemma LegacyDecides(body: string, a: string, b: string, c: string)
    requires Lines(body) == [a, b, c] && Trim(body) != "" && Trim(a) == a && Trim(b) == b && Trim(c) == c
    requires "imported=" <= a && "failed=" <= b && "date=" <= c
    ensures MarkerIsComplete(Some(body)) <==> ParseU64(b[7..]) == Some(0)
  {
    LegacyScan(a, b, c);
  }

  /** A legacy marker is complete exactly when it counts no failure. */
  lemma LegacyMarkerIsExact(imported: nat, failed: nat, date: nat)
    ensures MarkerIsComplete(Some(LegacyMarker(imported, failed, date))) <==> failed == 0
  {
    LegacyLines(imported, failed, date);
    Field("imported=", imported);
    Field("failed=", failed);
    Field("date=", date);
    var b := "failed=" + Decimal(failed);
    LegacyDecides(LegacyMarker(imported, failed, date), "imported=" + Decimal(imported), b, "date=" + Decimal(date));
    assert b[7..] == Decimal(failed);
    DecimalParses(failed);
  }

  lemma TrimKeepsFirst(s: string)
    requires s != "" && !IsWhitespace(s[0])
    ensures Trim(s) != ""
  {
    TrimRightKeeps(s);
  }

  lemma {:induction false} TrimRightKeeps(s: string)
    requires s != "" && !IsWhitespace(s[0])
    ensures TrimRight(s) != ""
  {
    if IsWhitespace(s[|s| - 1]) {
      TrimRightKeeps(s[..|s| - 1]);
    }
  }

  lemma StateLineDecides(line: string, rest: string)
    requires line == "state=complete" || line == "state=partial"
    ensures MarkerIsComplete(Some(line + "\n" + rest)) <==> line == "state=complete"
  {
    FirstLine(line, rest);
    TrimmedAlready(line);
    var body := line + "\n" + rest;
    assert body[0] == line[0] == 's';
    TrimKeepsFirst(body);
    assert Lines(body)[0] == line;
  }

  /** The marker that is printed reads as complete exactly for clean summaries. */
  lemma PrintedMarkerIsExact(s: Summary, date: nat)
    ensures MarkerIsComplete(Some(MarkerBody(s, date))) <==> Clean(s)
  {
    var line := MarkerState(s);
    assert line == if Clean(s) then "state=complete" else "state=partial";
    assert |"state=complete"| != |"state=partial"|;
    StateLineDecides(line, MarkerCounts(s, date));
  }
}
