/** The migration as it runs at boot: the directory it works on, its token file, the import loop with its write
    errors, and the ending that may give up wallet.db. */
module FirstBoot {
  import opened Options
  import opened Journals
  import opened MigrationRuns
  import opened MigrationPass
  import opened Text

  /** Non-empty trimmed lines that are not comments. */
  function TokenLines(lines: seq<string>): seq<string> {
    if lines == [] then []
    else
      var rest, l := TokenLines(lines[..|lines| - 1]), Trim(lines[|lines| - 1]);
      if l == "" || l[0] == '#' then rest else rest + [l]
  }

  /** Each token once, at its first place. */
  function Once(tokens: seq<string>): seq<string> {
    if tokens == [] then []
    else
      var rest, t := Once(tokens[..|tokens| - 1]), tokens[|tokens| - 1];
      if t in rest then rest else rest + [t]
  }

  function TokensOf(content: string): seq<string> {
    Once(TokenLines(Lines(content)))
  }

  lemma {:induction false} TokenLinesAre(lines: seq<string>, t: string)
    ensures t in TokenLines(lines) <==> t != "" && t[0] != '#' && exists i :: 0 <= i < |lines| && Trim(lines[i]) == t
  {
    if lines != [] {
      var n := |lines| - 1;
      TokenLinesAre(lines[..n], t);
      if i :| 0 <= i < |lines| && Trim(lines[i]) == t {
        assert i < n ==> lines[..n][i] == lines[i];
      }
      if i :| 0 <= i < n && Trim(lines[..n][i]) == t {
        assert lines[i] == lines[..n][i];
      }
    }
  }

  lemma {:induction false} OnceKeeps(tokens: seq<string>, t: string)
    ensures Distinct(Once(tokens)) && (t in Once(tokens) <==> t in tokens)
  {
    if tokens != [] {
      OnceKeeps(tokens[..|tokens| - 1], t);
      assert t in tokens <==> t in tokens[..|tokens| - 1] || t == tokens[|tokens| - 1];
    }
  }

  /** The tokens of a file are its trimmed lines that are neither blank nor comments, each once. */
  lemma TokensAreTheLines(content: string, t: string)
    ensures Distinct(TokensOf(content))
    ensures t in TokensOf(content) <==>
      t != "" && t[0] != '#' && exists i :: 0 <= i < |Lines(content)| && Trim(Lines(content)[i]) == t
  {
    var lines := Lines(content);
    OnceKeeps(TokenLines(lines), t);
    TokenLinesAre(lines, t);
  }

  method ReadTokens(content: string) returns (tokens: seq<string>)
    ensures tokens == TokensOf(content)
  {
    var lines := Lines(content);
    var kept := [];
    for i := 0 to |lines|
      invariant kept == TokenLines(lines[..i])
    {
      assert lines[..i + 1][..i] == lines[..i];
      var l := Trim(lines[i]);
      if l != "" && l[0] != '#' {
        kept := kept + [l];
      }
    }
    assert lines[..|lines|] == lines;
    tokens := [];
    for i := 0 to |kept|
      invariant tokens == Once(kept[..i])
    {
      assert kept[..i + 1][..i] == kept[..i];
      if kept[i] !in tokens {
        tokens := tokens + [kept[i]];
      }
    }
    assert kept[..|kept|] == kept;
  }

  lemma ExecOne(w: World, es: seq<Event>, n: nat)
    requires n < |es|
    ensures Exec(w, es[..n + 1]) == Step(Exec(w, es[..n]), es[n])
  {
    assert es[..n + 1][..n] == es[..n];
  }

  datatype Export = Succeeded | ExportFailed | NotRun

  predicate ShouldImport(shouldRun: bool, tokensExist: bool, export_: Export) {
    shouldRun && tokensExist && export_ != ExportFailed
  }

  /** Every token of the file has a last row that says it was imported or spent, in whole or in part. */
  predicate AllSettled(rows: Journal, content: string) {
    forall t :: t in TokensOf(content) ==> !Unsettled(LastOf(FoldLast(rows), t))
  }

  lemma SettledWhenClean(w: World, content: string, answers: string -> Answers)
    requires Distinct(TokensOf(content))
    ensures var tokens, already := TokensOf(content), FoldLast(w.rows);
      Clean(TallyAll(tokens, already, answers)) <==>
        AllSettled(Exec(w, PassEvents(tokens, already, answers)).rows, content)
  {
    CleanMeansSettled(w, TokensOf(content), answers);
    forall t ensures Done(LastOf(FoldLast(Exec(w, PassEvents(TokensOf(content), FoldLast(w.rows), answers)).rows), t))
      <==> !Unsettled(LastOf(FoldLast(Exec(w, PassEvents(TokensOf(content), FoldLast(w.rows), answers)).rows), t))
    {
    }
  }

  datatype Finish = Complete | Partial | RenameError | MarkerError

  class Migration {
    var rows: Journal
    var synced: nat
    ghost var calls: seq<Call>
    /** wallet.db, its renamed copy, and the marker file. */
    var oldDb: bool
    var backup: bool
    var marker: Option<string>
    /** How many journal writes and syncs still succeed. */
    var writes: nat

    ghost function State(): World
      reads this
    {
      World(rows, synced, calls)
    }

    ghost predicate Settled(content: string)
      reads this
    {
      AllSettled(rows, content)
    }

    predicate ShouldRun()
      reads this
    {
      oldDb && !MarkerIsComplete(marker)
    }

    /** One journal append: event `n` of the plan `es` begun in `w`. */
    method AppendEntry(t: string, o: Outcome, ghost w: World, ghost es: seq<Event>, ghost n: nat) returns (ok: bool)
      requires n < |es| && es[n] == Append(t, o) && State() == Exec(w, es[..n])
      modifies `rows, `writes
      ensures State() == Exec(w, es[..if ok then n + 1 else n])
      ensures ok == (old(writes) > 0) && writes == if ok then old(writes) - 1 else 0
    {
      ExecOne(w, es, n);
      if writes == 0 {
        return false;
      }
      writes := writes - 1;
      rows := rows + [Row(t, o)];
      ok := true;
    }

    method SyncAll(ghost w: World, ghost es: seq<Event>, ghost n: nat) returns (ok: bool)
      requires n < |es| && es[n] == Sync && State() == Exec(w, es[..n])
      modifies `synced, `writes
      ensures State() == Exec(w, es[..if ok then n + 1 else n])
      ensures ok == (old(writes) > 0) && writes == if ok then old(writes) - 1 else 0
    {
      ExecOne(w, es, n);
      if writes == 0 {
        return false;
      }
      writes := writes - 1;
      synced := |rows|;
      ok := true;
    }

    /** A row followed by a sync. */
    method AppendSynced(t: string, o: Outcome, ghost w: World, ghost es: seq<Event>, ghost n: nat)
      returns (ok: bool, ghost m: nat)
      requires n + 1 < |es| && es[n] == Append(t, o) && es[n + 1] == Sync && State() == Exec(w, es[..n])
      modifies `rows, `synced, `writes
      ensures n <= m <= n + 2 && State() == Exec(w, es[..m]) && (ok ==> m == n + 2)
      ensures (!ok ==> writes == 0) && old(writes) <= writes + m - n
    {
      m := n;
      ok := AppendEntry(t, o, w, es, n);
      if !ok {
        return;
      }
      m := n + 1;
      ok := SyncAll(w, es, n + 1);
      if ok {
        m := n + 2;
      }
    }

    /** Intent, receive, outcome. */
    method Attempt(t: string, receive: Receive, s: Summary) returns (ok: bool, s': Summary, ghost m: nat)
      modifies `rows, `synced, `calls, `writes
      ensures var es := MigrationRuns.Attempt(t, receive);
        m <= |es| && State() == Exec(old(State()), es[..m]) && (ok ==> m == |es| && s' == TallyReceive(s, receive))
      ensures (!ok ==> writes == 0) && old(writes) <= writes + m
    {
      ghost var w, es := State(), MigrationRuns.Attempt(t, receive);
      s' := s;
      ok, m := AppendSynced(t, Pending, w, es, 0);
      if !ok {
        return;
      }
      ExecOne(w, es, 2);
      calls := calls + [Call(t, true, receive)];
      m := 3;
      match receive
      case Received(amount) =>
        s' := s'.(imported := s'.imported + amount);
        ok := AppendEntry(t, Imported(amount), w, es, 3);
        m := if ok then 4 else 3;
      case TimedOut =>
        s' := s'.(pending := s'.pending + 1);
      case Rejected =>
        s' := s'.(failed := s'.failed + 1);
        ok := AppendEntry(t, Failed, w, es, 3);
        m := if ok then 4 else 3;
    }

    /** A partly spent token: the terminal row first, then one try at its remainder under its own intent. */
    method Salvage(t: string, spent: nat, unspent: nat, r: Remainder, s: Summary)
      returns (ok: bool, s': Summary, ghost m: nat)
      modifies `rows, `synced, `calls, `writes
      ensures var es := MigrationRuns.Salvage(t, spent, unspent, r);
        m <= |es| && State() == Exec(old(State()), es[..m]) && (ok ==> m == |es| && s' == TallySalvage(s, unspent, r))
      ensures (!ok ==> writes == 0) && old(writes) <= writes + m
    {
      ghost var w, es := State(), MigrationRuns.Salvage(t, spent, unspent, r);
      s' := s.(partiallySpent := s.partiallySpent + 1,
               partiallySpentUnspentSat := s.partiallySpentUnspentSat + unspent);
      ok, m := AppendSynced(t, PartiallySpent(spent, unspent), w, es, 0);
      if !ok {
        return;
      }
      ok, m := AppendSynced(t, Pending, w, es, 2);
      if !ok {
        return;
      }
      ExecOne(w, es, 4);
      calls := calls + [Call(t, false, AsReceive(r))];
      m := 5;
      var settled := PartiallySpent(spent, unspent);
      match r {
        case Recovered(sat) =>
          s' := s'.(remainderRecoveredSat := s'.remainderRecoveredSat + sat,
                    partiallySpentUnspentSat := SaturatingSub(s'.partiallySpentUnspentSat, sat));
          settled := RemainderImported(spent, sat);
        case NothingLeft =>
        case RemainderFailed =>
      }
      ok, m := AppendSynced(t, settled, w, es, 5);
    }

    /** One turn of the import loop. */
    method ImportToken(t: string, last: Option<Outcome>, a: Answers, s: Summary)
      returns (ok: bool, s': Summary, ghost m: nat)
      modifies `rows, `synced, `calls, `writes
      ensures var es := TokenEvents(t, last, a);
        m <= |es| && State() == Exec(old(State()), es[..m]) && (ok ==> m == |es| && s' == Tally(s, last, a))
      ensures (!ok ==> writes == 0) && old(writes) <= writes + m
    {
      ghost var w, es := State(), TokenEvents(t, last, a);
      ok, s', m := true, s, 0;
      if Done(last) {
        s' := TallyDone(s, last.value);
        return;
      }
      if Untouchable(last, a) {
        s' := s.(pending := s.pending + 1);
        return;
      }
      match a.check
      case AllSpent(amount) =>
        s' := s.(spent := s.spent + 1, spentSat := s.spentSat + amount);
        ok, m := AppendSynced(t, Spent(amount), w, es, 0);
      case SomeSpent(spent, unspent) =>
        ok, s', m := Salvage(t, spent, unspent, a.remainder, s);
      case Indeterminate =>
        s' := s.(pending := s.pending + 1);
      case Unspent =>
        ok, s', m := Attempt(t, a.receive, s);
      case CheckFailed =>
        ok, s', m := Attempt(t, a.receive, s);
    }

    /** One token's turn, from `before` to `next` in a plan. */
    method ImportPlanned(t: string, last: Option<Outcome>, a: Answers, s: Summary,
        ghost w: World, ghost before: seq<Event>, ghost next: seq<Event>, ghost plan: seq<Event>)
      returns (ok: bool, s': Summary, ghost m: nat)
      requires before + TokenEvents(t, last, a) == next && next <= plan && State() == Exec(w, before)
      modifies `rows, `synced, `calls, `writes
      ensures |before| <= m <= |next| <= |plan| && State() == Exec(w, plan[..m])
      ensures ok ==> State() == Exec(w, next) && m == |next| && s' == Tally(s, last, a)
      ensures (!ok ==> writes == 0) && old(writes) <= writes + m - |before|
    {
      ghost var k;
      ok, s', k := ImportToken(t, last, a, s);
      PartOfPlan(w, before, TokenEvents(t, last, a), next, plan, k, State());
      m := |before| + k;
    }

    /** Turn `i` of the loop, as a piece of the whole plan. */
    method ImportNext(tokens: seq<string>, already: map<string, Outcome>, answers: string -> Answers, i: nat,
                      s: Summary, ghost w: World, ghost before: seq<Event>)
      returns (ok: bool, s': Summary, ghost m: nat)
      requires i < |tokens| && s == TallyAll(tokens[..i], already, answers)
      requires before == TokensEvents(tokens[..i], already, answers) && State() == Exec(w, before)
      modifies `rows, `synced, `calls, `writes
      ensures |before| <= m < |PassEvents(tokens, already, answers)| &&
        State() == Exec(w, PassEvents(tokens, already, answers)[..m])
      ensures ok ==> State() == Exec(w, TokensEvents(tokens[..i + 1], already, answers))
      ensures ok ==>
        m == |TokensEvents(tokens[..i + 1], already, answers)| && s' == TallyAll(tokens[..i + 1], already, answers)
      ensures (!ok ==> writes == 0) && old(writes) <= writes + m - |before|
    {
      var t := tokens[i];
      Turn(tokens, already, answers, i);
      EventsGrow(tokens, already, answers, i + 1);
      TallyTurn(tokens, already, answers, i);
      ok, s', m := ImportPlanned(t, LastOf(already, t), answers(t), s, w, before,
                                 TokensEvents(tokens[..i + 1], already, answers), PassEvents(tokens, already, answers));
    }

    /** The import loop.  A write error ends it early: what was done is then a beginning of the same pass. */
    method ImportTokens(tokens: seq<string>, answers: string -> Answers) returns (ok: bool, s: Summary, ghost m: nat)
      modifies `rows, `synced, `calls, `writes
      ensures var es := PassEvents(tokens, FoldLast(old(rows)), answers);
        m <= |es| && State() == Exec(old(State()), es[..m])
        && (ok <==> m == |es|) && (ok ==> s == TallyAll(tokens, FoldLast(old(rows)), answers))
      ensures (!ok ==> writes == 0) && old(writes) <= writes + m
    {
      var already := Fold(rows);
      ghost var w := State();
      s, m := NOTHING, 0;
      for i := 0 to |tokens|
        invariant s == TallyAll(tokens[..i], already, answers)
        invariant m == |TokensEvents(tokens[..i], already, answers)|
        invariant State() == Exec(w, TokensEvents(tokens[..i], already, answers))
        invariant old(writes) <= writes + m
      {
        ok, s, m := ImportNext(tokens, already, answers, i, s, w, TokensEvents(tokens[..i], already, answers));
        if !ok {
          return;
        }
      }
      assert tokens[..|tokens|] == tokens;
      ghost var plan := PassEvents(tokens, already, answers);
      assert plan[..m] == TokensEvents(tokens, already, answers);
      assert plan[..m + 1] == plan;
      ok := SyncAll(w, plan, m);
      m := if ok then m + 1 else m;
    }

    /** Renames wallet.db only for a clean summary; then writes the marker.  An error stops where it occurs. */
    method FinishImport(s: Summary, date: nat, renameOk: bool, markerOk: bool) returns (f: Finish)
      modifies `oldDb, `backup, `marker
      ensures f.Complete? <==> Clean(s) && renameOk && markerOk
      ensures f.Partial? <==> !Clean(s) && markerOk
      ensures oldDb == (old(oldDb) && !(Clean(s) && renameOk)) && backup == (old(backup) || (Clean(s) && renameOk))
      ensures f.RenameError? <==> Clean(s) && !renameOk
      ensures f.Complete? || f.Partial? ==> marker.Some? && (MarkerIsComplete(marker) <==> f.Complete?)
      ensures f.RenameError? || f.MarkerError? ==> marker == old(marker)
    {
      var clean := Clean(s);
      if clean {
        if !renameOk {
          return RenameError;
        }
        oldDb, backup := false, true;
        f := Complete;
      } else {
        f := Partial;
      }
      if !markerOk {
        return MarkerError;
      }
      PrintedMarkerIsExact(s, date);
      marker := Some(MarkerBody(s, date));
    }

    /** How an import of the file's tokens ends, `m` of `all` events into its pass.  A pass is cut off only where the
        writes run out, and then the directory is as it was.  After a whole pass wallet.db is renamed exactly when every
        token is settled and the rename succeeds; and the marker says whether it was. */
    ghost predicate BootLeaves(m: nat, all: nat, content: string, renameOk: bool, markerOk: bool, hadBackup: bool,
                               before: Option<string>, budget: nat)
      reads this
    {
      && (m < all ==> writes == 0 && budget <= m && oldDb && backup == hadBackup && marker == before)
      && (m >= all ==>
            && (oldDb <==> !(Settled(content) && renameOk)) && (backup <==> hadBackup || !oldDb)
            && (markerOk && (Settled(content) ==> renameOk) ==>
                  marker.Some? && (MarkerIsComplete(marker) <==> Settled(content)))
            && (!markerOk || (Settled(content) && !renameOk) ==> marker == before))
    }

    /** One boot's migration.  The tokens are imported exactly when wallet.db is there, the marker is not complete, a
        token file is there and the export did not fail; then they are those of the file.  wallet.db goes away only when
        every token of the file has a terminal, synced last row; and when it goes, nothing is left for a later boot to
        do.  While it stays without a complete marker, the next boot runs again. */
    method Boot(tokensFile: Option<string>, export_: Export, answers: string -> Answers, date: nat, renameOk: bool,
                markerOk: bool)
      returns (ghost tokens: seq<string>, ghost m: nat)
      requires synced <= |rows|
      modifies this
      ensures synced <= |rows|
      ensures old(oldDb) && !oldDb ==> old(ShouldRun()) && tokensFile.Some? && export_ != ExportFailed
      ensures old(oldDb) && !oldDb ==> Settled(tokensFile.value) && synced == |rows|
      ensures !oldDb ==> !ShouldRun()
      ensures oldDb && old(ShouldRun()) && (tokensFile.None? || !Settled(tokensFile.value)) ==> ShouldRun()
      ensures var es := PassEvents(tokens, FoldLast(old(rows)), answers);
        Distinct(tokens) && m <= |es| && State() == Exec(old(State()), es[..m])
      ensures old(oldDb && !MarkerIsComplete(marker)) && tokensFile.Some? && export_ != ExportFailed ==>
        tokens == TokensOf(tokensFile.value) && m <= |PassEvents(tokens, FoldLast(old(rows)), answers)|
        && BootLeaves(m, |PassEvents(tokens, FoldLast(old(rows)), answers)|, tokensFile.value, renameOk, markerOk,
                      old(backup), old(marker), old(writes))
      ensures old(!oldDb || MarkerIsComplete(marker)) || tokensFile.None? || export_ == ExportFailed ==>
        tokens == [] && m == 0 && oldDb == old(oldDb) && backup == old(backup) && marker == old(marker)
    {
      tokens, m := [], 0;
      if !ShouldImport(ShouldRun(), tokensFile.Some?, export_) {
        return;
      }
      tokens, m := ImportFile(tokensFile.value, answers, date, renameOk, markerOk);
    }

    /** The tokens of the file are imported, and the pass finished only when it was not cut off. */
    method ImportFile(content: string, answers: string -> Answers, date: nat, renameOk: bool, markerOk: bool)
      returns (ghost tokens: seq<string>, ghost m: nat)
      requires synced <= |rows| && oldDb
      modifies this
      ensures synced <= |rows|
      ensures !oldDb ==> Settled(content) && synced == |rows| && !ShouldRun()
      ensures oldDb && old(ShouldRun()) && !Settled(content) ==> ShouldRun()
      ensures tokens == TokensOf(content) && Distinct(tokens)
      ensures var es := PassEvents(tokens, FoldLast(old(rows)), answers);
        && m <= |es| && State() == Exec(old(State()), es[..m])
        && BootLeaves(m, |es|, content, renameOk, markerOk, old(backup), old(marker), old(writes))
    {
      var found := ReadTokens(content);
      tokens := found;
      TokensAreTheLines(content, "");
      ghost var w := State();
      var ok, s;
      ok, s, m := ImportTokens(found, answers);
      ghost var es := PassEvents(found, FoldLast(w.rows), answers);
      ExecSynced(w, es[..m]);
      if ok {
        assert es[..m] == es;
        SettledWhenClean(w, content, answers);
        PassSynced(w, found, answers);
        var _ := FinishImport(s, date, renameOk, markerOk);
      }
    }
  }

  lemma PassSynced(w: World, tokens: seq<string>, answers: string -> Answers)
    ensures var v := Exec(w, PassEvents(tokens, FoldLast(w.rows), answers)); v.synced == |v.rows|
  {}

  /** `k` events into one token's own, as a place in the whole plan. */
  lemma PartOfPlan(w: World, before: seq<Event>, own: seq<Event>, next: seq<Event>, plan: seq<Event>, k: nat, v: World)
    requires before + own == next && next <= plan && k <= |own| && v == Exec(Exec(w, before), own[..k])
    ensures |before| + k <= |next| <= |plan| && v == Exec(w, plan[..|before| + k])
    ensures k == |own| ==> v == Exec(w, next) && |before| + k == |next|
  {
    ExecConcat(w, before, own[..k]);
    assert plan[..|before| + k] == next[..|before| + k] == before + own[..k];
    assert k == |own| ==> own[..k] == own;
  }

  lemma Turn(tokens: seq<string>, already: map<string, Outcome>, answers: string -> Answers, i: nat)
    requires i < |tokens|
    ensures TokensEvents(tokens[..i + 1], already, answers)
      == TokensEvents(tokens[..i], already, answers) +
        TokenEvents(tokens[i], LastOf(already, tokens[i]), answers(tokens[i]))
    ensures TokensEvents(tokens[..i + 1], already, answers) <= PassEvents(tokens, already, answers)
  {
    assert tokens[..i + 1][..i] == tokens[..i];
    EventsGrow(tokens, already, answers, i + 1);
  }

  lemma TallyTurn(tokens: seq<string>, already: map<string, Outcome>, answers: string -> Answers, i: nat)
    requires i < |tokens|
    ensures TallyAll(tokens[..i + 1], already, answers)
      == Tally(TallyAll(tokens[..i], already, answers), LastOf(already, tokens[i]), answers(tokens[i]))
  {
    assert tokens[..i + 1][..i] == tokens[..i];
  }

  lemma {:induction false} EventsGrow(tokens: seq<string>, already: map<string, Outcome>, answers: string -> Answers,
                                      i: nat)
    requires i <= |tokens|
    ensures TokensEvents(tokens[..i], already, answers) <= TokensEvents(tokens, already, answers)
  {
    if i < |tokens| {
      var n := |tokens| - 1;
      EventsGrow(tokens[..n], already, answers, i);
      assert tokens[..n][..i] == tokens[..i];
    } else {
      assert tokens[..i] == tokens;
    }
  }
}
