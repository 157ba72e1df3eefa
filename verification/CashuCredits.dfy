/** How often a Cashu payment is credited, by its handler and by the passes together: at most once under guards that
    the code could check and does not, and twice where they fail. */
module CashuCredits {
  import opened Options
  import opened Journals
  import opened GrantLedger
  import opened CashuRuns
  import opened LedgerOnce
  import L = LedgerRuns

  /** A grant for the entry may still be credited: a crash may leave it undecided, or a pass is about to deliver it. */
  ghost predicate Owing(w: World, id: string) {
    !DurablyClosed(w, id) || (w.at.Applied? && w.at.id == id)
  }

  /** A handler has received the payment and is still to add its allotment. */
  predicate InHand(paid: set<(string, Mac)>, id: string) {
    exists h :: h in paid && h.0 == id
  }

  // ---------------------------------------------------------------- the guards

  /** The record that a recreation would extend does not name the entry. */
  predicate ExtendsStranger(w: World)
    requires w.at.Applied?
  {
    var ss, mac := w.ledger.mem.sessions, w.at.entry.mac;
    mac !in ss || Cashu(w.at.id) !in SessionIds(ss[mac])
  }

  /** No handler is at work on the payment or for the MAC. */
  predicate Alone(w: World, id: string, mac: Mac) {
    !InHand(w.live, id) && !AtWork(w.live, mac)
  }

  /** What the code could check.  A closed entry is reopened only for a token that is not spent, and never granted; a
      pass begins only while no handler is at work on the payment or for its MAC, and for the one MAC `home`; the
      sweep waits for the sync; a replay waits until the entry is done with; and a recreation extends no record that
      names its own entry. */
  ghost predicate Guarded(w: World, m: Move, id: string, home: Mac) {
    && (Reopens(w, m, id) ==> id !in w.spent)
    && match m
       case Begin(k, entry, _, _, _) =>
         k == id ==> !IsClosed(w.journal, id) && entry.mac == home && Alone(w, id, home)
       case SweepTerminal(ids) => id in ids ==> DurablyClosed(w, id)
       case ReplaySettled(k, _, _, _, _) => k == id ==> !Owing(w, id) && !InHand(w.live, id)
       case Recreate(_) => w.at.Applied? && w.at.id == id ==> ExtendsStranger(w)
       case _ => true
  }

  ghost predicate GuardedRun(w: World, ms: seq<Move>, id: string, home: Mac) {
    ms == [] ||
      (GuardedRun(w, ms[..|ms| - 1], id, home) && Guarded(Exec(w, ms[..|ms| - 1]), ms[|ms| - 1], id, home))
  }

  // ---------------------------------------------------------------- the invariant

  predicate AtMostOne(ss: map<Mac, Session>, g: GrantId) {
    forall mac :: mac in ss ==> ss[mac].credits[g] <= 1
  }

  predicate NoCredit(ss: map<Mac, Session>, g: GrantId) {
    forall mac :: mac in ss ==> ss[mac].credits[g] == 0
  }

  /** A credit in the session of `home` has left its trace. */
  predicate TracedAt(ss: map<Mac, Session>, g: GrantId, home: Mac) {
    home in ss && ss[home].credits[g] > 0 ==> g in ss[home].applied
  }

  predicate TakenAtMostOne(taken: set<(Mac, L.Taken)>, g: GrantId) {
    forall p :: p in taken && p.1.Some? ==> p.1.value.credits[g] <= 1
  }

  predicate NoTakenCredit(taken: set<(Mac, L.Taken)>, g: GrantId) {
    forall p :: p in taken && p.1.Some? ==> p.1.value.credits[g] == 0
  }

  predicate TakenTracedAt(taken: set<(Mac, L.Taken)>, g: GrantId, home: Mac) {
    forall p :: p in taken && p.0 == home && p.1.Some? && p.1.value.credits[g] > 0 ==> g in p.1.value.applied
  }

  predicate TakenNames(taken: set<(Mac, L.Taken)>, g: GrantId) {
    exists p :: p in taken && p.1.Some? && g in SessionIds(p.1.value)
  }

  /** Memory, or a snapshot that may come back, knows the grant. */
  ghost predicate Knows(w: World, g: GrantId) {
    Held(w.ledger.mem, g) || TakenNames(w.taken, g)
  }

  ghost predicate Traced(w: World, g: GrantId, home: Mac) {
    && TracedAt(w.ledger.mem.sessions, g, home) && TracedAt(w.ledger.disk.sessions, g, home)
    && TakenTracedAt(w.taken, g, home)
  }

  /** Nobody has ever granted or credited the payment. */
  ghost predicate Untouched(w: World, g: GrantId) {
    && NoCredit(w.ledger.mem.sessions, g) && NoCredit(w.ledger.disk.sessions, g) && NoTakenCredit(w.taken, g)
    && !Knows(w, g) && !OnDisk(w.ledger.disk, g)
  }

  ghost predicate Once(w: World, g: GrantId) {
    && AtMostOne(w.ledger.mem.sessions, g) && AtMostOne(w.ledger.disk.sessions, g) && TakenAtMostOne(w.taken, g)
  }

  /** While the payment is owing: once anybody knows the grant, every credit of it at home has left its trace. */
  ghost predicate OwingOk(w: World, g: GrantId, home: Mac) {
    && (Knows(w, g) ==> Traced(w, g, home))
    && (OnDisk(w.ledger.disk, g) ==> TracedAt(w.ledger.disk.sessions, g, home))
  }

  /** Handlers: what is received is in the hands of one of them, and snapshots belong to MACs that they work for. */
  predicate HandlersOk(w: World, id: string) {
    && w.paid <= w.live
    && (forall p :: p in w.taken ==> AtWork(w.live, p.0))
    && (forall h, k :: h in w.paid && k in w.paid && h.0 == id && k.0 == id ==> h == k)
    && (InHand(w.paid, id) ==> id in w.spent)
  }

  /** The mint calls every token spent whose payment is journalled as received or reconciled. */
  predicate RowsOk(w: World, id: string) {
    forall i :: 0 <= i < |w.journal| && w.journal[i].id == id && SettledPhase(w.journal[i].body.phase) ==> id in w.spent
  }

  ghost predicate StageOk(w: World, id: string, home: Mac) {
    match w.at
    case Idle => true
    case Applied(k, entry, _, _, _) =>
      k == id ==> entry.mac == home && id in w.spent && !InHand(w.paid, id) && Traced(w, Cashu(id), home)
    case Recreated(k, _, _) => k == id ==> id in w.spent
    case Delivered(k, _, _) => k == id ==> id in w.spent
    case Closed(k) => k == id ==> id in w.spent && DurablyClosed(w, id)
  }

  ghost predicate Inv(w: World, id: string, home: Mac) {
    && L.Sound(w.ledger) && HandlersOk(w, id) && RowsOk(w, id)
    && (id !in w.spent || InHand(w.paid, id) ==> Untouched(w, Cashu(id)))
    && Once(w, Cashu(id))
    && (Owing(w, id) ==> OwingOk(w, Cashu(id), home))
    && StageOk(w, id, home)
  }

  // ---------------------------------------------------------------- moves that leave the ledger alone

  lemma FewerSnapshots(w: World, w': World, g: GrantId, home: Mac)
    requires w'.ledger == w.ledger && w'.taken <= w.taken
    ensures Knows(w', g) ==> Knows(w, g)
    ensures Untouched(w, g) ==> Untouched(w', g)
    ensures Once(w, g) ==> Once(w', g)
    ensures Traced(w, g, home) ==> Traced(w', g, home)
    ensures OwingOk(w, g, home) ==> OwingOk(w', g, home)
    ensures Untouched(w, g) ==> OwingOk(w, g, home)
  {}

  lemma QuietKeeps(w: World, w': World, id: string, home: Mac)
    requires Inv(w, id, home) && w'.ledger == w.ledger && w'.taken <= w.taken
    requires HandlersOk(w', id) && RowsOk(w', id) && StageOk(w', id, home)
    requires id !in w'.spent || InHand(w'.paid, id) ==> Untouched(w, Cashu(id))
    requires Owing(w', id) ==> Owing(w, id) || Untouched(w, Cashu(id))
    ensures Inv(w', id, home)
  {
    FewerSnapshots(w, w', Cashu(id), home);
  }

  lemma StageSame(w: World, w': World, id: string, home: Mac)
    requires StageOk(w, id, home) && w'.at == w.at && w'.ledger == w.ledger && w'.taken <= w.taken &&
      w.spent <= w'.spent
    requires w.at.Applied? && w.at.id == id ==> !InHand(w'.paid, id)
    requires w.at.Closed? && w.at.id == id ==> DurablyClosed(w', id)
    ensures StageOk(w', id, home)
  {
    FewerSnapshots(w, w', Cashu(id), home);
  }

  lemma OwingAfter(w: World, m: Move, id: string, home: Mac)
    requires Inv(w, id, home) && Enabled(w, m) && Guarded(w, m, id, home)
    requires Next(w, m).at == w.at || !(Next(w, m).at.Applied? && Next(w, m).at.id == id)
    ensures Owing(Next(w, m), id) ==> Owing(w, id) || Untouched(w, Cashu(id))
  {
    if DurablyClosed(w, id) && !Reopens(w, m, id) {
      StaysClosed(w, m, id);
    }
  }

  lemma LoggedRows(w: World, k: string, body: Payment, result: Append, id: string)
    requires RowsOk(w, id) && (k == id && SettledPhase(body.phase) ==> id in w.spent)
    ensures RowsOk(Log(w, k, body, result), id)
  {}

  /** A settled row is only ever written for a token that is spent. */
  lemma RowIsSettledWhenSpent(w: World, m: Move, id: string, home: Mac)
    requires StageOk(w, id, home) && Enabled(w, m) && RowOf(w, m).Some?
    ensures var row := RowOf(w, m).value; row.id == id && SettledPhase(row.body.phase) ==> id in w.spent
  {}

  lemma RowsAfter(w: World, m: Move, id: string, home: Mac)
    requires Inv(w, id, home) && Enabled(w, m)
    ensures RowsOk(Next(w, m), id)
  {
    if !m.Restart? {
      RowsOnly(w, m);
      var row := RowOf(w, m);
      if row.Some? {
        RowIsSettledWhenSpent(w, m, id, home);
        LoggedRows(w, row.value.id, row.value.body, row.value.result, id);
      }
      SpentGrows(w, m);
    }
  }

  lemma SpentGrows(w: World, m: Move)
    requires Enabled(w, m)
    ensures w.spent <= Next(w, m).spent
  {}

  lemma HandlersAfter(w: World, m: Move, id: string)
    requires HandlersOk(w, id) && Enabled(w, m)
    ensures HandlersOk(Next(w, m), id)
  {
    if m.Post? || m.Finish? || m.Receive? || m.LiveGrant? {
      var w' := Next(w, m);
      forall p | p in w'.taken ensures AtWork(w'.live, p.0) {
        if m.LiveGrant? && p !in w.taken {
          assert (m.id, m.mac) in w.live;
        } else if !m.Finish? {
          var h :| h in w.live && h.1 == p.0;
          assert h in w'.live;
        }
      }
    }
  }

  predicate Quiet(m: Move) {
    || m.Post? || m.Receive? || m.LiveAppend? || m.Finish? || m.LearnSpent?
    || m.CloseUnspent? || m.CloseZeroSteps? || m.CloseCliFund?
    || m.AppendOnly? || m.OpenGate? || m.MarkDelivered? || m.AlreadyDelivered? || m.OpenRecreated? || m.Terminal?
  }

  lemma QuietStage(w: World, m: Move, id: string, home: Mac)
    requires Inv(w, id, home) && Enabled(w, m) && Guarded(w, m, id, home) && Quiet(m)
    ensures StageOk(Next(w, m), id, home)
  {
    var w' := Next(w, m);
    if w'.at == w.at {
      if w.at.Closed? && w.at.id == id {
        StaysClosed(w, m, id);
      }
      StageSame(w, w', id, home);
    } else if m.Terminal? && m.result.AppendOk? {
      var row := RowOf(w, m).value;
      LogKeepsClosed(w, row.id, row.body, row.result, row.id);
      SameRows(Log(w, row.id, row.body, row.result), w', row.id);
    }
  }

  lemma QuietMovesKeep(w: World, m: Move, id: string, home: Mac)
    requires Inv(w, id, home) && Enabled(w, m) && Guarded(w, m, id, home) && Quiet(m)
    ensures Inv(Next(w, m), id, home)
  {
    QuietStage(w, m, id, home);
    HandlersAfter(w, m, id);
    RowsAfter(w, m, id, home);
    OwingAfter(w, m, id, home);
    QuietHands(w, m, id, home);
    QuietKeeps(w, Next(w, m), id, home);
  }

  lemma QuietHands(w: World, m: Move, id: string, home: Mac)
    requires Inv(w, id, home) && Enabled(w, m) && Quiet(m)
    ensures Next(w, m).ledger == w.ledger && Next(w, m).taken <= w.taken
    ensures id !in Next(w, m).spent || InHand(Next(w, m).paid, id) ==> Untouched(w, Cashu(id))
  {}

  // ---------------------------------------------------------------- steps of the ledger about other grants

  lemma FollowedOnce(w: World, w': World, g: GrantId)
    requires Follows(w.ledger, w'.ledger, g)
    requires forall p :: p in w'.taken ==> p in w.taken || p.1 == Snapshot(w.ledger.mem, p.0)
    ensures Once(w, g) ==> Once(w', g)
    ensures Knows(w', g) ==> Knows(w, g)
    ensures Untouched(w, g) ==> Untouched(w', g)
  {}

  lemma FollowedTraces(w: World, w': World, g: GrantId, home: Mac)
    requires Follows(w.ledger, w'.ledger, g)
    requires forall p :: p in w'.taken ==> p in w.taken || p.1 == Snapshot(w.ledger.mem, p.0)
    ensures Traced(w, g, home) ==> Traced(w', g, home)
    ensures OwingOk(w, g, home) ==> OwingOk(w', g, home)
  {
    FollowedOnce(w, w', g);
  }

  /** The move steps the ledger, forwards, and for other grants. */
  predicate Foreign(w: World, m: Move, g: GrantId) {
    StepOf(w, m).Some? && !m.Restart? && !m.RollBackLate? && g !in L.Touched(StepOf(w, m).value.action)
  }

  lemma ForeignFollows(w: World, m: Move, id: string)
    requires L.Sound(w.ledger) && Enabled(w, m) && Foreign(w, m, Cashu(id))
    ensures Follows(w.ledger, Next(w, m).ledger, Cashu(id)) && L.Sound(Next(w, m).ledger)
    ensures forall p :: p in Next(w, m).taken ==> p in w.taken || p.1 == Snapshot(w.ledger.mem, p.0)
  {
    var t := StepOf(w, m).value;
    LedgerOnly(w, m);
    TakenBy(w, m);
    StepFollows(w.ledger, t, Cashu(id));
    L.StepKeeps(w.ledger, t, Cashu(id));
  }

  lemma ForeignStage(w: World, m: Move, id: string, home: Mac)
    requires Inv(w, id, home) && Enabled(w, m) && Foreign(w, m, Cashu(id))
    ensures StageOk(Next(w, m), id, home)
  {
    var w' := Next(w, m);
    ForeignFollows(w, m, id);
    FollowedTraces(w, w', Cashu(id), home);
    SameRows(w, w', id);
  }

  lemma ForeignHands(w: World, m: Move, id: string, home: Mac)
    requires Inv(w, id, home) && Enabled(w, m) && Foreign(w, m, Cashu(id))
    ensures Next(w, m).spent == w.spent && (InHand(Next(w, m).paid, id) ==> InHand(w.paid, id))
    ensures Owing(Next(w, m), id) ==> Owing(w, id)
  {
    SameRows(w, Next(w, m), id);
  }

  lemma ForeignMovesKeep(w: World, m: Move, id: string, home: Mac)
    requires Inv(w, id, home) && Enabled(w, m) && Foreign(w, m, Cashu(id))
    ensures Inv(Next(w, m), id, home)
  {
    var w', g := Next(w, m), Cashu(id);
    ForeignFollows(w, m, id);
    FollowedOnce(w, w', g);
    FollowedTraces(w, w', g, home);
    ForeignStage(w, m, id, home);
    ForeignHands(w, m, id, home);
    HandlersAfter(w, m, id);
    RowsAfter(w, m, id, home);
  }

  // ---------------------------------------------------------------- going back

  lemma ReloadOk(w: World, w': World, g: GrantId, home: Mac)
    requires w'.ledger == Reload(w.ledger) && w'.taken == {}
    ensures Once(w, g) ==> Once(w', g)
    ensures Untouched(w, g) ==> Untouched(w', g)
    ensures OwingOk(w, g, home) ==> OwingOk(w', g, home)
  {
    L.LoadHolds(w.ledger.disk, g);
  }

  lemma RestartKeeps(w: World, lost: nat, id: string, home: Mac)
    requires Inv(w, id, home)
    ensures Inv(Next(w, Restart(lost)), id, home)
  {
    var w' := Next(w, Restart(lost));
    ReloadOk(w, w', Cashu(id), home);
    L.StepKeeps(w.ledger, L.Timed(L.Crash, 0), Cashu(id));
    RestartKeepsClosed(w, lost, id);
    HandlersAfter(w, Restart(lost), id);
    RowsAfter(w, Restart(lost), id, home);
  }

  lemma RolledBack(w: World, w': World, mac: Mac, snapshot: L.Taken, g: GrantId, home: Mac)
    requires (mac, snapshot) in w.taken
    requires w' == w.(ledger := w.ledger.(mem := Rollback(w.ledger.mem, mac, snapshot)))
    ensures Once(w, g) ==> Once(w', g)
    ensures Knows(w', g) ==> Knows(w, g)
    ensures Untouched(w, g) ==> Untouched(w', g)
    ensures Traced(w, g, home) ==> Traced(w', g, home)
    ensures OwingOk(w, g, home) ==> OwingOk(w', g, home)
  {
    var p := (mac, snapshot);
    assert p.1 == snapshot;
    if Carried(w'.ledger.mem.sessions, g) {
      var k :| k in w'.ledger.mem.sessions && g in SessionIds(w'.ledger.mem.sessions[k]);
      if k != mac {
        assert k in w.ledger.mem.sessions && g in SessionIds(w.ledger.mem.sessions[k]);
      } else {
        assert TakenNames(w.taken, g);
      }
    }
  }

  lemma RollBackLateKeeps(w: World, mac: Mac, snapshot: L.Taken, id: string, home: Mac)
    requires Inv(w, id, home) && Enabled(w, RollBackLate(mac, snapshot))
    ensures Inv(Next(w, RollBackLate(mac, snapshot)), id, home)
  {
    var w' := Next(w, RollBackLate(mac, snapshot));
    RolledBack(w, w', mac, snapshot, Cashu(id), home);
    L.StepKeeps(w.ledger, L.Timed(L.RollBackLate(mac, snapshot), 0), Cashu(id));
    SameRows(w, w', id);
  }

  // ---------------------------------------------------------------- the moves that are about the payment

  /** The handler adds the allotment of a payment that nobody has touched. */
  lemma LiveCredits(m: Memory, mac: Mac, metric: string, amount: nat, now: nat, g: GrantId)
    requires NoCredit(m.sessions, g) && !Held(m, g)
    ensures var m' := ExtendLive(m, mac, metric, amount, GRANT_SECS, g, now);
      AtMostOne(m'.sessions, g) && !Held(m', g)
  {
    AddLeavesNoTrace(m, mac, metric, amount, now, g);
    var m1 := GrantLedger.AddAllotment(m, mac, metric, amount, GRANT_SECS, None, now);
    if Held(Count(m1, mac, g), g) {
      CountLeavesNoTrace(m1, mac, g);
    }
  }

  lemma CountLeavesNoTrace(m: Memory, mac: Mac, g: GrantId)
    requires mac in m.sessions && Held(Count(m, mac, g), g)
    ensures Held(m, g)
  {
    var ss := Count(m, mac, g).sessions;
    if g !in m.tombs {
      var k :| k in ss && g in SessionIds(ss[k]);
      assert k in m.sessions && g in SessionIds(m.sessions[k]);
    }
  }

  lemma AddLeavesNoTrace(m: Memory, mac: Mac, metric: string, amount: nat, now: nat, g: GrantId)
    requires NoCredit(m.sessions, g) && !Held(m, g)
    ensures var m' := GrantLedger.AddAllotment(m, mac, metric, amount, GRANT_SECS, None, now);
      NoCredit(m'.sessions, g) && !Held(m', g)
  {
    AddFollows(m, mac, metric, amount, GRANT_SECS, None, now, g);
  }

  lemma LiveGrantHands(w: World, m: Move, id: string)
    requires m.LiveGrant? && m.id == id && HandlersOk(w, id) && Enabled(w, m)
    ensures InHand(w.paid, id) && id in w.spent && !InHand(Next(w, m).paid, id) && Next(w, m).spent == w.spent
  {
    assert (id, m.mac) in w.paid;
  }

  lemma LiveGrantLedger(w: World, m: Move, id: string, home: Mac)
    requires m.LiveGrant? && m.id == id && Enabled(w, m) && Untouched(w, Cashu(id)) && L.Sound(w.ledger)
    ensures var w', g := Next(w, m), Cashu(id);
      L.Sound(w'.ledger) && Once(w', g) && OwingOk(w', g, home)
  {
    LiveCredits(w.ledger.mem, m.mac, m.metric, m.amount, m.now, Cashu(id));
    L.StepKeeps(w.ledger, LiveStep(id, m.mac, m.metric, m.amount, m.now), Cashu(id));
  }

  lemma LiveGrantKeeps(w: World, m: Move, id: string, home: Mac)
    requires m.LiveGrant? && m.id == id && Inv(w, id, home) && Enabled(w, m)
    ensures Inv(Next(w, m), id, home)
  {
    LiveGrantHands(w, m, id);
    LiveGrantLedger(w, m, id, home);
    HandlersAfter(w, m, id);
    SameRows(w, Next(w, m), id);
  }

  /** A replay starts a new session, of one credit. */
  lemma ReplayKeeps(w: World, m: Move, id: string, home: Mac)
    requires m.ReplaySettled? && m.id == id && Inv(w, id, home) && Enabled(w, m) && Guarded(w, m, id, home)
    ensures Inv(Next(w, m), id, home)
  {
    var w' := Next(w, m);
    SettledIsSpent(w, id);
    L.StepKeeps(w.ledger, ReplayStep(id, m.mac, m.metric, m.allotment, m.now), Cashu(id));
    HandlersAfter(w, m, id);
    SameRows(w, w', id);
  }

  lemma SettledIsSpent(w: World, id: string)
    requires RowsOk(w, id) && Settled(w.journal, id)
    ensures id in w.spent
  {
    FoldIsLast(w.journal, id);
    var i :| 0 <= i < |w.journal| && w.journal[i] == Row(id, FoldLast(w.journal)[id]);
    assert w.journal[i].id == id;
  }

  lemma ForgottenKeeps(w: World, ids: set<string>, id: string, home: Mac)
    requires Inv(w, id, home) && id in ids && DurablyClosed(w, id)
    ensures Inv(Forgotten(w, ids), id, home)
  {
    var w', g := Forgotten(w, ids), Cashu(id);
    L.ForgetKeeps(w.ledger, CashuIds(ids), g);
    ForgottenUntouched(w, ids, g);
    SameRows(w, w', id);
  }

  lemma ForgottenUntouched(w: World, ids: set<string>, g: GrantId)
    ensures Once(w, g) ==> Once(Forgotten(w, ids), g)
    ensures Untouched(w, g) ==> Untouched(Forgotten(w, ids), g)
  {
    var ss := Forgotten(w, ids).ledger.mem.sessions;
    if Carried(ss, g) {
      var k :| k in ss && g in SessionIds(ss[k]);
      assert k in w.ledger.mem.sessions && g in SessionIds(w.ledger.mem.sessions[k]);
    }
  }

  ghost predicate LedgerReady(l: Ledger, g: GrantId, home: Mac) {
    && AtMostOne(l.mem.sessions, g) && AtMostOne(l.disk.sessions, g)
    && (Held(l.mem, g) || OnDisk(l.disk, g) ==> TracedAt(l.disk.sessions, g, home))
  }

  ghost predicate GrantOk(l: Ledger, l': Ledger, ok: bool, g: GrantId, home: Mac) {
    && AtMostOne(l'.mem.sessions, g) && AtMostOne(l'.disk.sessions, g)
    && (ok ==> TracedAt(l'.mem.sessions, g, home) && TracedAt(l'.disk.sessions, g, home))
    && (!ok ==> l'.mem.sessions == l.mem.sessions && (Held(l'.mem, g) ==> Held(l.mem, g)))
    && (TracedAt(l.disk.sessions, g, home) ==> TracedAt(l'.disk.sessions, g, home))
    && (OnDisk(l'.disk, g) ==> TracedAt(l'.disk.sessions, g, home))
  }

  /** What a pass grants to `home`, saved or rolled back. */
  lemma SavedGrant(l: Ledger, m: Memory, home: Mac, now: nat, fault: Fault, g: GrantId)
    requires L.Sound(l) && L.Sound(l.(mem := m)) && SameElsewhere(l.mem.sessions, m.sessions, home)
    requires home in m.sessions && m.sessions[home].expiry > now && TracedAt(m.sessions, g, home)
    requires LedgerReady(l, g, home) && AtMostOne(m.sessions, g) && (g in m.tombs ==> Held(l.mem, g))
    ensures var (l', ok) := SaveOrRollBack(l, m, home, now, fault); GrantOk(l, l', ok, g, home)
  {
    var (saved, ok) := Save(l.(mem := m), now, fault);
    L.RollbackRestores(l.mem, saved.mem, home);
    SaveShape(l.(mem := m), now, fault);
    ExpiredElsewhere(l, m, home, now, g);
    if !ok && saved.disk.sessions == l.disk.sessions && OnDisk(saved.disk, g) {
      assert g in saved.disk.tombs || Carried(l.disk.sessions, g);
    }
  }

  /** The new session is not expired, so whatever expires was there before. */
  lemma ExpiredElsewhere(l: Ledger, m: Memory, home: Mac, now: nat, g: GrantId)
    requires SameElsewhere(l.mem.sessions, m.sessions, home) && home in m.sessions && m.sessions[home].expiry > now
    ensures g in ExpiredIds(m.sessions, now) ==> Held(l.mem, g)
  {
    L.ExpiredIdsContains(m.sessions, now, g);
    if g in ExpiredIds(m.sessions, now) {
      var k :| k in m.sessions && m.sessions[k].expiry <= now && g in SessionIds(m.sessions[k]);
      assert k in m.sessions - {home};
      assert k in l.mem.sessions && l.mem.sessions[k] == m.sessions[k];
    }
  }

  /** A new grant: one credit, traced. */
  lemma NewGrant(m: Memory, home: Mac, allotment: nat, metric: string, g: GrantId, now: nat)
    requires AtMostOne(m.sessions, g) && !HasGrant(m, home, g)
    ensures var m' := ApplyGrantOnce(m, home, allotment, metric, GRANT_SECS, g, now);
      && home in m'.sessions && m'.sessions[home].expiry > now
      && AtMostOne(m'.sessions, g) && TracedAt(m'.sessions, g, home) && (g in m'.tombs ==> Held(m, g))
  {}

  /** A grant that is added to the record of `home`, which has no credit of it. */
  lemma AddedGrant(m: Memory, home: Mac, metric: string, amount: nat, g: GrantId, now: nat)
    requires AtMostOne(m.sessions, g) && (home in m.sessions ==> m.sessions[home].credits[g] == 0)
    ensures var m' := GrantLedger.Recreated(m, home, metric, amount, GRANT_SECS, g, false, now);
      && home in m'.sessions && m'.sessions[home].expiry > now
      && AtMostOne(m'.sessions, g) && TracedAt(m'.sessions, g, home) && (g in m'.tombs ==> Held(m, g))
  {}

  lemma NobodyAtHome(w: World, id: string, home: Mac)
    requires HandlersOk(w, id) && Alone(w, id, home)
    ensures TakenTracedAt(w.taken, Cashu(id), home) && !InHand(w.paid, id)
  {
    forall p | p in w.taken ensures p.0 != home {
      assert AtWork(w.live, p.0);
    }
    forall h | h in w.paid ensures h.0 != id {
      assert h in w.live;
    }
  }

  lemma BeginLedger(l: Ledger, home: Mac, allotment: nat, metric: string, g: GrantId, now: nat, fault: Fault)
    requires L.Sound(l) && LedgerReady(l, g, home) && !HasGrant(l.mem, home, g)
    ensures var (l', isNew, ok) := GrantDurably(l, home, allotment, metric, GRANT_SECS, g, now, fault);
      L.Sound(l') && GrantOk(l, l', ok, g, home)
  {
    var m := ApplyGrantOnce(l.mem, home, allotment, metric, GRANT_SECS, g, now);
    NewGrant(l.mem, home, allotment, metric, g, now);
    L.ApplyGrows(l.mem, home, allotment, metric, GRANT_SECS, g, now);
    L.GrowthKeeps(l, m, g);
    SavedGrant(l, m, home, now, fault, g);
    L.GrantKeeps(l, home, allotment, metric, GRANT_SECS, g, now, fault, g);
  }

  lemma RecreateLedger(l: Ledger, home: Mac, metric: string, amount: nat, g: GrantId, now: nat, fault: Fault)
    requires L.Sound(l) && LedgerReady(l, g, home) && (home in l.mem.sessions ==> l.mem.sessions[home].credits[g] == 0)
    ensures var (l', ok) := RecreateDurably(l, home, metric, amount, GRANT_SECS, g, false, now, fault);
      L.Sound(l') && GrantOk(l, l', ok, g, home)
  {
    var m := GrantLedger.Recreated(l.mem, home, metric, amount, GRANT_SECS, g, false, now);
    AddedGrant(l.mem, home, metric, amount, g, now);
    L.RecreatedGrows(l.mem, home, metric, amount, GRANT_SECS, g, false, now);
    L.GrowthKeeps(l, m, g);
    SavedGrant(l, m, home, now, fault, g);
    L.RecreateKeeps(l, home, metric, amount, GRANT_SECS, g, false, now, fault, g);
  }

  lemma BeginNewKeeps(w: World, m: Move, id: string, home: Mac)
    requires m.Begin? && m.id == id && Inv(w, id, home) && Enabled(w, m) && Guarded(w, m, id, home)
    requires !HasGrant(w.ledger.mem, home, Cashu(id)) && !DurablyClosed(w, id)
    ensures var w', g := Next(w, m), Cashu(id);
      && L.Sound(w'.ledger) && Once(w', g) && OwingOk(w', g, home)
      && (w'.at.Applied? ==> Traced(w', g, home))
  {
    NobodyAtHome(w, id, home);
    BeginLedger(w.ledger, home, Allotment(m.entry, m.amountSat), m.entry.metric, Cashu(id), m.now, m.fault);
  }

  lemma BeginKeeps(w: World, m: Move, id: string, home: Mac)
    requires m.Begin? && m.id == id && Inv(w, id, home) && Enabled(w, m) && Guarded(w, m, id, home)
    ensures Inv(Next(w, m), id, home)
  {
    ClosedWhenDurable(w, id);
    NobodyAtHome(w, id, home);
    SameRows(w, Next(w, m), id);
    if !HasGrant(w.ledger.mem, home, Cashu(id)) {
      BeginNewKeeps(w, m, id, home);
    }
  }

  lemma RecreateSaved(w: World, fault: Fault, id: string, home: Mac)
    requires Inv(w, id, home) && Enabled(w, Recreate(fault)) && w.at.id == id && ExtendsStranger(w)
    ensures var w', g := Next(w, Recreate(fault)), Cashu(id);
      L.Sound(w'.ledger) && Once(w', g) && Traced(w', g, home)
  {
    var entry := w.at.entry;
    RecreateLedger(w.ledger, home, entry.metric, Allotment(entry, w.at.amountSat), Cashu(id), w.at.now, fault);
  }

  lemma RecreateKeeps(w: World, fault: Fault, id: string, home: Mac)
    requires Inv(w, id, home) && Enabled(w, Recreate(fault)) && Guarded(w, Recreate(fault), id, home) && w.at.id == id
    ensures Inv(Next(w, Recreate(fault)), id, home)
  {
    RecreateSaved(w, fault, id, home);
    SameRows(w, Next(w, Recreate(fault)), id);
  }

  lemma OwnMovesKeep(w: World, m: Move, id: string, home: Mac)
    requires Inv(w, id, home) && Enabled(w, m) && Guarded(w, m, id, home)
    requires StepOf(w, m).Some? && !m.RollBackLate? && !m.Restart? && !Foreign(w, m, Cashu(id))
    ensures Inv(Next(w, m), id, home)
  {
    if m.LiveGrant? {
      LiveGrantKeeps(w, m, id, home);
    } else if m.ReplaySettled? {
      ReplayKeeps(w, m, id, home);
    } else if m.Begin? {
      BeginKeeps(w, m, id, home);
    } else if m.Recreate? {
      RecreateKeeps(w, m.fault, id, home);
    } else if m.ForgetClosed? {
      ForgottenKeeps(w, {w.at.id}, id, home);
    } else if m.SweepTerminal? {
      ForgottenKeeps(w, m.ids, id, home);
    }
  }

  lemma NextKeeps(w: World, m: Move, id: string, home: Mac)
    requires Inv(w, id, home) && Enabled(w, m) && Guarded(w, m, id, home)
    ensures Inv(Next(w, m), id, home)
  {
    if m.RollBackLate? {
      RollBackLateKeeps(w, m.mac, m.snapshot, id, home);
    } else if m.Restart? {
      RestartKeeps(w, m.lost, id, home);
    } else if StepOf(w, m).None? {
      QuietMovesKeep(w, m, id, home);
    } else if Foreign(w, m, Cashu(id)) {
      ForeignMovesKeep(w, m, id, home);
    } else {
      OwnMovesKeep(w, m, id, home);
    }
  }

  lemma {:induction false} EveryRunKeeps(w: World, ms: seq<Move>, id: string, home: Mac)
    requires Fresh(w) && Valid(w, ms) && GuardedRun(w, ms, id, home)
    ensures Inv(Exec(w, ms), id, home)
  {
    if ms != [] {
      EveryRunKeeps(w, ms[..|ms| - 1], id, home);
      NextKeeps(Exec(w, ms[..|ms| - 1]), ms[|ms| - 1], id, home);
    }
  }

  /** Over every run that is guarded for a payment, no session, in memory or on disk, is credited that payment twice:
      neither by its handler and a pass, nor by two passes. */
  lemma CreditedAtMostOnce(w: World, ms: seq<Move>, v: World, mac: Mac, id: string, home: Mac)
    requires Fresh(w) && Runs(w, ms, v) && GuardedRun(w, ms, id, home)
    ensures mac in v.ledger.mem.sessions ==> v.ledger.mem.sessions[mac].credits[Cashu(id)] <= 1
    ensures mac in v.ledger.disk.sessions ==> v.ledger.disk.sessions[mac].credits[Cashu(id)] <= 1
  {
    EveryRunKeeps(w, ms, id, home);
  }
}
