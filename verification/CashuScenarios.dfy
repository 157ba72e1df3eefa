/** Runs from a fresh router in which a Cashu payment is credited twice or granted anew. */
module CashuScenarios {
  import opened Options
  import opened Journals
  import opened GrantLedger
  import opened CashuRuns
  import L = LedgerRuns
  import R = LedgerRefinement
  import N = CashuGrants
  import V = CashuConverses

  // ---------------------------------------------------------------- a first pass grants

  /** The session of a first grant. */
  function FirstSession(id: string, entry: Payment, amount: nat): Session {
    Session(Allotment(entry, amount), 0, entry.metric, GRANT_SECS, 0, {Cashu(id)}, Some(Cashu(id)), multiset{Cashu(id)})
  }

  lemma FirstGrant(w: World, id: string, entry: Payment, amount: nat)
    requires w.ledger == R.EMPTY
    ensures Granted(w, id, entry, amount, 0, NoFault)
      == (R.Settled(entry.mac, FirstSession(id, entry, amount)), true, true)
  {
    var m := ApplyGrantOnce(w.ledger.mem, entry.mac, Allotment(entry, amount), entry.metric, GRANT_SECS, Cashu(id), 0);
    V.NewSession(w.ledger.mem, entry.mac, Allotment(entry, amount), entry.metric, Cashu(id), 0);
    assert m.sessions == map[entry.mac := FirstSession(id, entry, amount)];
    R.SaveSettles(m, w.ledger.disk, entry.mac, FirstSession(id, entry, amount), 0);
  }

  /** An undelivered payment of a customer that the live path left undecided. */
  predicate Unsettled(entry: Payment, amount: nat) {
    NeedsReconciliation(entry.phase) && !entry.gateOpened && Owes(entry, amount)
  }

  /** The pass has granted and saved; the rest of the world is as in `w`. */
  function GrantedWorld(w: World, id: string, entry: Payment, amount: nat): World {
    w.(ledger := R.Settled(entry.mac, FirstSession(id, entry, amount)), at := Applied(id, entry, amount, true, 0))
  }

  lemma FirstPass(w: World, id: string, entry: Payment, amount: nat)
    requires w.ledger == R.EMPTY && w.journal == [Row(id, entry)] && w.retry == {} && id in w.spent
    requires Unsettled(entry, amount)
    ensures Does(w, Begin(id, entry, amount, 0, NoFault), GrantedWorld(w, id, entry, amount))
  {
    FirstGrant(w, id, entry, amount);
  }

  /** The live path journals the payment, the mint calls its token spent, and a pass grants it. */
  function Paid(id: string, entry: Payment, amount: nat): seq<Move> {
    [] + [LiveAppend(id, entry, AppendOk)] + [LearnSpent(id)] + [Begin(id, entry, amount, 0, NoFault)]
  }

  function Known(w: World, id: string, entry: Payment): World {
    w.(journal := [Row(id, entry)], spent := w.spent + {id})
  }

  lemma PaidRuns(w: World, id: string, entry: Payment, amount: nat)
    requires Fresh(w) && Unsettled(entry, amount)
    ensures Runs(w, Paid(id, entry, amount), GrantedWorld(Known(w, id, entry), id, entry, amount))
  {
    var w1 := w.(journal := [Row(id, entry)]);
    assert [] + [Row(id, entry)] == [Row(id, entry)];
    FirstPass(Known(w, id, entry), id, entry, amount);
    Three(w, LiveAppend(id, entry, AppendOk), w1, LearnSpent(id), Known(w, id, entry),
          Begin(id, entry, amount, 0, NoFault),
          GrantedWorld(Known(w, id, entry), id, entry, amount));
  }

  // ---------------------------------------------------------------- onto a leftover record

  /** The restarted router has the record that was saved. */
  function Rebooted(w: World, id: string, entry: Payment, amount: nat): World {
    var s := FirstSession(id, entry, amount);
    Known(w, id, entry).(ledger := Ledger(Memory(map[entry.mac := s], {}, None, false), Disk(map[entry.mac := s], {})))
  }

  lemma GrantedReboots(w: World, id: string, entry: Payment, amount: nat)
    requires Fresh(w) && Unsettled(entry, amount)
    ensures Does(GrantedWorld(Known(w, id, entry), id, entry, amount), Restart(0), Rebooted(w, id, entry, amount))
  {
    var s := FirstSession(id, entry, amount);
    assert s.applied + {Cashu(id)} == s.applied && Seed(s) == s;
    Whole([Row(id, entry)]);
  }

  /** What the pass after the session's end finds and does. */
  lemma LaterPassExtends(w: World, id: string, entry: Payment, amount: nat)
    requires Fresh(w) && Unsettled(entry, amount)
    ensures
      var u := Rebooted(w, id, entry, amount);
      var v := u.(at := Applied(id, entry, amount, false, GRANT_SECS));
      && Does(u, Begin(id, entry, amount, GRANT_SECS, NoFault), v)
      && Enabled(v, Recreate(NoFault))
      && V.Doubled(Next(v, Recreate(NoFault)), id, entry.mac, 2 * Allotment(entry, amount) % U64)
  {
    var u := Rebooted(w, id, entry, amount);
    V.RecreationCredits(u.ledger, entry.mac, entry.metric, Allotment(entry, amount), Cashu(id), GRANT_SECS);
  }

  /** A crash after the grant, an hour off, and the next pass extends the dead record it finds, so that the customer has
      the allotment twice. */
  lemma LeftoverRecordCreditsTwice(w: World, id: string, entry: Payment, amount: nat)
    requires Fresh(w) && Unsettled(entry, amount)
    ensures
      var ms := Paid(id, entry, amount)
        + ([] + [Restart(0)] + [Begin(id, entry, amount, GRANT_SECS, NoFault)] + [Recreate(NoFault)]);
      Valid(w, ms) && V.Doubled(Exec(w, ms), id, entry.mac, 2 * Allotment(entry, amount) % U64)
  {
    var g, u := GrantedWorld(Known(w, id, entry), id, entry, amount), Rebooted(w, id, entry, amount);
    var v := u.(at := Applied(id, entry, amount, false, GRANT_SECS));
    PaidRuns(w, id, entry, amount);
    GrantedReboots(w, id, entry, amount);
    LaterPassExtends(w, id, entry, amount);
    var m2, m3 := Begin(id, entry, amount, GRANT_SECS, NoFault), Recreate(NoFault);
    Three(g, Restart(0), u, m2, v, m3, Next(v, m3));
    Chain(w, Paid(id, entry, amount), g, [] + [Restart(0)] + [m2] + [m3], Next(v, m3));
  }

  // ---------------------------------------------------------------- closed, used and granted anew

  function Spent(entry: Payment, amount: nat): Payment {
    entry.(phase := ReconcileSpent(amount))
  }

  function Uses(entry: Payment, used: nat): Move {
    Other(L.Timed(L.SetUsage(entry.mac, used), 1))
  }

  /** The gate is opened, the customer uses the session, and the terminal row is appended. */
  function Closing(entry: Payment, used: nat, result: Append): seq<Move> {
    [] + [OpenGate] + [Uses(entry, used)] + [Terminal(result)]
  }

  function Opened(g: World, id: string, entry: Payment, amount: nat, used: nat): World {
    var s := FirstSession(id, entry, amount);
    g.(at := Delivered(id, entry, amount), served := g.served + {id},
       ledger := Ledger(Memory(map[entry.mac := s.(used := used)], {}, Some({}), false), Disk(map[entry.mac := s], {})))
  }

  lemma Opening(g: World, id: string, entry: Payment, amount: nat, used: nat)
    requires g == GrantedWorld(g, id, entry, amount)
    ensures var u := g.(at := Delivered(id, entry, amount), served := g.served + {id});
      Does(g, OpenGate, u) && Does(u, Uses(entry, used), Opened(g, id, entry, amount, used))
  {}

  function ClosedWorld(g: World, id: string, entry: Payment, amount: nat, used: nat, result: Append): World
    requires !result.AppendLost?
  {
    var v := Opened(g, id, entry, amount, used);
    v.(journal := [Row(id, entry), Row(id, Spent(entry, amount))],
       unsynced := if result.AppendOk? then 0 else 1,
       retry := if result.AppendOk? then {} else {id},
       at := if result.AppendOk? then Closed(id) else Idle)
  }

  lemma TerminalCloses(g: World, id: string, entry: Payment, amount: nat, used: nat, result: Append)
    requires g.journal == [Row(id, entry)] && g.unsynced == 0 && g.retry == {} && !result.AppendLost?
    ensures Does(Opened(g, id, entry, amount, used), Terminal(result), ClosedWorld(g, id, entry, amount, used, result))
  {
    assert [Row(id, entry)] + [Row(id, Spent(entry, amount))] == [Row(id, entry), Row(id, Spent(entry, amount))];
    assert {} + {id} == {id} && {} - {id} == {};
  }

  lemma ClosingRuns(g: World, id: string, entry: Payment, amount: nat, used: nat, result: Append)
    requires g == GrantedWorld(g, id, entry, amount) && !result.AppendLost?
    requires g.journal == [Row(id, entry)] && g.unsynced == 0 && g.retry == {}
    ensures Runs(g, Closing(entry, used, result), ClosedWorld(g, id, entry, amount, used, result))
  {
    var u := g.(at := Delivered(id, entry, amount), served := g.served + {id});
    Opening(g, id, entry, amount, used);
    TerminalCloses(g, id, entry, amount, used, result);
    Three(g, OpenGate, u, Uses(entry, used), Opened(g, id, entry, amount, used), Terminal(result),
          ClosedWorld(g, id, entry, amount, used, result));
  }

  /** The customer has used the session that the payment bought. */
  predicate UsedSession(w: World, id: string, entry: Payment, amount: nat, used: nat) {
    && entry.mac in w.ledger.mem.sessions
    && w.ledger.mem.sessions[entry.mac].credits == multiset{Cashu(id)}
    && w.ledger.mem.sessions[entry.mac].allotment == Allotment(entry, amount)
    && w.ledger.mem.sessions[entry.mac].used == used
  }

  lemma PaidAndClosed(w: World, id: string, entry: Payment, amount: nat, used: nat, result: Append) returns (v: World)
    requires Fresh(w) && Unsettled(entry, amount) && !result.AppendLost?
    ensures v == ClosedWorld(GrantedWorld(Known(w, id, entry), id, entry, amount), id, entry, amount, used, result)
    ensures Runs(w, Paid(id, entry, amount) + Closing(entry, used, result), v)
    ensures UsedSession(v, id, entry, amount, used)
  {
    var g := GrantedWorld(Known(w, id, entry), id, entry, amount);
    v := ClosedWorld(g, id, entry, amount, used, result);
    PaidRuns(w, id, entry, amount);
    ClosingRuns(g, id, entry, amount, used, result);
    Chain(w, Paid(id, entry, amount), g, Closing(entry, used, result), v);
  }

  lemma ClosedLedgerIsSound(g: World, id: string, entry: Payment, amount: nat, used: nat, result: Append)
    requires !result.AppendLost?
    ensures L.Sound(ClosedWorld(g, id, entry, amount, used, result).ledger)
  {}

  /** The terminal row lands unsynced, the sweep believes it, and a crash loses it: the payment is granted anew, in the
      place of the session that it bought, however much of that is used. */
  lemma UnsyncedRowGrantsAnew(w: World, id: string, entry: Payment, amount: nat, used: nat)
    requires Fresh(w) && Unsettled(entry, amount)
    ensures
      var ms := Paid(id, entry, amount) + Closing(entry, used, LandedUnsynced);
      && Valid(w, ms + N.SweptAndLost(id, 2, 1)) && UsedSession(Exec(w, ms), id, entry, amount, used)
      && N.Anew(Exec(w, ms + N.SweptAndLost(id, 2, 1)), id, entry, amount, 3)
  {
    var ms := Paid(id, entry, amount) + Closing(entry, used, LandedUnsynced);
    var v := PaidAndClosed(w, id, entry, amount, used, LandedUnsynced);
    ClosedLedgerIsSound(GrantedWorld(Known(w, id, entry), id, entry, amount), id, entry, amount, used, LandedUnsynced);
    assert v.journal[..1] == [Row(id, entry)] && Without(v.journal, 1) == [Row(id, entry)];
    assert Row(id, entry) in Without(v.journal, 1);
    N.SweepBeforeSyncGrantsAnew(v, id, entry, amount, 1, 2, 3);
    Chain(w, ms, v, N.SweptAndLost(id, 2, 1), Exec(v, N.SweptAndLost(id, 2, 1)));
  }

  function Late(entry: Payment): Payment {
    entry.(phase := TimeoutUnknown)
  }

  /** A pass closes the entry durably while the live path is still at work on the payment, and the row that the live
      path then writes has it granted anew. */
  lemma LateRowGrantsAnew(w: World, id: string, entry: Payment, amount: nat, used: nat)
    requires Fresh(w) && Unsettled(entry, amount)
    ensures
      var ms := Paid(id, entry, amount) + Closing(entry, used, AppendOk);
      var more := [] + [LiveAppend(id, Late(entry), AppendOk)] + [ForgetClosed];
      && Valid(w, ms + more) && UsedSession(Exec(w, ms), id, entry, amount, used)
      && N.Anew(Exec(w, ms + more), id, Late(entry), amount, 3)
  {
    var ms := Paid(id, entry, amount) + Closing(entry, used, AppendOk);
    var more := [] + [LiveAppend(id, Late(entry), AppendOk)] + [ForgetClosed];
    var v := PaidAndClosed(w, id, entry, amount, used, AppendOk);
    ClosedLedgerIsSound(GrantedWorld(Known(w, id, entry), id, entry, amount), id, entry, amount, used, AppendOk);
    N.ReopenedBeforeForgettingGrantsAnew(v, id, Late(entry), amount, 3);
    Chain(w, ms, v, more, Exec(v, more));
  }

  // ---------------------------------------------------------------- a pass beside a handler

  /** A handler journals the payment and receives it. */
  function Posted(id: string, entry: Payment): seq<Move> {
    [] + [Post(id, entry, AppendOk)] + [Receive(id, entry.mac)]
  }

  function PostedWorld(w: World, id: string, entry: Payment): World {
    w.(journal := [Row(id, entry)], live := {(id, entry.mac)}, paid := {(id, entry.mac)}, spent := w.spent + {id})
  }

  lemma PostedRuns(w: World, id: string, entry: Payment)
    requires Fresh(w) && id !in w.spent && entry.phase.Intent? && !entry.gateOpened
    ensures Runs(w, Posted(id, entry), PostedWorld(w, id, entry))
  {
    var w1 := w.(journal := [Row(id, entry)], live := {(id, entry.mac)});
    assert [] + [Row(id, entry)] == [Row(id, entry)];
    assert {} + {(id, entry.mac)} == {(id, entry.mac)};
    Two(w, Post(id, entry, AppendOk), w1, Receive(id, entry.mac), PostedWorld(w, id, entry));
  }

  /** Meanwhile a pass grants the entry, opens the gate, closes it, and forgets its id. */
  function Overtaken(id: string, entry: Payment, amount: nat): seq<Move> {
    [] + [Begin(id, entry, amount, 0, NoFault)] + (Closing(entry, 0, AppendOk) + [ForgetClosed])
  }

  lemma OvertakenRuns(p: World, id: string, entry: Payment, amount: nat) returns (v: World)
    requires p.ledger == R.EMPTY && p.journal == [Row(id, entry)] && p.unsynced == 0 && p.retry == {}
    requires id in p.spent && Unsettled(entry, amount)
    ensures Runs(p, Overtaken(id, entry, amount), v)
    ensures v.paid == p.paid && v.spent == p.spent && L.Sound(v.ledger)
    ensures V.Single(v, id, entry.mac, Allotment(entry, amount))
  {
    var g := GrantedWorld(p, id, entry, amount);
    var c := ClosedWorld(g, id, entry, amount, 0, AppendOk);
    FirstPass(p, id, entry, amount);
    ClosingRuns(g, id, entry, amount, 0, AppendOk);
    ClosedLedgerIsSound(g, id, entry, amount, 0, AppendOk);
    v := ForgetsOne(c, id, entry, amount);
    OneMore(p, [], p, Begin(id, entry, amount, 0, NoFault), g);
    OneMore(g, Closing(entry, 0, AppendOk), c, ForgetClosed, v);
    Chain(p, [] + [Begin(id, entry, amount, 0, NoFault)], g, Closing(entry, 0, AppendOk) + [ForgetClosed], v);
  }

  lemma ForgetsOne(c: World, id: string, entry: Payment, amount: nat) returns (v: World)
    requires c.at == Closed(id) && L.Sound(c.ledger) && V.Single(c, id, entry.mac, Allotment(entry, amount))
    ensures Does(c, ForgetClosed, v) && v.paid == c.paid && v.spent == c.spent && L.Sound(v.ledger)
    ensures V.Single(v, id, entry.mac, Allotment(entry, amount))
  {
    v := Forgotten(c, {id});
    L.ForgetKeeps(c.ledger, CashuIds({id}), Cashu(""));
  }

  /** The handler, which saw nothing of that, adds its allotment to the session and journals the payment as received:
      the payment is in the session twice, and the journal has it settled once. */
  lemma LiveGrantAfterPassCreditsTwice(w: World, id: string, entry: Payment, amount: nat, received: nat)
    requires Fresh(w) && id !in w.spent && entry.phase.Intent? && Unsettled(entry, amount)
    ensures
      var ms := Posted(id, entry) + Overtaken(id, entry, amount)
        + [LiveGrant(id, entry.mac, entry.metric, Allotment(entry, received), 1)]
        + [LiveAppend(id, entry.(phase := Received(received)), AppendOk)];
      && Valid(w, ms) && Settled(Exec(w, ms).journal, id)
      && V.Doubled(Exec(w, ms), id, entry.mac, (Allotment(entry, amount) + Allotment(entry, received)) % U64)
  {
    var p := PostedWorld(w, id, entry);
    PostedRuns(w, id, entry);
    var v := OvertakenRuns(p, id, entry, amount);
    Chain(w, Posted(id, entry), p, Overtaken(id, entry, amount), v);
    var ms := Posted(id, entry) + Overtaken(id, entry, amount);
    var v1 := V.GrantedOnTop(w, ms, v, id, entry.mac, entry.metric, Allotment(entry, amount),
                             Allotment(entry, received), 1);
    var v2 := JournalledAsReceived(v1, id, entry.(phase := Received(received)));
    OneMore(w, ms + [LiveGrant(id, entry.mac, entry.metric, Allotment(entry, received), 1)], v1,
            LiveAppend(id, entry.(phase := Received(received)), AppendOk), v2);
  }

  lemma JournalledAsReceived(v: World, id: string, body: Payment) returns (v': World)
    requires body.phase.Received? && !body.gateOpened && id in v.spent
    ensures Does(v, LiveAppend(id, body, AppendOk), v') && v'.ledger == v.ledger && Settled(v'.journal, id)
  {
    v' := Log(v, id, body, AppendOk);
  }
}
