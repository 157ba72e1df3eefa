/** One session per reconciled payment: what passes, restarts and everybody else may do while it is live. */
module CashuSessions {
  import opened Options
  import opened Journals
  import opened GrantLedger
  import opened CashuRuns
  import L = LedgerRuns

  /** What a customer was granted. */
  datatype Core = Core(allotment: nat, metric: string, expiry: nat, grantedAt: nat)

  function CoreOf(s: Session): Core {
    Core(s.allotment, s.metric, s.expiry, s.grantedAt)
  }

  /** The session is there, and not used up. */
  predicate Has(ss: map<Mac, Session>, mac: Mac, core: Core) {
    mac in ss && CoreOf(ss[mac]) == core && ss[mac].used < core.allotment
  }

  predicate Names(ss: map<Mac, Session>, mac: Mac, id: string) {
    mac in ss && Cashu(id) in ss[mac].applied
  }

  /** The session of `mac`, in memory and on disk. */
  ghost predicate Kept(l: Ledger, mac: Mac, core: Core) {
    Has(l.mem.sessions, mac, core) && Has(l.disk.sessions, mac, core)
  }

  ghost predicate Named(l: Ledger, mac: Mac, id: string) {
    Names(l.mem.sessions, mac, id) && Names(l.disk.sessions, mac, id)
  }

  /** The session granted for `id` stands, in memory and on disk; and while a crash may leave the entry undecided both
      name it. */
  ghost predicate Stands(w: World, id: string, mac: Mac, core: Core) {
    && Kept(w.ledger, mac, core)
    && (!DurablyClosed(w, id) ==> Named(w.ledger, mac, id))
    && StageStands(w, id, mac, core)
  }

  ghost predicate StageStands(w: World, id: string, mac: Mac, core: Core) {
    match w.at
    case Applied(k, entry, _, _, now) =>
      now < core.expiry &&
      if k == id then entry.mac == mac && Names(w.ledger.mem.sessions, mac, id) else entry.mac != mac
    case Recreated(k, _, _) => k != id
    case Closed(k) => k == id ==> DurablyClosed(w, id)
    case _ => true
  }

  /** The action leaves the session of `mac` to itself, or meters it without using it up. */
  predicate Elsewhere(a: L.Action, mac: Mac, id: string, core: Core) {
    match a
    case ReplayPayment(k, _, _, _, _) => k != mac
    case LiveGrant(k, _, _, _, _) => k != mac
    case Extend(k, _, _, _, _) => k != mac
    case Grant(k, _, _, _, _) => k != mac
    case GrantOrRollBack(k, _, _, _, _, _) => k != mac
    case RecreateOrRollBack(k, _, _, _, _, _, _) => k != mac
    case ForgetIds(ids) => Cashu(id) !in ids
    case RollBackLate(k, _) => k != mac
    case RevokeOne(k) => k != mac
    case SetUsage(k, used) => k == mac ==> used < core.allotment
    case CleanUp => true
    case SaveAll(_) => true
    case Crash => false
  }

  /** Nobody but the passes over this entry grants on its MAC or rolls its session back, no row reopens the entry once
      it is durably closed, the session is unexpired whenever sessions are saved, and the sweep waits until the
      entry's closing row is synced.  Metering, other entries, other MACs, saves and rows of the live path are free. */
  ghost predicate OwnMove(w: World, m: Move, id: string, mac: Mac, core: Core) {
    && (DurablyClosed(w, id) ==> !Reopens(w, m, id))
    && match m
       case Begin(k, entry, _, now, _) =>
         now < core.expiry && if k == id then entry.mac == mac && !DurablyClosed(w, id) else entry.mac != mac
       case SweepTerminal(ids) => id in ids ==> DurablyClosed(w, id)
       case LiveGrant(_, k, _, _, _) => k != mac
       case RollBackLate(k, _) => k != mac
       case ReplaySettled(_, k, _, _, now) => k != mac || now < core.expiry
       case Other(t) => Elsewhere(t.action, mac, id, core) && t.now < core.expiry
       case _ => true
  }

  // ---------------------------------------------------------------- steps of the ledger

  /** Nothing of the session is lost. */
  ghost predicate NothingLost(l: Ledger, l': Ledger, mac: Mac, core: Core, id: string) {
    && Kept(l', mac, core)
    && (Named(l, mac, id) ==> Named(l', mac, id))
    && (Names(l.mem.sessions, mac, id) ==> Names(l'.mem.sessions, mac, id))
  }

  lemma SaveStands(l: Ledger, now: nat, fault: Fault, mac: Mac, core: Core, id: string)
    requires Kept(l, mac, core) && now < core.expiry
    ensures NothingLost(l, Save(l, now, fault).0, mac, core, id)
  {}

  lemma SaveOrRollBackStands(l: Ledger, granted: Memory, k: Mac, now: nat, fault: Fault, mac: Mac, core: Core,
                             id: string)
    requires Kept(l, mac, core) && now < core.expiry && k != mac
    requires mac in granted.sessions && granted.sessions[mac] == l.mem.sessions[mac]
    ensures NothingLost(l, SaveOrRollBack(l, granted, k, now, fault).0, mac, core, id)
    ensures var ss := SaveOrRollBack(l, granted, k, now, fault).0.mem.sessions;
      mac in ss && ss[mac] == l.mem.sessions[mac]
  {
    SaveStands(l.(mem := granted), now, fault, mac, core, id);
  }

  /** Steps of the ledger that end in a save. */
  lemma SavedElsewhereStands(l: Ledger, t: L.Timed, mac: Mac, core: Core, id: string)
    requires Kept(l, mac, core) && Elsewhere(t.action, mac, id, core) && t.now < core.expiry
    requires t.action.GrantOrRollBack? || t.action.RecreateOrRollBack? || t.action.SaveAll?
    ensures NothingLost(l, L.Step(l, t).0, mac, core, id)
    ensures L.Step(l, t).0.mem.sessions[mac] == l.mem.sessions[mac]
  {
    var now, a := t.now, t.action;
    if a.GrantOrRollBack? {
      var m := ApplyGrantOnce(l.mem, a.mac, a.allotment, a.metric, a.secs, a.id, now);
      SaveOrRollBackStands(l, m, a.mac, now, a.fault, mac, core, id);
    } else if a.RecreateOrRollBack? {
      var m := GrantLedger.Recreated(l.mem, a.mac, a.metric, a.amount, a.secs, a.id, a.replaceDead, now);
      SaveOrRollBackStands(l, m, a.mac, now, a.fault, mac, core, id);
    } else {
      SaveStands(l, now, a.fault, mac, core, id);
    }
  }

  lemma ElsewhereStands(l: Ledger, t: L.Timed, mac: Mac, core: Core, id: string)
    requires Kept(l, mac, core) && Elsewhere(t.action, mac, id, core) && t.now < core.expiry
    ensures NothingLost(l, L.Step(l, t).0, mac, core, id)
    ensures t.action.SetUsage? || L.Step(l, t).0.mem.sessions[mac].used == l.mem.sessions[mac].used
  {
    if t.action.GrantOrRollBack? || t.action.RecreateOrRollBack? || t.action.SaveAll? {
      SavedElsewhereStands(l, t, mac, core, id);
    }
  }

  // ---------------------------------------------------------------- moves

  /** The usage that the monitor has noted is kept too. */
  predicate SameUsage(w: World, w': World, mac: Mac) {
    && mac in w.ledger.mem.sessions && mac in w'.ledger.mem.sessions
    && w'.ledger.mem.sessions[mac].used == w.ledger.mem.sessions[mac].used
  }

  /** A step of the ledger elsewhere. */
  lemma LedgerStands(w: World, w': World, t: L.Timed, id: string, mac: Mac, core: Core)
    requires Stands(w, id, mac, core) && Elsewhere(t.action, mac, id, core) && t.now < core.expiry
    requires w'.ledger == L.Step(w.ledger, t).0 && w'.journal == w.journal && w'.unsynced == w.unsynced && w'.at == w.at
    ensures Stands(w', id, mac, core) && (t.action.SetUsage? || SameUsage(w, w', mac))
  {
    ElsewhereStands(w.ledger, t, mac, core, id);
    SameRows(w, w', id);
  }

  lemma BeginStands(w: World, m: Move, id: string, mac: Mac, core: Core)
    requires m.Begin? && Stands(w, id, mac, core) && Enabled(w, m) && OwnMove(w, m, id, mac, core)
    ensures Stands(Next(w, m), id, mac, core) && SameUsage(w, Next(w, m), mac)
  {
    SameRows(w, Next(w, m), id);
    if m.id == id {
      assert HasGrant(w.ledger.mem, mac, Cashu(id));
    } else {
      var a := L.GrantOrRollBack(m.entry.mac, Allotment(m.entry, m.amountSat), m.entry.metric, GRANT_SECS,
                                 Cashu(m.id), m.fault);
      ElsewhereStands(w.ledger, L.Timed(a, m.now), mac, core, id);
    }
  }

  /** While the session is live there is nothing to recreate for its own entry. */
  lemma RecreateStands(w: World, fault: Fault, id: string, mac: Mac, core: Core)
    requires Stands(w, id, mac, core) && Enabled(w, Recreate(fault))
    ensures Stands(Next(w, Recreate(fault)), id, mac, core) && SameUsage(w, Next(w, Recreate(fault)), mac)
  {
    var entry, k := w.at.entry, Cashu(w.at.id);
    assert w.at.id != id;
    var a := L.RecreateOrRollBack(entry.mac, entry.metric, Allotment(entry, w.at.amountSat), GRANT_SECS, k, false,
                                  fault);
    ElsewhereStands(w.ledger, L.Timed(a, w.at.now), mac, core, id);
    SameRows(w, Next(w, Recreate(fault)), id);
  }

  lemma ForgottenStands(w: World, ids: set<string>, id: string, mac: Mac, core: Core)
    requires Stands(w, id, mac, core) && (id in ids ==> DurablyClosed(w, id))
    ensures Stands(Forgotten(w, ids), id, mac, core) && SameUsage(w, Forgotten(w, ids), mac)
  {
    var s := w.ledger.mem.sessions[mac];
    assert CoreOf(Strip(s, CashuIds(ids))) == core;
    assert id !in ids ==> Cashu(id) !in CashuIds(ids);
    SameRows(w, Forgotten(w, ids), id);
  }

  lemma RestartStands(w: World, lost: nat, id: string, mac: Mac, core: Core)
    requires Stands(w, id, mac, core)
    ensures Stands(Next(w, Restart(lost)), id, mac, core)
  {
    RestartKeepsClosed(w, lost, id);
  }

  /** Moves that leave the ledger alone. */
  lemma PlainStands(w: World, m: Move, id: string, mac: Mac, core: Core)
    requires Stands(w, id, mac, core) && Enabled(w, m) && OwnMove(w, m, id, mac, core)
    requires RowOf(w, m).Some? || m.Receive? || m.Finish? || m.LearnSpent? || m.AppendOnly? || m.OpenGate?
      || m.AlreadyDelivered? || m.OpenRecreated?
    ensures Stands(Next(w, m), id, mac, core) && SameUsage(w, Next(w, m), mac)
  {
    if DurablyClosed(w, id) {
      StaysClosed(w, m, id);
    }
    if m.Terminal? && m.result.AppendOk? {
      var row := RowOf(w, m).value;
      LogKeepsClosed(w, row.id, row.body, row.result, row.id);
      SameRows(Log(w, row.id, row.body, row.result), Next(w, m), row.id);
    }
  }

  lemma LedgerMovesStand(w: World, m: Move, id: string, mac: Mac, core: Core)
    requires Stands(w, id, mac, core) && Enabled(w, m) && OwnMove(w, m, id, mac, core)
    requires m.RollBackLate? || m.LiveGrant? || m.ReplaySettled? || m.Other?
    ensures Stands(Next(w, m), id, mac, core)
    ensures (m.Other? && m.step.action.SetUsage?) || SameUsage(w, Next(w, m), mac)
  {
    if m.Other? {
      LedgerStands(w, Next(w, m), m.step, id, mac, core);
    } else if m.RollBackLate? {
      OtherSession(w, Next(w, m), L.Timed(L.RollBackLate(m.mac, m.snapshot), 0), id, mac, core);
    } else if m.LiveGrant? {
      OtherSession(w, Next(w, m), LiveStep(m.id, m.mac, m.metric, m.amount, m.now), id, mac, core);
    } else {
      OtherSession(w, Next(w, m), ReplayStep(m.id, m.mac, m.metric, m.allotment, m.now), id, mac, core);
    }
  }

  /** What the live path does for another MAC, whatever the time. */
  lemma OtherSession(w: World, w': World, t: L.Timed, id: string, mac: Mac, core: Core)
    requires t.action.LiveGrant? || t.action.ReplayPayment? || t.action.RollBackLate?
    requires Stands(w, id, mac, core) && t.action.mac != mac
    requires w'.ledger == L.Step(w.ledger, t).0 && w'.journal == w.journal && w'.unsynced == w.unsynced && w'.at == w.at
    ensures Stands(w', id, mac, core) && SameUsage(w, w', mac)
  {
    SameRows(w, w', id);
  }

  lemma OwnMoveStands(w: World, m: Move, id: string, mac: Mac, core: Core)
    requires Stands(w, id, mac, core) && Enabled(w, m) && OwnMove(w, m, id, mac, core)
    ensures Stands(Next(w, m), id, mac, core)
    ensures m.Restart? || (m.Other? && m.step.action.SetUsage?) || SameUsage(w, Next(w, m), mac)
  {
    if m.Begin? {
      BeginStands(w, m, id, mac, core);
    } else if m.Recreate? {
      RecreateStands(w, m.fault, id, mac, core);
    } else if m.ForgetClosed? {
      ForgottenStands(w, {w.at.id}, id, mac, core);
    } else if m.SweepTerminal? {
      ForgottenStands(w, m.ids, id, mac, core);
    } else if m.RollBackLate? || m.LiveGrant? || m.ReplaySettled? || m.Other? {
      LedgerMovesStand(w, m, id, mac, core);
    } else if m.Restart? {
      RestartStands(w, m.lost, id, mac, core);
    } else {
      PlainStands(w, m, id, mac, core);
    }
  }

  ghost predicate OwnRun(w: World, ms: seq<Move>, id: string, mac: Mac, core: Core) {
    ms == [] || (OwnRun(w, ms[..|ms| - 1], id, mac, core) &&
      OwnMove(Exec(w, ms[..|ms| - 1]), ms[|ms| - 1], id, mac, core))
  }

  /** Over any sequence of passes, restarts, saves, metering, rows of the live path and other customers' payments, the
      session granted for an entry keeps its allotment and expiry while it is live: it is created once. */
  lemma {:induction false} SessionCreatedOnce(w: World, ms: seq<Move>, id: string, mac: Mac, core: Core)
    requires Stands(w, id, mac, core) && Valid(w, ms) && OwnRun(w, ms, id, mac, core)
    ensures Stands(Exec(w, ms), id, mac, core)
  {
    if ms != [] {
      SessionCreatedOnce(w, ms[..|ms| - 1], id, mac, core);
      OwnMoveStands(Exec(w, ms[..|ms| - 1]), ms[|ms| - 1], id, mac, core);
    }
  }

  predicate Meters(m: Move) {
    m.Restart? || (m.Other? && m.step.action.SetUsage?)
  }

  /** No such sequence, however many passes are in it, changes what the customer has used, unless the monitor notes
      new usage or a restart goes back to the usage last saved. */
  lemma {:induction false} PassesKeepUsage(w: World, ms: seq<Move>, id: string, mac: Mac, core: Core)
    requires Stands(w, id, mac, core) && Valid(w, ms) && OwnRun(w, ms, id, mac, core)
    requires forall m :: m in ms ==> !Meters(m)
    ensures SameUsage(w, Exec(w, ms), mac)
  {
    if ms != [] {
      var prev := ms[..|ms| - 1];
      assert forall m :: m in prev ==> m in ms;
      assert ms[|ms| - 1] in ms;
      PassesKeepUsage(w, prev, id, mac, core);
      SessionCreatedOnce(w, prev, id, mac, core);
      OwnMoveStands(Exec(w, prev), ms[|ms| - 1], id, mac, core);
    }
  }

  // ---------------------------------------------------------------- the granting move

  /** The pass that grants and saves makes the session stand, from the gate to the terminal row. */
  lemma GrantStands(w: World, id: string, entry: Payment, amount: nat, now: nat)
    requires Enabled(w, Begin(id, entry, amount, now, NoFault)) && !HasGrant(w.ledger.mem, entry.mac, Cashu(id))
    requires Allotment(entry, amount) > 0
    ensures Stands(Next(w, Begin(id, entry, amount, now, NoFault)), id, entry.mac,
                   Core(Allotment(entry, amount), entry.metric, now + GRANT_SECS, now))
    ensures Next(w, Begin(id, entry, amount, now, NoFault)).ledger.mem.sessions[entry.mac].used == 0
  {
    var m := ApplyGrantOnce(w.ledger.mem, entry.mac, Allotment(entry, amount), entry.metric, GRANT_SECS, Cashu(id),
                            now);
    SavedSession(w.ledger, m, entry.mac, now);
  }

  lemma SavedSession(l: Ledger, granted: Memory, mac: Mac, now: nat)
    requires mac in granted.sessions && granted.sessions[mac].expiry > now
    ensures var (l', ok) := SaveOrRollBack(l, granted, mac, now, NoFault);
      && ok && l'.mem.sessions == granted.sessions
      && mac in l'.disk.sessions && l'.disk.sessions[mac] == granted.sessions[mac]
  {}

  /** A pass whose save failed leaves the session map as it was, the gate unopened and the entry as undecided
      as it was. */
  lemma FailedSaveChangesNothing(w: World, m: Move, w': World)
    requires L.Sound(w.ledger) && Does(w, m, w') && (m.Begin? || m.Recreate?) && w'.at == Idle
    ensures w'.ledger.mem.sessions == w.ledger.mem.sessions && w'.served == w.served
    ensures w'.journal == w.journal && w'.unsynced == w.unsynced && w'.retry == w.retry
  {
    match m {
      case Begin(id, entry, amount, now, fault) =>
        L.GrantKeeps(w.ledger, entry.mac, Allotment(entry, amount), entry.metric, GRANT_SECS, Cashu(id), now, fault,
                     Cashu(id));
      case Recreate(fault) =>
        var entry, id := w.at.entry, Cashu(w.at.id);
        L.RecreateKeeps(w.ledger, entry.mac, entry.metric, Allotment(entry, w.at.amountSat), GRANT_SECS, id, false,
                        w.at.now, fault, id);
    }
  }
}
