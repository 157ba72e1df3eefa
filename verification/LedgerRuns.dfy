/** Every run of the grant ledger: what no schedule of grants, overwrites, extensions, revocations, expiries,
    failed saves and crashes can lose. */
module LedgerRuns {
  import opened Options
  import opened GrantLedger

  /** The single slot is among the ids, as in every session this version writes. */
  predicate Tidy(s: Session) {
    s.last.Some? ==> s.last.value in s.applied
  }

  /** A snapshot of a session, if there was one. */
  type Taken = s: Option<Session> | s.Some? ==> Tidy(s.value) witness None

  /** One step.  A crash in the middle of a save is that save with a fault, followed by Crash. */
  datatype Action =
    | ReplayPayment(mac: Mac, allotment: nat, metric: string, secs: nat, payment: GrantId)
    | LiveGrant(mac: Mac, metric: string, amount: nat, secs: nat, payment: GrantId)
    | Extend(mac: Mac, metric: string, amount: nat, secs: nat, grant: GrantId)
    | Grant(mac: Mac, allotment: nat, metric: string, secs: nat, id: GrantId)
    | GrantOrRollBack(mac: Mac, allotment: nat, metric: string, secs: nat, id: GrantId, fault: Fault)
    | RecreateOrRollBack(mac: Mac, metric: string, amount: nat, secs: nat, id: GrantId, replaceDead: bool, fault: Fault)
    | ForgetIds(ids: set<GrantId>)
    | RollBackLate(mac: Mac, snapshot: Taken)
    | RevokeOne(mac: Mac)
    | CleanUp
    | SetUsage(mac: Mac, used: nat)
    | SaveAll(fault: Fault)
    | Crash

  datatype Timed = Timed(action: Action, now: nat)

  /** The ids an action brings in or takes out. */
  function Names(a: Action): set<GrantId> {
    match a
    case Extend(_, _, _, _, grant) => {grant}
    case Grant(_, _, _, _, id) => {id}
    case GrantOrRollBack(_, _, _, _, id, _) => {id}
    case RecreateOrRollBack(_, _, _, _, id, _, _) => {id}
    case ForgetIds(ids) => ids
    case RollBackLate(_, snapshot) => if snapshot.Some? then SessionIds(snapshot.value) else {}
    case _ => {}
  }

  /** The payment whose value an action puts into an allotment. */
  function Credited(a: Action): Option<GrantId> {
    match a
    case ReplayPayment(_, _, _, _, payment) => Some(payment)
    case LiveGrant(_, _, _, _, payment) => Some(payment)
    case Extend(_, _, _, _, grant) => Some(grant)
    case Grant(_, _, _, _, id) => Some(id)
    case GrantOrRollBack(_, _, _, _, id, _) => Some(id)
    case RecreateOrRollBack(_, _, _, _, id, _, _) => Some(id)
    case _ => None
  }

  /** The ids that an action names or credits. */
  function Touched(a: Action): set<GrantId> {
    Names(a) + if Credited(a).Some? then {Credited(a).value} else {}
  }

  /** The next ledger, and whether the action ended in a durable save that answered Ok. */
  function Step(l: Ledger, t: Timed): (Ledger, bool) {
    var now := t.now;
    match t.action
    case ReplayPayment(mac, allotment, metric, secs, payment) =>
      (l.(mem := Replay(l.mem, mac, allotment, metric, secs, payment, now)), false)
    case LiveGrant(mac, metric, amount, secs, payment) =>
      (l.(mem := ExtendLive(l.mem, mac, metric, amount, secs, payment, now)), false)
    case Extend(mac, metric, amount, secs, grant) =>
      (l.(mem := AddAllotment(l.mem, mac, metric, amount, secs, Some(grant), now)), false)
    case Grant(mac, allotment, metric, secs, id) =>
      (l.(mem := ApplyGrantOnce(l.mem, mac, allotment, metric, secs, id, now)), false)
    case GrantOrRollBack(mac, allotment, metric, secs, id, fault) =>
      var (l1, isNew, ok) := GrantDurably(l, mac, allotment, metric, secs, id, now, fault); (l1, isNew && ok)
    case RecreateOrRollBack(mac, metric, amount, secs, id, replaceDead, fault) =>
      RecreateDurably(l, mac, metric, amount, secs, id, replaceDead, now, fault)
    case ForgetIds(ids) => (l.(mem := Forget(l.mem, ids)), false)
    case RollBackLate(mac, snapshot) => (l.(mem := Rollback(l.mem, mac, snapshot)), false)
    case RevokeOne(mac) => (l.(mem := Revoke(l.mem, mac)), false)
    case CleanUp => (l.(mem := Cleanup(l.mem, now)), false)
    case SetUsage(mac, used) => (l.(mem := Usage(l.mem, mac, used)), false)
    case SaveAll(fault) => Save(l, now, fault)
    case Crash => (Reload(l), false)
  }

  function Run(l: Ledger, ts: seq<Timed>): Ledger {
    if ts == [] then l else Step(Run(l, ts[..|ts| - 1]), ts[|ts| - 1]).0
  }

  /** The action takes `id` out: it forgets it by name, or it rolls the session that carries it back to a snapshot
      that does not. */
  predicate TakesOut(l: Ledger, a: Action, id: GrantId) {
    || (a.ForgetIds? && id in a.ids)
    || (a.RollBackLate? && id !in l.mem.tombs && id !in Names(a)
        && a.mac in l.mem.sessions && id in SessionIds(l.mem.sessions[a.mac]))
  }

  /** `id` was in memory when some save of the run answered Ok, and has not been taken out since. */
  predicate Owed(l: Ledger, ts: seq<Timed>, id: GrantId) {
    ts != [] &&
    var prev, t := ts[..|ts| - 1], ts[|ts| - 1];
    var (l1, saved) := Step(Run(l, prev), t);
    if saved && Held(l1.mem, id) then true
    else Owed(l, prev, id) && !TakesOut(Run(l, prev), t.action, id)
  }

  // ---------------------------------------------------------------- the invariant

  ghost predicate WellFormed(m: Memory) {
    forall mac :: mac in m.sessions ==> Tidy(m.sessions[mac])
  }

  /** A cache that claims something claims the truth: the set in memory is the one in the file. */
  ghost predicate CacheHonest(l: Ledger) {
    l.mem.persisted.Some? ==> l.mem.persisted.value == l.mem.tombs == l.disk.tombs
  }

  ghost predicate Sound(l: Ledger) {
    WellFormed(l.mem) && CacheHonest(l)
  }

  /** `id` cannot be lost: it is in memory and on disk, and its tombstone in the file is one in memory. */
  ghost predicate Safe(l: Ledger, id: GrantId) {
    Held(l.mem, id) && OnDisk(l.disk, id) && (id in l.disk.tombs ==> id in l.mem.tombs)
  }

  /** What every operation other than forgetting and reloading does to memory. */
  ghost predicate Grows(m: Memory, m': Memory) {
    && (WellFormed(m) ==> WellFormed(m'))
    && m.tombs <= m'.tombs
    && (forall id :: Held(m, id) ==> Held(m', id))
    && (m'.persisted == None || (m'.persisted == m.persisted && m'.tombs == m.tombs))
  }

  lemma RetireGrows(m: Memory, ids: set<GrantId>)
    ensures Grows(m, RetireIds(m, ids))
    ensures ids <= RetireIds(m, ids).tombs
  {}

  lemma CreateGrows(m: Memory, mac: Mac, allotment: nat, metric: string, secs: nat, now: nat)
    requires WellFormed(m)
    ensures var m' := Create(m, mac, allotment, metric, secs, now);
      Grows(m, m') && SameElsewhere(m.sessions, m'.sessions, mac)
  {
    var m' := Create(m, mac, allotment, metric, secs, now);
    forall id | Held(m, id) ensures Held(m', id) {
      if id !in m'.tombs {
        var k :| k in m.sessions && id in SessionIds(m.sessions[k]);
        assert k in m'.sessions && id in SessionIds(m'.sessions[k]);
      }
    }
  }

  lemma ReplaceGrows(m: Memory, mac: Mac, s: Session)
    requires mac in m.sessions && SessionIds(m.sessions[mac]) <= SessionIds(s)
    requires s.last.Some? ==> s.last.value in s.applied
    ensures var m' := m.(sessions := m.sessions[mac := s]);
      Grows(m, m') && SameElsewhere(m.sessions, m'.sessions, mac)
  {
    var m' := m.(sessions := m.sessions[mac := s]);
    forall id | Held(m, id) ensures Held(m', id) {
      if id !in m'.tombs {
        var k :| k in m.sessions && id in SessionIds(m.sessions[k]);
        assert k in m'.sessions && id in SessionIds(m'.sessions[k]);
      }
    }
  }

  lemma TagGrows(m: Memory, mac: Mac, id: Option<GrantId>)
    requires WellFormed(m) && mac in m.sessions
    ensures Grows(m, Tag(m, mac, id)) && SameElsewhere(m.sessions, Tag(m, mac, id).sessions, mac)
  {
    if id.Some? {
      var s := m.sessions[mac];
      ReplaceGrows(m, mac,
                   s.(applied := s.applied + {id.value}, last := id, credits := s.credits + multiset{id.value}));
    }
  }

  lemma ExtendGrows(m: Memory, mac: Mac, metric: string, amount: nat, secs: nat, id: Option<GrantId>, now: nat)
    requires WellFormed(m) && mac in m.sessions
    ensures var m' := AddAllotment(m, mac, metric, amount, secs, id, now);
      Grows(m, m') && SameElsewhere(m.sessions, m'.sessions, mac)
  {
    var m' := AddAllotment(m, mac, metric, amount, secs, id, now);
    var s := m'.sessions[mac];
    assert m'.sessions == m.sessions[mac := s];
    assert m' == m.(sessions := m.sessions[mac := s]);
    ReplaceGrows(m, mac, s);
  }

  lemma AddGrows(m: Memory, mac: Mac, metric: string, amount: nat, secs: nat, id: Option<GrantId>, now: nat)
    requires WellFormed(m)
    ensures var m' := AddAllotment(m, mac, metric, amount, secs, id, now);
      Grows(m, m') && SameElsewhere(m.sessions, m'.sessions, mac)
  {
    if mac in m.sessions {
      ExtendGrows(m, mac, metric, amount, secs, id, now);
    } else {
      CreateGrows(m, mac, amount, metric, secs, now);
      var created := Create(m, mac, amount, metric, secs, now);
      TagGrows(created, mac, id);
      GrowsTransitive(m, created, Tag(created, mac, id), mac);
    }
  }

  /** Counting a payment changes nothing that the code sees. */
  lemma CountGrows(m: Memory, m': Memory, mac: Mac, payment: GrantId)
    requires Grows(m, m') && WellFormed(m') && mac in m'.sessions
    ensures Grows(m, Count(m', mac, payment))
  {
    var s := m'.sessions[mac];
    ReplaceGrows(m', mac, s.(credits := s.credits + multiset{payment}));
  }

  lemma ApplyGrows(m: Memory, mac: Mac, allotment: nat, metric: string, secs: nat, id: GrantId, now: nat)
    requires WellFormed(m)
    ensures var m' := ApplyGrantOnce(m, mac, allotment, metric, secs, id, now);
      Grows(m, m') && SameElsewhere(m.sessions, m'.sessions, mac)
  {
    if !HasGrant(m, mac, id) {
      CreateGrows(m, mac, allotment, metric, secs, now);
      var created := Create(m, mac, allotment, metric, secs, now);
      TagGrows(created, mac, Some(id));
      GrowsTransitive(m, created, Tag(created, mac, Some(id)), mac);
    }
  }

  lemma RevokeGrows(m: Memory, mac: Mac)
    ensures Grows(m, Revoke(m, mac)) && SameElsewhere(m.sessions, Revoke(m, mac).sessions, mac)
  {
    var m' := Revoke(m, mac);
    forall id | Held(m, id) ensures Held(m', id) {
      if id !in m'.tombs {
        var k :| k in m.sessions && id in SessionIds(m.sessions[k]);
        assert k in m'.sessions;
      }
    }
  }

  lemma ExpiredIdsContains(ss: map<Mac, Session>, now: nat, id: GrantId)
    ensures id in ExpiredIds(ss, now) <==> exists mac :: mac in ss && ss[mac].expiry <= now && id in SessionIds(ss[mac])
  {}

  lemma CleanupGrows(m: Memory, now: nat)
    ensures Grows(m, Cleanup(m, now))
  {
    var m' := Cleanup(m, now);
    forall id | Held(m, id) ensures Held(m', id) {
      if id !in m'.tombs {
        var k :| k in m.sessions && id in SessionIds(m.sessions[k]);
        ExpiredIdsContains(m.sessions, now, id);
        assert k in m'.sessions;
      }
    }
  }

  lemma UsageGrows(m: Memory, mac: Mac, used: nat)
    requires WellFormed(m)
    ensures Grows(m, Usage(m, mac, used))
  {
    if mac in m.sessions {
      ReplaceGrows(m, mac, m.sessions[mac].(used := used));
    }
  }

  /** An operation that grows memory and leaves the files alone keeps everything safe. */
  lemma GrowthKeeps(l: Ledger, m': Memory, id: GrantId)
    requires Sound(l) && Grows(l.mem, m')
    ensures Sound(l.(mem := m'))
    ensures Safe(l, id) ==> Safe(l.(mem := m'), id)
  {}

  // ---------------------------------------------------------------- saving

  /** A save, whatever fails, leaves the session map alone and keeps safe what was safe; when it
      answers Ok, everything in memory is safe and the tombstone file equals the set in memory. */
  lemma SaveKeeps(l: Ledger, now: nat, fault: Fault)
    requires Sound(l)
    ensures var (l', ok) := Save(l, now, fault);
      && Sound(l') && l'.mem.sessions == l.mem.sessions && l.mem.tombs <= l'.mem.tombs
      && (forall id :: Held(l.mem, id) ==> Held(l'.mem, id))
      && (forall id :: Safe(l, id) ==> Safe(l', id))
      && (ok ==> l'.disk.tombs == l'.mem.tombs)
      && (ok ==> forall id :: Held(l'.mem, id) ==> Safe(l', id))
  {
    var expired := ExpiredIds(l.mem.sessions, now);
    RetireGrows(l.mem, expired);
    var retired := l.(mem := RetireIds(l.mem, expired));
    var (l1, tombsOk) := SaveTombs(retired, fault);
    var (l', ok) := Save(l, now, fault);
    forall id | Safe(l, id) ensures Safe(l', id) {
      SafeThroughSave(l, now, fault, id);
    }
    if ok {
      forall id | Held(l'.mem, id) ensures Safe(l', id) {
        HeldIsSavedOk(l, now, fault, id);
      }
    }
  }

  lemma HeldIsSavedOk(l: Ledger, now: nat, fault: Fault, id: GrantId)
    requires Sound(l) && Save(l, now, fault).1 && Held(Save(l, now, fault).0.mem, id)
    ensures Safe(Save(l, now, fault).0, id)
  {
    var l' := Save(l, now, fault).0;
    if id !in l'.disk.tombs {
      var mac :| mac in l.mem.sessions && id in SessionIds(l.mem.sessions[mac]);
      ExpiredIdsContains(l.mem.sessions, now, id);
      assert mac in l'.disk.sessions;
    }
  }

  lemma SafeThroughSave(l: Ledger, now: nat, fault: Fault, id: GrantId)
    requires Sound(l) && Safe(l, id)
    ensures Safe(Save(l, now, fault).0, id)
  {
    var (l', ok) := Save(l, now, fault);
    assert Held(l'.mem, id) by {
      if id !in l.mem.tombs {
        var mac :| mac in l.mem.sessions && id in SessionIds(l.mem.sessions[mac]);
        assert mac in l'.mem.sessions;
      }
    }
    if id !in l'.disk.tombs {
      if l'.disk.sessions == l.disk.sessions {
        assert id !in l.disk.tombs;
      } else {
        assert id !in l.mem.tombs;
        var mac :| mac in l.mem.sessions && id in SessionIds(l.mem.sessions[mac]);
        ExpiredIdsContains(l.mem.sessions, now, id);
        assert mac in l'.disk.sessions;
      }
    }
  }

  lemma RollbackRestores(m: Memory, m': Memory, mac: Mac)
    requires SameElsewhere(m.sessions, m'.sessions, mac)
    ensures Rollback(m', mac, Snapshot(m, mac)).sessions == m.sessions
  {
    var r := Rollback(m', mac, Snapshot(m, mac)).sessions;
    forall k | k != mac ensures (k in r <==> k in m.sessions) && (k in r ==> r[k] == m.sessions[k]) {
      assert k in r <==> k in m'.sessions - {mac};
      assert k in m.sessions <==> k in m.sessions - {mac};
    }
  }

  /** A grant to one MAC that is saved, or rolled back at once, loses nothing; rolled back, it leaves the
      session map as it was. */
  lemma SaveOrRollBackKeeps(l: Ledger, granted: Memory, mac: Mac, now: nat, fault: Fault, id: GrantId)
    requires Sound(l) && Grows(l.mem, granted) && SameElsewhere(l.mem.sessions, granted.sessions, mac)
    ensures var (l', ok) := SaveOrRollBack(l, granted, mac, now, fault);
      && Sound(l')
      && (Safe(l, id) ==> Safe(l', id))
      && (ok && Held(l'.mem, id) ==> Safe(l', id))
      && (!ok ==> l'.mem.sessions == l.mem.sessions)
  {
    GrowthKeeps(l, granted, id);
    SaveKeeps(l.(mem := granted), now, fault);
    RollbackRestores(l.mem, Save(l.(mem := granted), now, fault).0.mem, mac);
  }

  lemma GrowsTransitive(m: Memory, m1: Memory, m2: Memory, mac: Mac)
    requires Grows(m, m1) && Grows(m1, m2)
    requires SameElsewhere(m.sessions, m1.sessions, mac) && SameElsewhere(m1.sessions, m2.sessions, mac)
    ensures Grows(m, m2) && SameElsewhere(m.sessions, m2.sessions, mac)
  {}

  lemma RecreatedGrows(m: Memory, mac: Mac, metric: string, amount: nat, secs: nat, grant: GrantId,
                       replaceDead: bool, now: nat)
    requires WellFormed(m)
    ensures var m' := Recreated(m, mac, metric, amount, secs, grant, replaceDead, now);
      Grows(m, m') && SameElsewhere(m.sessions, m'.sessions, mac)
  {
    if replaceDead && mac in m.sessions && !IsActive(m, mac, now) {
      RevokeGrows(m, mac);
      var m1 := Revoke(m, mac);
      AddGrows(m1, mac, metric, amount, secs, Some(grant), now);
      GrowsTransitive(m, m1, AddAllotment(m1, mac, metric, amount, secs, Some(grant), now), mac);
    } else {
      AddGrows(m, mac, metric, amount, secs, Some(grant), now);
    }
  }

  lemma GrantKeeps(l: Ledger, mac: Mac, allotment: nat, metric: string, secs: nat, grant: GrantId, now: nat,
                   fault: Fault, id: GrantId)
    requires Sound(l)
    ensures var (l', isNew, ok) := GrantDurably(l, mac, allotment, metric, secs, grant, now, fault);
      && Sound(l')
      && (Safe(l, id) ==> Safe(l', id))
      && (isNew && ok && Held(l'.mem, id) ==> Safe(l', id))
      && (!ok ==> l'.mem.sessions == l.mem.sessions)
  {
    if !HasGrant(l.mem, mac, grant) {
      ApplyGrows(l.mem, mac, allotment, metric, secs, grant, now);
      SaveOrRollBackKeeps(l, ApplyGrantOnce(l.mem, mac, allotment, metric, secs, grant, now), mac, now, fault, id);
    }
  }

  lemma RecreateKeeps(l: Ledger, mac: Mac, metric: string, amount: nat, secs: nat, grant: GrantId, replaceDead: bool,
                      now: nat, fault: Fault, id: GrantId)
    requires Sound(l)
    ensures var (l', ok) := RecreateDurably(l, mac, metric, amount, secs, grant, replaceDead, now, fault);
      && Sound(l')
      && (Safe(l, id) ==> Safe(l', id))
      && (ok && Held(l'.mem, id) ==> Safe(l', id))
      && (!ok ==> l'.mem.sessions == l.mem.sessions)
  {
    RecreatedGrows(l.mem, mac, metric, amount, secs, grant, replaceDead, now);
    SaveOrRollBackKeeps(l, Recreated(l.mem, mac, metric, amount, secs, grant, replaceDead, now), mac, now, fault, id);
  }

  // ---------------------------------------------------------------- loading

  lemma LoadHolds(d: Disk, id: GrantId)
    ensures Held(Load(d), id) <==> OnDisk(d, id)
    ensures WellFormed(Load(d))
  {
    var m := Load(d);
    forall mac | mac in d.sessions ensures SessionIds(m.sessions[mac]) == SessionIds(d.sessions[mac]) {}
    if Carried(m.sessions, id) {
      var mac :| mac in m.sessions && id in SessionIds(m.sessions[mac]);
      assert mac in d.sessions && id in SessionIds(d.sessions[mac]);
    }
    if Carried(d.sessions, id) {
      var mac :| mac in d.sessions && id in SessionIds(d.sessions[mac]);
      assert mac in m.sessions && id in SessionIds(m.sessions[mac]);
    }
  }

  // ---------------------------------------------------------------- one step, then every run

  lemma ForgetKeeps(l: Ledger, ids: set<GrantId>, id: GrantId)
    requires Sound(l)
    ensures Sound(l.(mem := Forget(l.mem, ids)))
    ensures Safe(l, id) && id !in ids ==> Safe(l.(mem := Forget(l.mem, ids)), id)
  {
    var m := Forget(l.mem, ids);
    if Safe(l, id) && id !in ids && id !in m.tombs {
      var mac :| mac in l.mem.sessions && id in SessionIds(l.mem.sessions[mac]);
      assert mac in m.sessions && id in SessionIds(m.sessions[mac]);
    }
  }

  lemma RollBackKeeps(l: Ledger, mac: Mac, snapshot: Taken, id: GrantId)
    requires Sound(l)
    ensures var l' := l.(mem := Rollback(l.mem, mac, snapshot));
      Sound(l') && (Safe(l, id) && !TakesOut(l, RollBackLate(mac, snapshot), id) ==> Safe(l', id))
  {
    var ss := Rollback(l.mem, mac, snapshot).sessions;
    if Safe(l, id) && !TakesOut(l, RollBackLate(mac, snapshot), id) && id !in l.mem.tombs {
      var k :| k in l.mem.sessions && id in SessionIds(l.mem.sessions[k]);
      assert k in ss && id in SessionIds(ss[k]);
    }
  }

  /** The actions that only add to memory. */
  lemma GrowthStepKeeps(l: Ledger, t: Timed, id: GrantId)
    requires Sound(l)
    requires var a := t.action;
      a.ReplayPayment? || a.LiveGrant? || a.Extend? || a.Grant? || a.RevokeOne? || a.CleanUp? || a.SetUsage?
    ensures var (l', saved) := Step(l, t);
      Sound(l') && (Safe(l, id) ==> Safe(l', id)) && !saved
  {
    var now := t.now;
    match t.action {
      case ReplayPayment(mac, allotment, metric, secs, payment) =>
        CreateGrows(l.mem, mac, allotment, metric, secs, now);
        CountGrows(l.mem, Create(l.mem, mac, allotment, metric, secs, now), mac, payment);
      case LiveGrant(mac, metric, amount, secs, payment) =>
        AddGrows(l.mem, mac, metric, amount, secs, None, now);
        CountGrows(l.mem, AddAllotment(l.mem, mac, metric, amount, secs, None, now), mac, payment);
      case Extend(mac, metric, amount, secs, grant) => AddGrows(l.mem, mac, metric, amount, secs, Some(grant), now);
      case Grant(mac, allotment, metric, secs, grant) => ApplyGrows(l.mem, mac, allotment, metric, secs, grant, now);
      case RevokeOne(mac) => RevokeGrows(l.mem, mac);
      case CleanUp => CleanupGrows(l.mem, now);
      case SetUsage(mac, used) => UsageGrows(l.mem, mac, used);
    }
    GrowthKeeps(l, Step(l, t).0.mem, id);
  }

  lemma StepKeeps(l: Ledger, t: Timed, id: GrantId)
    requires Sound(l)
    ensures var (l', saved) := Step(l, t);
      && Sound(l')
      && (Safe(l, id) && !TakesOut(l, t.action, id) ==> Safe(l', id))
      && (saved && Held(l'.mem, id) ==> Safe(l', id))
  {
    var now := t.now;
    match t.action {
      case GrantOrRollBack(mac, allotment, metric, secs, grant, fault) =>
        GrantKeeps(l, mac, allotment, metric, secs, grant, now, fault, id);
      case RecreateOrRollBack(mac, metric, amount, secs, grant, replaceDead, fault) =>
        RecreateKeeps(l, mac, metric, amount, secs, grant, replaceDead, now, fault, id);
      case ForgetIds(ids) => ForgetKeeps(l, ids, id);
      case RollBackLate(mac, snapshot) => RollBackKeeps(l, mac, snapshot, id);
      case SaveAll(fault) => SaveKeeps(l, now, fault);
      case Crash => LoadHolds(l.disk, id);
      case _ => GrowthStepKeeps(l, t, id);
    }
  }

  lemma {:induction false} RunSound(l: Ledger, ts: seq<Timed>)
    requires Sound(l)
    ensures Sound(Run(l, ts))
  {
    if ts != [] {
      RunSound(l, ts[..|ts| - 1]);
      StepKeeps(Run(l, ts[..|ts| - 1]), ts[|ts| - 1], Cashu(""));
    }
  }

  lemma {:induction false} OwedIsSafe(l: Ledger, ts: seq<Timed>, id: GrantId)
    requires Sound(l) && Owed(l, ts, id)
    ensures Safe(Run(l, ts), id)
  {
    var prev, t := ts[..|ts| - 1], ts[|ts| - 1];
    RunSound(l, prev);
    StepKeeps(Run(l, prev), t, id);
    if Owed(l, prev, id) {
      OwedIsSafe(l, prev, id);
    }
  }

  /** Over every run, an id that memory held when a save answered Ok stays in memory and in one of the
      two files until it is forgotten by name, or a late rollback puts a snapshot without it in the place of the
      session that carries it. */
  lemma OwedIdsSurvive(l: Ledger, ts: seq<Timed>, l': Ledger, id: GrantId)
    requires Sound(l) && l' == Run(l, ts) && Owed(l, ts, id)
    ensures Held(l'.mem, id)
    ensures OnDisk(l'.disk, id)
  {
    OwedIsSafe(l, ts, id);
  }
}
