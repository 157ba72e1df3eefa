/** The tombstone write cache never changes what ends up in the files, and reloading after a save forgets
    and invents nothing. */
module LedgerRefinement {
  import opened Options
  import opened GrantLedger
  import opened LedgerRuns

  // ---------------------------------------------------------------- the cache refines always writing

  function Uncached(l: Ledger): Ledger {
    l.(mem := l.mem.(persisted := None))
  }

  /** The fault that matters when `l` is saved: a skipped tombstone write cannot fail. */
  function Effective(l: Ledger, now: nat, fault: Fault): Fault {
    if TombsCurrent(RetireIds(l.mem, ExpiredIds(l.mem.sessions, now))) && (fault.TombWrite? || fault.TombSync?)
    then NoFault else fault
  }

  function EffectiveStep(l: Ledger, t: Timed): Timed {
    var now := t.now;
    match t.action
    case SaveAll(fault) => t.(action := SaveAll(Effective(l, now, fault)))
    case GrantOrRollBack(mac, allotment, metric, secs, id, fault) =>
      var granted := l.(mem := ApplyGrantOnce(l.mem, mac, allotment, metric, secs, id, now));
      t.(action := t.action.(fault := Effective(granted, now, fault)))
    case RecreateOrRollBack(mac, metric, amount, secs, id, replaceDead, fault) =>
      var granted := l.(mem := Recreated(l.mem, mac, metric, amount, secs, id, replaceDead, now));
      t.(action := t.action.(fault := Effective(granted, now, fault)))
    case _ => t
  }

  /** The run of a manager that throws its cache away before every step, so that it always writes. */
  function RunAlwaysWriting(l: Ledger, ts: seq<Timed>): Ledger {
    if ts == [] then l else Step(Uncached(RunAlwaysWriting(l, ts[..|ts| - 1])), ts[|ts| - 1]).0
  }

  function EffectiveRun(l: Ledger, ts: seq<Timed>): seq<Timed> {
    if ts == [] then []
    else EffectiveRun(l, ts[..|ts| - 1]) + [EffectiveStep(Run(l, ts[..|ts| - 1]), ts[|ts| - 1])]
  }

  lemma SaveIgnoresCache(l: Ledger, now: nat, fault: Fault)
    requires Sound(l)
    ensures var (c, ok) := Save(l, now, fault); var (u, ok') := Save(Uncached(l), now, Effective(l, now, fault));
      ok == ok' && Uncached(c) == Uncached(u)
  {}

  lemma SaveOrRollBackIgnoresCache(l: Ledger, granted: Memory, mac: Mac, now: nat, fault: Fault)
    requires Sound(l.(mem := granted))
    ensures
      var (c, ok) := SaveOrRollBack(l, granted, mac, now, fault);
      var (u, ok') :=
        SaveOrRollBack(Uncached(l), granted.(persisted := None), mac, now, Effective(l.(mem := granted), now, fault));
      ok == ok' && Uncached(c) == Uncached(u)
  {}

  lemma AddIgnoresCache(m: Memory, mac: Mac, metric: string, amount: nat, secs: nat, id: Option<GrantId>, now: nat)
    ensures AddAllotment(m.(persisted := None), mac, metric, amount, secs, id, now)
         == AddAllotment(m, mac, metric, amount, secs, id, now).(persisted := None)
  {}

  lemma RecreatedIgnoresCache(m: Memory, mac: Mac, metric: string, amount: nat, secs: nat, id: GrantId,
                              replaceDead: bool, now: nat)
    ensures Recreated(m.(persisted := None), mac, metric, amount, secs, id, replaceDead, now)
         == Recreated(m, mac, metric, amount, secs, id, replaceDead, now).(persisted := None)
  {}

  lemma SavedStepIgnoresCache(l: Ledger, t: Timed)
    requires Sound(l) && (t.action.SaveAll? || t.action.GrantOrRollBack? || t.action.RecreateOrRollBack?)
    ensures var (c, ok) := Step(l, t); var (u, ok') := Step(Uncached(l), EffectiveStep(l, t));
      ok == ok' && Uncached(c) == Uncached(u)
  {
    var now, a := t.now, t.action;
    if a.SaveAll? {
      SaveIgnoresCache(l, now, a.fault);
    } else if a.RecreateOrRollBack? {
      RecreatedGrows(l.mem, a.mac, a.metric, a.amount, a.secs, a.id, a.replaceDead, now);
      var granted := Recreated(l.mem, a.mac, a.metric, a.amount, a.secs, a.id, a.replaceDead, now);
      GrowthKeeps(l, granted, a.id);
      SaveOrRollBackIgnoresCache(l, granted, a.mac, now, a.fault);
      RecreatedIgnoresCache(l.mem, a.mac, a.metric, a.amount, a.secs, a.id, a.replaceDead, now);
    } else if !HasGrant(l.mem, a.mac, a.id) {
      ApplyGrows(l.mem, a.mac, a.allotment, a.metric, a.secs, a.id, now);
      var granted := ApplyGrantOnce(l.mem, a.mac, a.allotment, a.metric, a.secs, a.id, now);
      GrowthKeeps(l, granted, a.id);
      SaveOrRollBackIgnoresCache(l, granted, a.mac, now, a.fault);
      assert ApplyGrantOnce(Uncached(l).mem, a.mac, a.allotment, a.metric, a.secs, a.id, now)
        == granted.(persisted := None);
    }
  }

  lemma StepIgnoresCache(l: Ledger, t: Timed)
    requires Sound(l)
    ensures var (c, ok) := Step(l, t); var (u, ok') := Step(Uncached(l), EffectiveStep(l, t));
      ok == ok' && Uncached(c) == Uncached(u)
  {
    var now, a := t.now, t.action;
    if a.SaveAll? || a.GrantOrRollBack? || a.RecreateOrRollBack? {
      SavedStepIgnoresCache(l, t);
    } else if a.Extend? {
      AddIgnoresCache(l.mem, a.mac, a.metric, a.amount, a.secs, Some(a.grant), now);
    } else if a.LiveGrant? {
      AddIgnoresCache(l.mem, a.mac, a.metric, a.amount, a.secs, None, now);
    }
  }

  /** Over every run, the files and everything in memory except the cache are what a manager that
      rewrites the tombstone file on every save would have. */
  lemma {:induction false} CacheRefinesAlwaysWriting(l: Ledger, ts: seq<Timed>)
    requires Sound(l)
    ensures Uncached(Run(l, ts)) == Uncached(RunAlwaysWriting(l, EffectiveRun(l, ts)))
    ensures Run(l, ts).disk == RunAlwaysWriting(l, EffectiveRun(l, ts)).disk
  {
    if ts != [] {
      var prev, t := ts[..|ts| - 1], ts[|ts| - 1];
      CacheRefinesAlwaysWriting(l, prev);
      RunSound(l, prev);
      StepIgnoresCache(Run(l, prev), t);
      var es := EffectiveRun(l, ts);
      assert es[..|es| - 1] == EffectiveRun(l, prev);
    }
  }

  /** After every save that answers Ok in any run, the tombstone file is the set in memory. */
  lemma TombstoneFileIsCurrent(l: Ledger, ts: seq<Timed>, now: nat, fault: Fault)
    requires Sound(l)
    ensures var (l', ok) := Save(Run(l, ts), now, fault);
      ok ==> l'.disk.tombs == l'.mem.tombs
  {
    RunSound(l, ts);
    SaveKeeps(Run(l, ts), now, fault);
  }

  // ---------------------------------------------------------------- reload after a save

  /** What a manager reloaded after an Ok save recognises for `mac`: the tombstones, the ids of sessions that
      had expired (now for every MAC), and the ids on the unexpired session of `mac`. */
  lemma ReloadRecognises(l: Ledger, now: nat, fault: Fault, mac: Mac, id: GrantId)
    requires Sound(l) && Save(l, now, fault).1
    ensures HasGrant(Load(Save(l, now, fault).0.disk), mac, id) <==>
      || id in l.mem.tombs
      || id in ExpiredIds(l.mem.sessions, now)
      || (mac in l.mem.sessions && l.mem.sessions[mac].expiry > now && id in SessionIds(l.mem.sessions[mac]))
  {}

  /** Recognition survives the restart, and the reloaded manager recognises no id the old one did not hold. */
  lemma ReloadForgetsAndInventsNothing(l: Ledger, now: nat, fault: Fault, mac: Mac, id: GrantId)
    requires Sound(l) && Save(l, now, fault).1
    ensures HasGrant(l.mem, mac, id) ==> HasGrant(Load(Save(l, now, fault).0.disk), mac, id)
    ensures HasGrant(Load(Save(l, now, fault).0.disk), mac, id) ==> Held(l.mem, id)
  {}

  // ---------------------------------------------------------------- a rollback that comes late

  /** A rollback to an arbitrary snapshot loses exactly the ids that only the replaced session carries. */
  lemma LateRollbackLosesExactly(m: Memory, mac: Mac, snapshot: Option<Session>, id: GrantId)
    requires Held(m, id)
    ensures !Held(Rollback(m, mac, snapshot), id) <==>
      && id !in m.tombs
      && (snapshot.Some? ==> id !in SessionIds(snapshot.value))
      && (forall k :: k in m.sessions && id in SessionIds(m.sessions[k]) ==> k == mac)
  {
    var m' := Rollback(m, mac, snapshot);
    if k :| k in m.sessions && id in SessionIds(m.sessions[k]) && k != mac {
      assert k in m'.sessions && id in SessionIds(m'.sessions[k]);
    } else if snapshot.Some? && id in SessionIds(snapshot.value) {
      assert mac in m'.sessions && id in SessionIds(m'.sessions[mac]);
    }
  }

  const EMPTY: Ledger := Ledger(Memory(map[], {}, None, false), Disk(map[], {}))

  const QUOTE: GrantId := Lightning("q")
  const TOKEN: GrantId := Cashu("t")

  /** The session after the first payment, and after the Lightning grant that follows it. */
  const FIRST: Session := Session(5, 0, "bytes", 3601, 1, {}, None, multiset{TOKEN})
  const SECOND: Session := Session(12, 0, "bytes", 3602, 2, {QUOTE}, Some(QUOTE), multiset{TOKEN, QUOTE})

  /** The only session is `s`, in memory and in the file. */
  function Settled(mac: Mac, s: Session): Ledger {
    Ledger(Memory(map[mac := s], {}, Some({}), false), Disk(map[mac := s], {}))
  }

  lemma RunOneMore(l: Ledger, ts: seq<Timed>, t: Timed)
    ensures Run(l, ts + [t]) == Step(Run(l, ts), t).0
  {}

  lemma RunTwoMore(l: Ledger, ts: seq<Timed>, t: Timed, t': Timed)
    ensures Run(l, ts + ([t] + [t'])) == Step(Step(Run(l, ts), t).0, t').0
  {
    RunOneMore(l, ts, t);
    RunOneMore(l, ts + [t], t');
    assert ts + [t] + [t'] == ts + ([t] + [t']);
  }

  lemma SaveSettles(m: Memory, d: Disk, mac: Mac, s: Session, now: nat)
    requires m.sessions == map[mac := s] && m.tombs == {} && d.tombs == {} && s.expiry > now
    ensures Save(Ledger(m, d), now, NoFault) == (Settled(mac, s), true)
  {
    assert ExpiredIds(m.sessions, now) == {};
    assert Unexpired(m.sessions, now) == m.sessions;
  }

  /** The payment handler takes its snapshot, extends the session and saves; a Lightning grant follows and is saved. */
  function Granted(mac: Mac): seq<Timed> {
    [] + ([Timed(LiveGrant(mac, "bytes", 5, 3600, TOKEN), 1)] + [Timed(SaveAll(NoFault), 1)])
    + ([Timed(Extend(mac, "bytes", 7, 3600, QUOTE), 2)] + [Timed(SaveAll(NoFault), 2)])
  }

  lemma FirstSettles(mac: Mac)
    ensures var l := Step(EMPTY, Timed(LiveGrant(mac, "bytes", 5, 3600, TOKEN), 1)).0;
      Save(l, 1, NoFault) == (Settled(mac, FIRST), true)
  {
    var l := Step(EMPTY, Timed(LiveGrant(mac, "bytes", 5, 3600, TOKEN), 1)).0;
    assert multiset{} + multiset{TOKEN} == multiset{TOKEN};
    assert l.mem.sessions == map[mac := FIRST];
    SaveSettles(l.mem, l.disk, mac, FIRST, 1);
  }

  lemma SecondSettles(mac: Mac)
    ensures var l := Step(Settled(mac, FIRST), Timed(Extend(mac, "bytes", 7, 3600, QUOTE), 2)).0;
      Save(l, 2, NoFault) == (Settled(mac, SECOND), true)
  {
    var l := Step(Settled(mac, FIRST), Timed(Extend(mac, "bytes", 7, 3600, QUOTE), 2)).0;
    assert FIRST.applied + {QUOTE} == SECOND.applied && FIRST.credits + multiset{QUOTE} == SECOND.credits;
    assert l.mem.sessions == map[mac := SECOND];
    SaveSettles(l.mem, l.disk, mac, SECOND, 2);
  }

  lemma SavedIsOwed(l: Ledger, ts: seq<Timed>, t: Timed, id: GrantId)
    requires var (l', saved) := Step(Run(l, ts), t); saved && Held(l'.mem, id)
    ensures Owed(l, ts + [t], id)
  {}

  lemma GrantedIsOwed(mac: Mac)
    ensures Run(EMPTY, Granted(mac)) == Settled(mac, SECOND) && Owed(EMPTY, Granted(mac), QUOTE)
  {
    var t1, t2 := Timed(LiveGrant(mac, "bytes", 5, 3600, TOKEN), 1), Timed(SaveAll(NoFault), 1);
    var t3, t4 := Timed(Extend(mac, "bytes", 7, 3600, QUOTE), 2), Timed(SaveAll(NoFault), 2);
    var start := [] + ([t1] + [t2]);
    FirstSettles(mac);
    SecondSettles(mac);
    RunTwoMore(EMPTY, [], t1, t2);
    RunTwoMore(EMPTY, start, t3, t4);
    RunOneMore(EMPTY, start, t3);
    assert mac in Settled(mac, SECOND).mem.sessions;
    SavedIsOwed(EMPTY, start + [t3], t4, QUOTE);
    assert start + [t3] + [t4] == Granted(mac);
  }

  lemma RollBackAndSave(mac: Mac)
    ensures Save(Step(Settled(mac, SECOND), Timed(RollBackLate(mac, None), 3)).0, 3, NoFault).0 == EMPTIED
  {
    var rolled := Step(Settled(mac, SECOND), Timed(RollBackLate(mac, None), 3)).0;
    assert rolled.mem.sessions == map[];
    assert ExpiredIds(rolled.mem.sessions, 3) == {};
    assert Unexpired(rolled.mem.sessions, 3) == map[];
  }

  const EMPTIED: Ledger := Ledger(Memory(map[], {}, Some({}), false), Disk(map[], {}))

  lemma Undone(mac: Mac, ts: seq<Timed>)
    requires Run(EMPTY, ts) == Settled(mac, SECOND)
    ensures Run(EMPTY, ts + ([Timed(RollBackLate(mac, None), 3)] + [Timed(SaveAll(NoFault), 3)])) == EMPTIED
  {
    RollBackAndSave(mac);
    RunTwoMore(EMPTY, ts, Timed(RollBackLate(mac, None), 3), Timed(SaveAll(NoFault), 3));
  }

  lemma EmptiedIsLost(ts: seq<Timed>)
    requires Run(EMPTY, ts) == EMPTIED
    ensures !Held(EMPTIED.mem, QUOTE) && !OnDisk(EMPTIED.disk, QUOTE)
    ensures !Held(Run(EMPTY, ts + [Timed(Crash, 4)]).mem, QUOTE)
  {
    RunOneMore(EMPTY, ts, Timed(Crash, 4));
    LoadHolds(EMPTIED.disk, QUOTE);
  }

  /** The payment handler releases the lock between its snapshot and its rollback.  A Lightning grant that lands in
      between, and is saved, is owed; the rollback and the save that follows it lose it from memory and from both
      files, and a restart does not bring it back. */
  lemma LateRollbackCounterexample(mac: Mac)
    ensures Owed(EMPTY, Granted(mac), QUOTE)
    ensures
      var ts := Granted(mac)
        + ([Timed(RollBackLate(mac, Snapshot(EMPTY.mem, mac)), 3)] + [Timed(SaveAll(NoFault), 3)]);
      && !Held(Run(EMPTY, ts).mem, QUOTE) && !OnDisk(Run(EMPTY, ts).disk, QUOTE)
      && !Held(Run(EMPTY, ts + [Timed(Crash, 4)]).mem, QUOTE)
  {
    GrantedIsOwed(mac);
    Undone(mac, Granted(mac));
    EmptiedIsLost(Granted(mac) + ([Timed(RollBackLate(mac, None), 3)] + [Timed(SaveAll(NoFault), 3)]));
  }
}
