/** Where the guards of CashuCredits fail, the payment is credited twice. */
module CashuConverses {
  import opened Options
  import opened Journals
  import opened GrantLedger
  import opened CashuRuns
  import opened CashuCredits
  import L = LedgerRuns
  import C = LedgerCredits
  import Q = LedgerQuota
  import R = LedgerRefinement

  // ---------------------------------------------------------------- the single slot

  /** The single slot of every session, snapshots included, names a credit of that session. */
  ghost predicate SlotsOk(w: World) {
    C.LedgerLast(w.ledger) && forall p :: p in w.taken && p.1.Some? ==> C.LastIsCredit(p.1.value)
  }

  lemma NextSlots(w: World, m: Move)
    requires SlotsOk(w) && Enabled(w, m)
    ensures SlotsOk(Next(w, m))
  {
    LedgerOnly(w, m);
    TakenBy(w, m);
    if StepOf(w, m).Some? {
      if m.RollBackLate? {
        var p := (m.mac, m.snapshot);
        assert p in w.taken && p.1 == m.snapshot;
      }
      C.StepLast(w.ledger, StepOf(w, m).value);
    }
  }

  lemma {:induction false} EveryRunSlots(w: World, ms: seq<Move>)
    requires Fresh(w) && Valid(w, ms)
    ensures SlotsOk(Exec(w, ms))
  {
    if ms != [] {
      EveryRunSlots(w, ms[..|ms| - 1]);
      NextSlots(Exec(w, ms[..|ms| - 1]), ms[|ms| - 1]);
    }
  }

  // ---------------------------------------------------------------- recreating onto a leftover record

  lemma SavedSession(l: Ledger, granted: Memory, mac: Mac, now: nat)
    requires mac in granted.sessions && granted.sessions[mac].expiry > now
    ensures var (l', ok) := SaveOrRollBack(l, granted, mac, now, NoFault);
      && ok && l'.mem.sessions == granted.sessions && l'.mem.tombs == granted.tombs + ExpiredIds(granted.sessions, now)
      && mac in l'.disk.sessions && l'.disk.sessions[mac] == granted.sessions[mac]
  {}

  /** Recreation extends whatever record the MAC has, live or dead: everything that record was ever credited is live
      again for another hour, its usage still counted, and the entry is credited once more. */
  lemma RecreationCredits(l: Ledger, mac: Mac, metric: string, amount: nat, id: GrantId, now: nat)
    ensures var (l', ok) := RecreateDurably(l, mac, metric, amount, GRANT_SECS, id, false, now, NoFault);
      && ok && mac in l'.mem.sessions
      && var s' := l'.mem.sessions[mac];
      && s'.expiry == now + GRANT_SECS && id in s'.applied
      && (mac in l.mem.sessions ==>
            var s := l.mem.sessions[mac];
            s'.credits == s.credits + multiset{id} && Q.Extended(s, s', amount, GRANT_SECS, Some(id), now))
      && (mac !in l.mem.sessions ==> s'.credits == multiset{id} && s'.used == 0 && s'.allotment == amount)
      && (HasLiveGrant(l'.mem, mac, id, now) <==> s'.used < s'.allotment)
  {
    var granted := GrantLedger.Recreated(l.mem, mac, metric, amount, GRANT_SECS, id, false, now);
    SavedSession(l, granted, mac, now);
  }

  /** After any guarded run: a recreation onto a record whose single slot names the entry credits it a second time. */
  lemma UnguardedRecreationCreditsTwice(w: World, ms: seq<Move>, v: World, id: string, home: Mac)
    requires Fresh(w) && Runs(w, ms, v) && GuardedRun(w, ms, id, home) && Enabled(v, Recreate(NoFault)) && v.at.id == id
    requires v.at.entry.mac in v.ledger.mem.sessions
    requires v.ledger.mem.sessions[v.at.entry.mac].last == Some(Cashu(id))
    ensures !Guarded(v, Recreate(NoFault), id, home)
    ensures var mac, ss := v.at.entry.mac, Next(v, Recreate(NoFault)).ledger.mem.sessions;
      mac in ss && ss[mac].credits[Cashu(id)] == 2
  {
    var entry := v.at.entry;
    CashuCredits.EveryRunKeeps(w, ms, id, home);
    EveryRunSlots(w, ms);
    RecreationCredits(v.ledger, entry.mac, entry.metric, Allotment(entry, v.at.amountSat), Cashu(id), v.at.now);
  }

  // ---------------------------------------------------------------- a pass beside a handler

  /** A handler adds its allotment and its credit to whatever record the MAC has, and no trace. */
  lemma LiveGrantCredits(m: Memory, mac: Mac, metric: string, amount: nat, payment: GrantId, now: nat)
    requires mac in m.sessions
    ensures var m' := ExtendLive(m, mac, metric, amount, GRANT_SECS, payment, now);
      && mac in m'.sessions
      && m'.sessions[mac].credits == m.sessions[mac].credits + multiset{payment}
      && Q.Extended(m.sessions[mac], m'.sessions[mac], amount, GRANT_SECS, None, now)
  {
    Q.ExtensionKeeps(m, mac, metric, amount, GRANT_SECS, None, payment, now);
  }

  lemma NewlyGranted(l: Ledger, mac: Mac, allotment: nat, metric: string, g: GrantId, now: nat)
    requires !HasGrant(l.mem, mac, g)
    ensures var (l', isNew, ok) := GrantDurably(l, mac, allotment, metric, GRANT_SECS, g, now, NoFault);
      && isNew && ok && mac in l'.mem.sessions
      && var s := l'.mem.sessions[mac];
      s.credits == multiset{g} && s.allotment == allotment && s.used == 0 && s.expiry == now + GRANT_SECS
  {
    SavedSession(l, ApplyGrantOnce(l.mem, mac, allotment, metric, GRANT_SECS, g, now), mac, now);
  }

  lemma ReceivedIsUntouched(v: World, id: string, home: Mac, mac: Mac)
    requires CashuCredits.Inv(v, id, home) && (id, mac) in v.paid
    ensures L.Sound(v.ledger) && !HasGrant(v.ledger.mem, mac, Cashu(id)) && InHand(v.live, id)
  {
    assert InHand(v.paid, id);
    assert (id, mac) in v.live;
  }

  /** A pass, and then the handler. */
  function PassThenHandler(id: string, entry: Payment, paid: nat, now: nat, amount: nat, later: nat): seq<Move> {
    [] + [Begin(id, entry, paid, now, NoFault)] + [LiveGrant(id, entry.mac, entry.metric, amount, later)]
  }

  /** The session has the payment twice. */
  predicate Doubled(w: World, id: string, mac: Mac, allotment: nat) {
    && mac in w.ledger.mem.sessions
    && w.ledger.mem.sessions[mac].credits[Cashu(id)] == 2
    && w.ledger.mem.sessions[mac].allotment == allotment
  }

  lemma PassThenHandlerRuns(v: World, id: string, entry: Payment, paid: nat, now: nat, amount: nat, later: nat,
                            allotment: nat) returns (v': World)
    requires L.Sound(v.ledger) && !HasGrant(v.ledger.mem, entry.mac, Cashu(id)) && allotment == Allotment(entry, paid)
    requires (id, entry.mac) in v.paid && Enabled(v, Begin(id, entry, paid, now, NoFault))
    ensures Runs(v, PassThenHandler(id, entry, paid, now, amount, later), v')
    ensures Doubled(v', id, entry.mac, (allotment + amount) % U64)
  {
    var v1 := GrantedBeside(v, id, entry, paid, now);
    v' := GrantedOnTop(v, [] + [Begin(id, entry, paid, now, NoFault)], v1, id, entry.mac, entry.metric, allotment,
                       amount, later);
  }

  /** The guard of the pass is exact.  After any guarded run in which a handler holds a payment that it has received:
      a pass that begins on it is all it takes.  The handler adds the allotment to the session that the pass made, and
      the payment is in it twice. */
  lemma UnguardedPassCreditsTwice(w: World, ms: seq<Move>, v: World, id: string, home: Mac, entry: Payment, paid: nat,
                                  allotment: nat, now: nat, amount: nat, later: nat)
    requires Fresh(w) && Runs(w, ms, v) && GuardedRun(w, ms, id, home) && allotment == Allotment(entry, paid)
    requires (id, entry.mac) in v.paid && Enabled(v, Begin(id, entry, paid, now, NoFault))
    ensures !Guarded(v, Begin(id, entry, paid, now, NoFault), id, home)
    ensures
      var more := PassThenHandler(id, entry, paid, now, amount, later);
      Valid(v, more) && Doubled(Exec(v, more), id, entry.mac, (allotment + amount) % U64)
  {
    CashuCredits.EveryRunKeeps(w, ms, id, home);
    ReceivedIsUntouched(v, id, home, entry.mac);
    var _ := PassThenHandlerRuns(v, id, entry, paid, now, amount, later, allotment);
  }

  /** The session of `mac` is made of the payment alone. */
  predicate Single(w: World, id: string, mac: Mac, allotment: nat) {
    && mac in w.ledger.mem.sessions
    && w.ledger.mem.sessions[mac].credits == multiset{Cashu(id)}
    && w.ledger.mem.sessions[mac].allotment == allotment
  }

  lemma GrantedBeside(v: World, id: string, entry: Payment, paid: nat, now: nat) returns (v': World)
    requires L.Sound(v.ledger) && !HasGrant(v.ledger.mem, entry.mac, Cashu(id))
    requires (id, entry.mac) in v.paid && Enabled(v, Begin(id, entry, paid, now, NoFault))
    ensures Runs(v, [] + [Begin(id, entry, paid, now, NoFault)], v')
    ensures L.Sound(v'.ledger) && (id, entry.mac) in v'.paid && Single(v', id, entry.mac, Allotment(entry, paid))
  {
    NewlyGranted(v.ledger, entry.mac, Allotment(entry, paid), entry.metric, Cashu(id), now);
    L.StepKeeps(v.ledger, BeginStep(id, entry, paid, now, NoFault), Cashu(id));
    v' := Next(v, Begin(id, entry, paid, now, NoFault));
    OneMore(v, [], v, Begin(id, entry, paid, now, NoFault), v');
  }

  lemma GrantedOnTop(w: World, ms: seq<Move>, v: World, id: string, mac: Mac, metric: string, allotment: nat,
                     amount: nat, now: nat) returns (v': World)
    requires Runs(w, ms, v)
    requires L.Sound(v.ledger) && (id, mac) in v.paid && Single(v, id, mac, allotment)
    ensures Runs(w, ms + [LiveGrant(id, mac, metric, amount, now)], v')
    ensures Doubled(v', id, mac, (allotment + amount) % U64)
  {
    LiveGrantCredits(v.ledger.mem, mac, metric, amount, Cashu(id), now);
    v' := Next(v, LiveGrant(id, mac, metric, amount, now));
    OneMore(w, ms, v, LiveGrant(id, mac, metric, amount, now), v');
  }

  // ---------------------------------------------------------------- sweeps and syncs

  /** The row of the move lands although its append reports a failure. */
  predicate LandsUnsynced(w: World, m: Move) {
    RowOf(w, m).Some? && RowOf(w, m).value.result.LandedUnsynced?
  }

  ghost predicate AllSynced(w: World, ms: seq<Move>) {
    ms == [] || (AllSynced(w, ms[..|ms| - 1]) && !LandsUnsynced(Exec(w, ms[..|ms| - 1]), ms[|ms| - 1]))
  }

  lemma StaysSynced(v: World, m: Move)
    requires v.unsynced == 0 && Enabled(v, m) && !LandsUnsynced(v, m)
    ensures Next(v, m).unsynced == 0
  {
    if !m.Restart? {
      RowsOnly(v, m);
    }
  }

  /** When every append is synced or lost, what the journal has closed stays closed, and every sweep is safe. */
  lemma {:induction false} SyncedSweepsAreGuarded(w: World, ms: seq<Move>, ids: set<string>)
    requires Fresh(w) && Valid(w, ms) && AllSynced(w, ms)
    ensures Exec(w, ms).unsynced == 0
    ensures Enabled(Exec(w, ms), SweepTerminal(ids)) ==> forall id :: id in ids ==> DurablyClosed(Exec(w, ms), id)
  {
    if ms != [] {
      SyncedSweepsAreGuarded(w, ms[..|ms| - 1], ids);
      StaysSynced(Exec(w, ms[..|ms| - 1]), ms[|ms| - 1]);
    }
    Whole(Exec(w, ms).journal);
  }

  // ---------------------------------------------------------------- replays

  /** A replay sells the whole allotment again, to any MAC, exactly when the payment is settled and the MAC has no
      active session. */
  lemma ReplaySellsExactlyWhen(w: World, id: string, mac: Mac, metric: string, allotment: nat, now: nat)
    ensures var m := ReplaySettled(id, mac, metric, allotment, now);
      && (Enabled(w, m) <==> Settled(w.journal, id) && !IsActive(w.ledger.mem, mac, now))
      && (Enabled(w, m) ==>
            var ss := Next(w, m).ledger.mem.sessions;
            ss == w.ledger.mem.sessions[mac :=
              Session(allotment, 0, metric, now + GRANT_SECS, now, {}, None, multiset{Cashu(id)})])
  {
    assert multiset{} + multiset{Cashu(id)} == multiset{Cashu(id)};
  }

  /** So one settled payment buys session after session: whenever the last one is used up and revoked, the next post
      brings a new one. */
  lemma ReplayedAgain(w: World, id: string, mac: Mac, metric: string, allotment: nat, now: nat, later: nat)
    requires Enabled(w, ReplaySettled(id, mac, metric, allotment, now))
    ensures
      var again := [] + [ReplaySettled(id, mac, metric, allotment, now)] + [Other(L.Timed(L.RevokeOne(mac), later))]
        + [ReplaySettled(id, mac, metric, allotment, later)];
      && Valid(w, again)
      && mac in Exec(w, again).ledger.mem.sessions
      && Exec(w, again).ledger.mem.sessions[mac].used == 0 &&
        Exec(w, again).ledger.mem.sessions[mac].allotment == allotment
  {
    var m1, m2 := ReplaySettled(id, mac, metric, allotment, now), Other(L.Timed(L.RevokeOne(mac), later));
    var w1 := Next(w, m1);
    var w2 := Next(w1, m2);
    RevokedIsInactive(w1, mac, later);
    ReplaySellsExactlyWhen(w2, id, mac, metric, allotment, later);
    var m3 := ReplaySettled(id, mac, metric, allotment, later);
    Three(w, m1, w1, m2, w2, m3, Next(w2, m3));
  }

  lemma RevokedIsInactive(w: World, mac: Mac, now: nat)
    ensures var m := Other(L.Timed(L.RevokeOne(mac), now));
      Enabled(w, m) && Next(w, m).journal == w.journal && !IsActive(Next(w, m).ledger.mem, mac, now)
  {}

  // ---------------------------------------------------------------- no condition on the record is exact

  /** A session as the code sees it. */
  function Observed(m: Memory, mac: Mac): Memory {
    if mac in m.sessions then m.(sessions := m.sessions[mac := m.sessions[mac].(credits := multiset{})]) else m
  }

  /** A grant on a MAC whose record, if it has one, names nothing. */
  lemma NewSession(m: Memory, mac: Mac, allotment: nat, metric: string, id: GrantId, now: nat)
    requires !HasGrant(m, mac, id) && (mac in m.sessions ==> m.sessions[mac].applied == {})
    ensures ApplyGrantOnce(m, mac, allotment, metric, GRANT_SECS, id, now).sessions ==
      m.sessions[mac := Session(allotment, 0, metric, now + GRANT_SECS, now, {id}, Some(id), multiset{id})]
  {
    assert {} + {id} == {id} && multiset{} + multiset{id} == multiset{id};
  }

  /** The record of one MAC, granted `x` and then either extended by `y` or overwritten by it. */
  function Twofold(extended: bool, mac: Mac, metric: string, a: nat, b: nat, x: GrantId, y: GrantId, t: nat): Memory {
    var first := ApplyGrantOnce(R.EMPTY.mem, mac, a, metric, GRANT_SECS, x, 0);
    if extended then GrantLedger.AddAllotment(first, mac, metric, b, GRANT_SECS, Some(y), t)
    else ApplyGrantOnce(first, mac, a + b, metric, GRANT_SECS, y, t)
  }

  lemma TwofoldRecord(extended: bool, mac: Mac, metric: string, a: nat, b: nat, x: GrantId, y: GrantId, t: nat)
    requires x != y && 0 < a && a + b < U64 && t < GRANT_SECS
    ensures Twofold(extended, mac, metric, a, b, x, y, t).sessions ==
      map[mac := Session(a + b, 0, metric, t + GRANT_SECS, t, {x, y}, Some(y),
                         if extended then multiset{x, y} else multiset{y})]
    ensures Twofold(extended, mac, metric, a, b, x, y, t).(sessions := map[]) == Memory(map[], {}, None, false)
  {
    NewSession(R.EMPTY.mem, mac, a, metric, x, 0);
    assert {x} + {y} == {x, y} && multiset{x} + multiset{y} == multiset{x, y};
    assert multiset{} + multiset{y} == multiset{y};
  }

  /** Two histories leave the same record and the same tombstones, and only one of them was credited `x`; a recreation
      of `x` is a second credit after the one and the first after the other.  So no guard that looks at the sessions
      and tombstones refuses exactly the second credits. */
  lemma RecordsCannotTell(mac: Mac, metric: string, a: nat, b: nat, c: nat, x: GrantId, y: GrantId, t: nat, now: nat)
    requires x != y && 0 < a && a + b < U64 && t < GRANT_SECS
    ensures
      var m, m' := Twofold(true, mac, metric, a, b, x, y, t), Twofold(false, mac, metric, a, b, x, y, t);
      var again := GrantLedger.Recreated(m, mac, metric, c, GRANT_SECS, x, false, now).sessions;
      var again' := GrantLedger.Recreated(m', mac, metric, c, GRANT_SECS, x, false, now).sessions;
      && Observed(m, mac) == Observed(m', mac)
      && mac in again && again[mac].credits[x] == 2
      && mac in again' && again'[mac].credits[x] == 1
  {
    TwofoldRecord(true, mac, metric, a, b, x, y, t);
    TwofoldRecord(false, mac, metric, a, b, x, y, t);
    assert multiset{x, y}[x] == 1 && multiset{y}[x] == 0;
  }
}
