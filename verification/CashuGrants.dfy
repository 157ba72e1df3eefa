/** When a reconciled payment is granted anew: the four ways, and that each of them is one. */
module CashuGrants {
  import opened Options
  import opened Journals
  import opened GrantLedger
  import opened CashuRuns
  import L = LedgerRuns
  import C = LedgerCredits
  import R = LedgerRefinement

  /** The move grants the payment although, or because, the ledger does not know it. */
  ghost predicate GrantsAnew(v: World, m: Move, id: string) {
    m.Begin? && m.id == id && Enabled(v, m) && !HasGrant(v.ledger.mem, m.entry.mac, Cashu(id))
  }

  /** And the new session is saved. */
  ghost predicate Saves(v: World, m: Move) {
    Enabled(v, m) && Next(v, m).at.Applied?
  }

  /** What may have a payment granted anew: its id is forgotten while a crash may still lose the closing row, a row
      reopens it, a pass holds on to it after it was closed, or a late rollback takes the id out. */
  ghost predicate Betrays(v: World, m: Move, id: string) {
    || (m.SweepTerminal? && id in m.ids && !DurablyClosed(v, id))
    || (m.ForgetClosed? && v.at.Closed? && v.at.id == id && !DurablyClosed(v, id))
    || Reopens(v, m, id)
    || (m.Begin? && m.id == id && IsClosed(v.journal, id))
    || (m.RollBackLate? && L.TakesOut(v.ledger, L.RollBackLate(m.mac, m.snapshot), Cashu(id)))
  }

  // ---------------------------------------------------------------- one MAC per payment

  /** Every row that the live path writes of the payment carries the MAC `home`. */
  predicate OneMac(ms: seq<Move>, id: string, home: Mac) {
    forall m :: m in ms && (m.Post? || m.LiveAppend?) && m.id == id ==> m.body.mac == home
  }

  predicate RowsAt(j: Journal, id: string, home: Mac) {
    forall i :: 0 <= i < |j| && j[i].id == id ==> j[i].body.mac == home
  }

  predicate StageAt(w: World, id: string, home: Mac) {
    match w.at
    case Applied(k, entry, _, _, _) => k == id ==> entry.mac == home
    case Recreated(k, entry, _) => k == id ==> entry.mac == home
    case Delivered(k, entry, _) => k == id ==> entry.mac == home
    case _ => true
  }

  predicate SnapshotAt(p: (Mac, L.Taken), id: string, home: Mac) {
    p.1.Some? && Cashu(id) in SessionIds(p.1.value) ==> p.0 == home
  }

  /** The rows, the sessions and the snapshots know the payment for `home` only. */
  ghost predicate Inv(w: World, id: string, home: Mac) {
    && L.Sound(w.ledger) && C.LedgerOnlyAt(w.ledger, Cashu(id), home)
    && RowsAt(w.journal, id, home) && StageAt(w, id, home)
    && forall p :: p in w.taken ==> SnapshotAt(p, id, home)
  }

  lemma HandedAt(w: World, id: string, entry: Payment, home: Mac)
    requires RowsAt(w.journal, id, home) && Handed(w, id, entry)
    ensures entry.mac == home
  {
    var i :| 0 <= i < |w.journal| && w.journal[i] == Row(id, entry);
    assert w.journal[i].body.mac == home;
  }

  lemma LedgerKeeps(w: World, m: Move, id: string, home: Mac)
    requires Inv(w, id, home) && Enabled(w, m)
    ensures L.Sound(Next(w, m).ledger) && C.LedgerOnlyAt(Next(w, m).ledger, Cashu(id), home)
  {
    LedgerOnly(w, m);
    if StepOf(w, m).Some? {
      var t := StepOf(w, m).value;
      if m.Begin? && m.id == id {
        HandedAt(w, id, m.entry, home);
      } else if m.RollBackLate? {
        assert SnapshotAt((m.mac, m.snapshot), id, home);
      }
      if m.Other? {
        assert Cashu(id) !in L.Touched(t.action);
      }
      L.StepKeeps(w.ledger, t, Cashu(id));
      C.StepOnlyAt(w.ledger, t, Cashu(id), home);
    }
  }

  lemma RowsKeep(w: World, m: Move, id: string, home: Mac)
    requires Inv(w, id, home) && Enabled(w, m) && OneMac([m], id, home)
    ensures RowsAt(Next(w, m).journal, id, home)
  {
    assert m in [m];
    if !m.Restart? {
      RowsOnly(w, m);
      if (m.CloseUnspent? || m.CloseZeroSteps? || m.CloseCliFund?) && m.id == id {
        HandedAt(w, id, m.entry, home);
      }
    }
  }

  lemma NextKeeps(w: World, m: Move, id: string, home: Mac)
    requires Inv(w, id, home) && Enabled(w, m) && OneMac([m], id, home)
    ensures Inv(Next(w, m), id, home)
  {
    LedgerKeeps(w, m, id, home);
    RowsKeep(w, m, id, home);
    StageKeeps(w, m, id, home);
    SnapshotsKeep(w, m, id, home);
  }

  lemma StageKeeps(w: World, m: Move, id: string, home: Mac)
    requires Inv(w, id, home) && Enabled(w, m)
    ensures StageAt(Next(w, m), id, home)
  {
    if (m.Begin? || m.AppendOnly?) && m.id == id {
      HandedAt(w, id, m.entry, home);
    }
  }

  lemma SnapshotsKeep(w: World, m: Move, id: string, home: Mac)
    requires Inv(w, id, home) && Enabled(w, m)
    ensures forall p :: p in Next(w, m).taken ==> SnapshotAt(p, id, home)
  {
    TakenBy(w, m);
    forall p | p in Next(w, m).taken ensures SnapshotAt(p, id, home) {
      if p in w.taken { assert SnapshotAt(p, id, home); }
    }
  }

  lemma {:induction false} EveryRunKeeps(w: World, ms: seq<Move>, id: string, home: Mac)
    requires Fresh(w) && Valid(w, ms) && OneMac(ms, id, home)
    ensures Inv(Exec(w, ms), id, home)
  {
    if ms != [] {
      var prev, m := ms[..|ms| - 1], ms[|ms| - 1];
      assert forall k :: k in prev ==> k in ms;
      assert forall k :: k in [m] ==> k in ms;
      EveryRunKeeps(w, prev, id, home);
      NextKeeps(Exec(w, prev), m, id, home);
    }
  }

  // ---------------------------------------------------------------- granted once

  /** The payment needs no grant any more, or the ledger cannot lose it. */
  ghost predicate Remembered(w: World, id: string) {
    DurablyClosed(w, id) || L.Safe(w.ledger, Cashu(id))
  }

  lemma GrantRemembers(w: World, m: Move, id: string)
    requires L.Sound(w.ledger) && GrantsAnew(w, m, id) && Saves(w, m)
    ensures Remembered(Next(w, m), id)
  {
    var entry, g := m.entry, Cashu(id);
    L.GrantKeeps(w.ledger, entry.mac, Allotment(entry, m.amountSat), entry.metric, GRANT_SECS, g, m.now, m.fault, g);
    assert g in SessionIds(Next(w, m).ledger.mem.sessions[entry.mac]);
  }

  lemma NextRemembers(w: World, m: Move, id: string)
    requires L.Sound(w.ledger) && Remembered(w, id) && Enabled(w, m) && !Betrays(w, m, id)
    ensures Remembered(Next(w, m), id)
  {
    if DurablyClosed(w, id) {
      StaysClosed(w, m, id);
    } else {
      LedgerOnly(w, m);
      if StepOf(w, m).Some? {
        if m.Other? {
          assert Cashu(id) !in L.Touched(m.step.action);
        }
        L.StepKeeps(w.ledger, StepOf(w, m).value, Cashu(id));
      }
    }
  }

  /** From a world that remembers the payment, nothing but a betrayal forgets it. */
  ghost predicate Loyal(w: World, ms: seq<Move>, id: string) {
    ms == [] || (Loyal(w, ms[..|ms| - 1], id) && !Betrays(Exec(w, ms[..|ms| - 1]), ms[|ms| - 1], id))
  }

  lemma {:induction false} StaysRemembered(w: World, ms: seq<Move>, id: string, home: Mac)
    requires Inv(w, id, home) && Remembered(w, id) && Valid(w, ms) && OneMac(ms, id, home) && Loyal(w, ms, id)
    ensures Inv(Exec(w, ms), id, home) && Remembered(Exec(w, ms), id)
  {
    if ms != [] {
      var prev, m := ms[..|ms| - 1], ms[|ms| - 1];
      assert forall k :: k in prev ==> k in ms;
      assert forall k :: k in [m] ==> k in ms;
      StaysRemembered(w, prev, id, home);
      NextRemembers(Exec(w, prev), m, id);
      NextKeeps(Exec(w, prev), m, id, home);
    }
  }

  lemma {:induction false} LoyalOrNot(w: World, ms: seq<Move>, id: string)
    ensures Loyal(w, ms, id) || exists k :: 0 <= k < |ms| && Betrays(Exec(w, ms[..k]), ms[k], id)
  {
    if ms != [] {
      var n := |ms| - 1;
      LoyalOrNot(w, ms[..n], id);
      if !Loyal(w, ms[..n], id) {
        var k :| 0 <= k < n && Betrays(Exec(w, ms[..n][..k]), ms[..n][k], id);
        assert ms[..n][..k] == ms[..k];
      }
    }
  }

  lemma SafeIsRecognised(v: World, id: string, home: Mac)
    requires Inv(v, id, home) && L.Safe(v.ledger, Cashu(id))
    ensures HasGrant(v.ledger.mem, home, Cashu(id))
  {}

  lemma KnownIsNotNew(v: World, m: Move, id: string, home: Mac)
    requires Inv(v, id, home) && Remembered(v, id) && GrantsAnew(v, m, id)
    ensures Betrays(v, m, id)
  {
    HandedAt(v, id, m.entry, home);
    ClosedWhenDurable(v, id);
    if L.Safe(v.ledger, Cashu(id)) {
      SafeIsRecognised(v, id, home);
    }
  }

  /** After the grant. */
  lemma GrantedInv(w: World, before: seq<Move>, v: World, m: Move, v': World, id: string, home: Mac)
    requires Fresh(w) && Runs(w, before, v) && OneMac(before, id, home)
    requires Does(v, m, v') && GrantsAnew(v, m, id) && Saves(v, m)
    ensures Inv(v', id, home) && Remembered(v', id)
  {
    EveryRunKeeps(w, before, id, home);
    GrantRemembers(v, m, id);
    NextKeeps(v, m, id, home);
  }

  /** Over every run from a fresh router in which a payment is posted for one MAC: once a pass has granted it and saved
      the session, a later pass grants it anew only after one of the four has happened in between. */
  lemma GrantedAnewOnlyAfter(w: World, before: seq<Move>, v: World, m: Move, v': World, between: seq<Move>, u: World,
                             again: Move, id: string, home: Mac)
    requires Fresh(w) && Runs(w, before, v) && Does(v, m, v') && Runs(v', between, u)
    requires OneMac(before, id, home) && OneMac(between, id, home)
    requires GrantsAnew(v, m, id) && Saves(v, m) && GrantsAnew(u, again, id)
    ensures Betrays(u, again, id) ||
      exists k :: 0 <= k < |between| && Betrays(Exec(v', between[..k]), between[k], id)
  {
    GrantedInv(w, before, v, m, v', id, home);
    LoyalOrNot(v', between, id);
    if Loyal(v', between, id) {
      StaysRemembered(v', between, id, home);
      KnownIsNotNew(u, again, id, home);
    }
  }

  // ---------------------------------------------------------------- each of the four is enough

  /** The session of a new grant: the whole allotment, unused, for an hour. */
  predicate NewSession(w: World, id: string, entry: Payment, amount: nat, now: nat) {
    && entry.mac in w.ledger.mem.sessions
    && var s := w.ledger.mem.sessions[entry.mac];
    && s.allotment == Allotment(entry, amount) && s.used == 0 && s.expiry == now + GRANT_SECS && s.grantedAt == now
    && s.credits == multiset{Cashu(id)}
  }

  /** A pass may take the entry up. */
  predicate MayBegin(w: World, id: string, entry: Payment, amount: nat) {
    HandedSpent(w, id, entry) && Owes(entry, amount) && id !in w.retry
  }

  /** The payment is granted anew: the pass finds no trace, and makes and saves a new session. */
  ghost predicate Anew(v: World, id: string, entry: Payment, amount: nat, now: nat) {
    var m := Begin(id, entry, amount, now, NoFault);
    GrantsAnew(v, m, id) && Saves(v, m) && NewSession(Next(v, m), id, entry, amount, now)
  }

  lemma GrantedAndSaved(l: Ledger, mac: Mac, allotment: nat, metric: string, g: GrantId, now: nat)
    requires !HasGrant(l.mem, mac, g)
    ensures var (l', isNew, ok) := GrantDurably(l, mac, allotment, metric, GRANT_SECS, g, now, NoFault);
      && isNew && ok && mac in l'.mem.sessions
      && var s := l'.mem.sessions[mac];
      && s.allotment == allotment && s.used == 0 && s.expiry == now + GRANT_SECS && s.grantedAt == now
      && s.credits == multiset{g}
  {}

  lemma NotHeldIsNotRecognised(m: Memory, mac: Mac, g: GrantId)
    requires !Held(m, g)
    ensures !HasGrant(m, mac, g)
  {}

  lemma BeginGrants(v: World, id: string, entry: Payment, amount: nat, now: nat, allotment: nat)
    requires MayBegin(v, id, entry, amount) && !HasGrant(v.ledger.mem, entry.mac, Cashu(id))
    requires allotment == Allotment(entry, amount)
    ensures var m := Begin(id, entry, amount, now, NoFault);
      && Enabled(v, m) && Next(v, m).at == Applied(id, entry, amount, true, now)
      && Next(v, m).ledger ==
           GrantDurably(v.ledger, entry.mac, allotment, entry.metric, GRANT_SECS, Cashu(id), now, NoFault).0
  {
    GrantedAndSaved(v.ledger, entry.mac, allotment, entry.metric, Cashu(id), now);
  }

  lemma AnewWhenForgotten(v: World, id: string, entry: Payment, amount: nat, now: nat)
    requires MayBegin(v, id, entry, amount) && !Held(v.ledger.mem, Cashu(id))
    ensures Anew(v, id, entry, amount, now)
  {
    var allotment := Allotment(entry, amount);
    NotHeldIsNotRecognised(v.ledger.mem, entry.mac, Cashu(id));
    BeginGrants(v, id, entry, amount, now, allotment);
    GrantedAndSaved(v.ledger, entry.mac, allotment, entry.metric, Cashu(id), now);
  }

  /** A pass that holds on to a closed entry whose id is forgotten. */
  lemma StalePassGrantsAnew(v: World, id: string, entry: Payment, amount: nat, now: nat)
    requires MayBegin(v, id, entry, amount) && IsClosed(v.journal, id) && !Held(v.ledger.mem, Cashu(id))
    ensures Betrays(v, Begin(id, entry, amount, now, NoFault), id) && Anew(v, id, entry, amount, now)
  {
    AnewWhenForgotten(v, id, entry, amount, now);
  }

  /** A row that reopens an entry whose id is forgotten. */
  lemma ReopeningGrantsAnew(v: World, m: Move, v': World, id: string, amount: nat, now: nat)
    requires Does(v, m, v') && Reopens(v, m, id) && !RowOf(v, m).value.result.AppendLost?
    requires !Held(v.ledger.mem, Cashu(id)) && id in v.spent && id !in v.retry && Owes(RowOf(v, m).value.body, amount)
    ensures Betrays(v, m, id) && Anew(v', id, RowOf(v, m).value.body, amount, now)
  {
    var row := RowOf(v, m).value;
    RowsOnly(v, m);
    LedgerOnly(v, m);
    assert v'.journal[|v.journal|] == Row(id, row.body);
    ReopeningIsQuiet(v, m, id);
    AnewWhenForgotten(v', id, row.body, amount, now);
  }

  lemma ReopeningIsQuiet(v: World, m: Move, id: string)
    requires Enabled(v, m) && Reopens(v, m, id)
    ensures StepOf(v, m).None? && Next(v, m).retry == v.retry && v.spent <= Next(v, m).spent
  {}

  /** A row that reopens an entry just before its id is forgotten. */
  lemma ReopenedBeforeForgettingGrantsAnew(v: World, id: string, body: Payment, amount: nat, now: nat)
    requires v.at == Closed(id) && id in v.spent && id !in v.retry && Owes(body, amount) && L.Sound(v.ledger)
    requires Enabled(v, LiveAppend(id, body, AppendOk)) && Reopens(v, LiveAppend(id, body, AppendOk), id)
    ensures var more := [] + [LiveAppend(id, body, AppendOk)] + [ForgetClosed];
      Valid(v, more) && Anew(Exec(v, more), id, body, amount, now)
  {
    var m1 := LiveAppend(id, body, AppendOk);
    var v1 := Next(v, m1);
    var v2 := Forgotten(v1, {id});
    assert v1.journal[|v.journal|] == Row(id, body);
    C.ForgottenIsNotHeld(v1.ledger.mem, CashuIds({id}), Cashu(id));
    AnewWhenForgotten(v2, id, body, amount, now);
    Two(v, m1, v1, ForgetClosed, v2);
  }

  function Saving(now: nat): Move {
    Other(L.Timed(L.SaveAll(NoFault), now))
  }

  /** The sweep forgets an id, sessions are saved, and a crash loses the last `n` rows. */
  function SweptAndLost(id: string, now: nat, n: nat): seq<Move> {
    [] + [SweepTerminal({id})] + [Saving(now)] + [Restart(n)]
  }

  lemma SweepForgets(w: World, id: string) returns (v: World)
    requires L.Sound(w.ledger) && IsClosed(w.journal, id)
    ensures Does(w, SweepTerminal({id}), v) && L.Sound(v.ledger) && !Held(v.ledger.mem, Cashu(id))
    ensures v.journal == w.journal && v.unsynced == w.unsynced && v.spent == w.spent
  {
    v := Forgotten(w, {id});
    L.ForgetKeeps(w.ledger, CashuIds({id}), Cashu(""));
    C.ForgottenIsNotHeld(w.ledger.mem, CashuIds({id}), Cashu(id));
  }

  lemma SavingAndLosing(w: World, id: string, now: nat, n: nat) returns (w1: World, v: World)
    requires L.Sound(w.ledger) && !Held(w.ledger.mem, Cashu(id)) && n <= w.unsynced
    ensures Does(w, Saving(now), w1) && Does(w1, Restart(n), v)
    ensures v.journal == Without(w.journal, n) && v.spent == w.spent && v.retry == {} && !Held(v.ledger.mem, Cashu(id))
  {
    C.SavedForgets(w.ledger, now, Cashu(id));
    w1 := w.(ledger := Save(w.ledger, now, NoFault).0);
    v := Next(w1, Restart(n));
  }

  lemma SweptAndLostRuns(w: World, id: string, now: nat, n: nat) returns (v: World)
    requires L.Sound(w.ledger) && IsClosed(w.journal, id) && n <= w.unsynced
    ensures Runs(w, SweptAndLost(id, now, n), v)
    ensures v.journal == Without(w.journal, n) && v.spent == w.spent && v.retry == {} && !Held(v.ledger.mem, Cashu(id))
  {
    var w1 := SweepForgets(w, id);
    var w2;
    w2, v := SavingAndLosing(w1, id, now, n);
    Three(w, SweepTerminal({id}), w1, Saving(now), w2, Restart(n), v);
  }

  /** A sweep that does not wait for the sync.  From whatever world: when some unsynced rows stand between an
      undecided entry and its closing row, the sweep, a save and the crash that loses them have it granted anew. */
  lemma SweepBeforeSyncGrantsAnew(w: World, id: string, entry: Payment, amount: nat, n: nat, now: nat, later: nat)
    requires L.Sound(w.ledger) && IsClosed(w.journal, id) && n <= w.unsynced && !IsClosed(Without(w.journal, n), id)
    requires Row(id, entry) in Without(w.journal, n) && NeedsReconciliation(entry.phase)
    requires Owes(entry, amount) && id in w.spent
    ensures Betrays(w, SweepTerminal({id}), id)
    ensures Valid(w, SweptAndLost(id, now, n)) && Anew(Exec(w, SweptAndLost(id, now, n)), id, entry, amount, later)
  {
    var v := SweptAndLostRuns(w, id, now, n);
    AnewWhenForgotten(v, id, entry, amount, later);
  }

  /** A late rollback that takes the id out. */
  lemma RollBackGrantsAnew(v: World, mac: Mac, snapshot: L.Taken, id: string, home: Mac, entry: Payment, amount: nat,
                           now: nat)
    requires Inv(v, id, home) && Enabled(v, RollBackLate(mac, snapshot)) && MayBegin(v, id, entry, amount)
    requires L.TakesOut(v.ledger, L.RollBackLate(mac, snapshot), Cashu(id))
    ensures Betrays(v, RollBackLate(mac, snapshot), id)
    ensures Anew(Next(v, RollBackLate(mac, snapshot)), id, entry, amount, now)
  {
    var v' := Next(v, RollBackLate(mac, snapshot));
    R.LateRollbackLosesExactly(v.ledger.mem, mac, snapshot, Cashu(id));
    AnewWhenForgotten(v', id, entry, amount, now);
  }
}
