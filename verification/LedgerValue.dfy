/** What the credits of a session are worth: its allotment, over every run. */
module LedgerValue {
  import opened Options
  import opened GrantLedger
  import opened LedgerRuns
  import R = LedgerRefinement

  function Amount(a: Action): nat {
    match a
    case ReplayPayment(_, allotment, _, _, _) => allotment
    case LiveGrant(_, _, amount, _, _) => amount
    case Extend(_, _, amount, _, _) => amount
    case Grant(_, allotment, _, _, _) => allotment
    case GrantOrRollBack(_, allotment, _, _, _, _) => allotment
    case RecreateOrRollBack(_, _, amount, _, _, _, _) => amount
    case _ => 0
  }

  /** What an action adds to the credits. */
  function Credit(a: Action): multiset<GrantId> {
    if Credited(a).Some? then multiset{Credited(a).value} else multiset{}
  }

  // ---------------------------------------------------------------- one step

  predicate SameValue(s: Session, s': Session) {
    s'.allotment == s.allotment && s'.credits == s.credits
  }

  /** Allotment and credits stay together, grow together, or start together. */
  predicate Accounted(before: map<Mac, Session>, after: map<Mac, Session>, mac: Mac, a: Action) {
    mac in after ==>
      var s' := after[mac];
      || (mac in before && SameValue(before[mac], s'))
      || (mac in before && s'.allotment == (before[mac].allotment + Amount(a)) % U64 &&
        s'.credits == before[mac].credits + Credit(a))
      || (s'.allotment == Amount(a) && s'.credits == Credit(a))
  }

  lemma AddAccounted(m: Memory, on: Mac, metric: string, secs: nat, now: nat, mac: Mac, a: Action, id: GrantId)
    requires Credit(a) == multiset{id}
    ensures Accounted(m.sessions, AddAllotment(m, on, metric, Amount(a), secs, Some(id), now).sessions, mac, a)
    ensures Accounted(m.sessions, ExtendLive(m, on, metric, Amount(a), secs, id, now).sessions, mac, a)
  {}

  lemma ApplyAccounted(m: Memory, on: Mac, metric: string, secs: nat, now: nat, mac: Mac, a: Action, id: GrantId)
    requires Credit(a) == multiset{id}
    ensures Accounted(m.sessions, ApplyGrantOnce(m, on, Amount(a), metric, secs, id, now).sessions, mac, a)
  {}

  lemma RecreatedAccounted(m: Memory, on: Mac, metric: string, secs: nat, now: nat, mac: Mac, a: Action, id: GrantId,
                           replaceDead: bool)
    requires Credit(a) == multiset{id}
    ensures Accounted(m.sessions, Recreated(m, on, metric, Amount(a), secs, id, replaceDead, now).sessions, mac, a)
  {
    var m1 := if replaceDead && on in m.sessions && !IsActive(m, on, now) then Revoke(m, on) else m;
    AddAccounted(m1, on, metric, secs, now, mac, a, id);
  }

  lemma SaveLeavesSessions(l: Ledger, now: nat, fault: Fault)
    ensures Save(l, now, fault).0.mem.sessions == l.mem.sessions
  {}

  lemma SaveOrRollBackAccounted(l: Ledger, granted: Memory, on: Mac, now: nat, fault: Fault, mac: Mac, a: Action)
    requires Accounted(l.mem.sessions, granted.sessions, mac, a)
    ensures Accounted(l.mem.sessions, SaveOrRollBack(l, granted, on, now, fault).0.mem.sessions, mac, a)
  {
    SaveLeavesSessions(l.(mem := granted), now, fault);
    var after := SaveOrRollBack(l, granted, on, now, fault).0.mem.sessions;
    if mac != on && mac in after {
      assert mac in granted.sessions && after[mac] == granted.sessions[mac];
    }
  }

  lemma SavedStepAccounted(l: Ledger, t: Timed, mac: Mac)
    requires t.action.GrantOrRollBack? || t.action.RecreateOrRollBack?
    ensures Accounted(l.mem.sessions, Step(l, t).0.mem.sessions, mac, t.action)
  {
    var now, a := t.now, t.action;
    if a.RecreateOrRollBack? {
      var m := Recreated(l.mem, a.mac, a.metric, a.amount, a.secs, a.id, a.replaceDead, now);
      RecreatedAccounted(l.mem, a.mac, a.metric, a.secs, now, mac, a, a.id, a.replaceDead);
      SaveOrRollBackAccounted(l, m, a.mac, now, a.fault, mac, a);
    } else if !HasGrant(l.mem, a.mac, a.id) {
      var m := ApplyGrantOnce(l.mem, a.mac, a.allotment, a.metric, a.secs, a.id, now);
      ApplyAccounted(l.mem, a.mac, a.metric, a.secs, now, mac, a, a.id);
      SaveOrRollBackAccounted(l, m, a.mac, now, a.fault, mac, a);
    }
  }

  /** Every action accounts for every allotment.  A crash brings back value and credits together from the file, a late
      rollback from the snapshot; everything else leaves them, adds to both, or starts both. */
  lemma CreditsFollowAllotments(l: Ledger, t: Timed, mac: Mac)
    ensures
      var before, after := if t.action.Crash? then l.disk.sessions else l.mem.sessions, Step(l, t).0.mem.sessions;
      || Accounted(before, after, mac, t.action)
      || (t.action.RollBackLate? && mac == t.action.mac && mac in after && t.action.snapshot == Some(after[mac]))
  {
    var now, a := t.now, t.action;
    if a.Extend? {
      AddAccounted(l.mem, a.mac, a.metric, a.secs, now, mac, a, a.grant);
    } else if a.LiveGrant? {
      AddAccounted(l.mem, a.mac, a.metric, a.secs, now, mac, a, a.payment);
    } else if a.Grant? {
      ApplyAccounted(l.mem, a.mac, a.metric, a.secs, now, mac, a, a.id);
    } else if a.GrantOrRollBack? || a.RecreateOrRollBack? {
      SavedStepAccounted(l, t, mac);
    } else if a.SaveAll? {
      SaveLeavesSessions(l, now, a.fault);
    }
  }

  // ---------------------------------------------------------------- what credits are worth

  /** The prices of all credits, added up. */
  ghost function Worth(credits: multiset<GrantId>, price: GrantId -> nat): nat
    decreases |credits|
  {
    if credits == multiset{} then 0
    else
      var g :| g in credits;
      price(g) + Worth(credits - multiset{g}, price)
  }

  lemma {:induction false} WorthWithout(credits: multiset<GrantId>, price: GrantId -> nat, g: GrantId)
    requires g in credits
    ensures Worth(credits, price) == price(g) + Worth(credits - multiset{g}, price)
    decreases |credits|
  {
    var x :| x in credits && Worth(credits, price) == price(x) + Worth(credits - multiset{x}, price);
    if x != g {
      WorthWithout(credits - multiset{x}, price, g);
      WorthWithout(credits - multiset{g}, price, x);
      assert credits - multiset{x} - multiset{g} == credits - multiset{g} - multiset{x};
    }
  }

  lemma WorthOneMore(credits: multiset<GrantId>, price: GrantId -> nat, g: GrantId)
    ensures Worth(credits + multiset{g}, price) == Worth(credits, price) + price(g)
    ensures Worth(multiset{g}, price) == price(g)
  {
    WorthWithout(credits + multiset{g}, price, g);
    assert credits + multiset{g} - multiset{g} == credits;
    WorthWithout(multiset{g}, price, g);
    assert multiset{g} - multiset{g} == multiset{};
  }

  /** The allotment, as 64 bits hold it, is what the credits are worth. */
  ghost predicate Fair(s: Session, price: GrantId -> nat) {
    s.allotment % U64 == Worth(s.credits, price) % U64
  }

  ghost predicate AllFair(ss: map<Mac, Session>, price: GrantId -> nat) {
    forall mac :: mac in ss ==> Fair(ss[mac], price)
  }

  ghost predicate LedgerFair(l: Ledger, price: GrantId -> nat) {
    AllFair(l.mem.sessions, price) && AllFair(l.disk.sessions, price)
  }

  /** The action puts in what the payment it credits is worth. */
  predicate Priced(a: Action, price: GrantId -> nat) {
    Credited(a).Some? ==> Amount(a) % U64 == price(Credited(a).value) % U64
  }

  lemma WholeWords(x: int, k: int)
    ensures (x + U64 * k) % U64 == x % U64
  {}

  lemma SumsAgree(a: nat, b: nat, c: nat, d: nat)
    requires a % U64 == b % U64 && c % U64 == d % U64
    ensures (a + c) % U64 % U64 == (b + d) % U64
  {
    var k := a / U64 - b / U64 + c / U64 - d / U64;
    assert a + c == b + d + U64 * k;
    WholeWords(b + d, k);
  }

  lemma GrownFair(s: Session, price: GrantId -> nat, amount: nat, g: GrantId, s': Session)
    requires Fair(s, price) && amount % U64 == price(g) % U64
    requires s'.allotment == (s.allotment + amount) % U64 && s'.credits == s.credits + multiset{g}
    ensures Fair(s', price)
  {
    WorthOneMore(s.credits, price, g);
    SumsAgree(s.allotment, Worth(s.credits, price), amount, price(g));
  }

  lemma StartedFair(price: GrantId -> nat, g: GrantId, s: Session)
    requires s.allotment % U64 == price(g) % U64 && s.credits == multiset{g}
    ensures Fair(s, price)
  {
    WorthOneMore(multiset{}, price, g);
  }

  /** Whatever is accounted for is fair. */
  lemma AccountedFair(before: map<Mac, Session>, after: map<Mac, Session>, a: Action, price: GrantId -> nat)
    requires AllFair(before, price) && Priced(a, price) && Credited(a).Some?
    requires forall mac :: Accounted(before, after, mac, a)
    ensures AllFair(after, price)
  {
    var g := Credited(a).value;
    forall mac | mac in after ensures Fair(after[mac], price) {
      assert Accounted(before, after, mac, a);
      if mac in before && SameValue(before[mac], after[mac]) {
        assert Fair(before[mac], price);
      } else if after[mac].credits == Credit(a) && after[mac].allotment == Amount(a) {
        StartedFair(price, g, after[mac]);
      } else {
        GrownFair(before[mac], price, Amount(a), g, after[mac]);
      }
    }
  }

  /** A save writes sessions of memory, or none. */
  lemma SaveWrites(l: Ledger, now: nat, fault: Fault)
    ensures var l' := Save(l, now, fault).0;
      && l'.mem.sessions == l.mem.sessions
      && (l'.disk.sessions == l.disk.sessions || l'.disk.sessions == Unexpired(l.mem.sessions, now))
  {}

  lemma SaveFair(l: Ledger, now: nat, fault: Fault, price: GrantId -> nat)
    requires LedgerFair(l, price)
    ensures LedgerFair(Save(l, now, fault).0, price)
  {
    SaveWrites(l, now, fault);
  }

  lemma SaveOrRollBackFair(l: Ledger, granted: Memory, mac: Mac, now: nat, fault: Fault, price: GrantId -> nat)
    requires LedgerFair(l, price) && AllFair(granted.sessions, price)
    ensures LedgerFair(SaveOrRollBack(l, granted, mac, now, fault).0, price)
  {
    SaveFair(l.(mem := granted), now, fault, price);
  }

  lemma SavedStepFair(l: Ledger, t: Timed, price: GrantId -> nat)
    requires LedgerFair(l, price) && Priced(t.action, price)
    requires t.action.GrantOrRollBack? || t.action.RecreateOrRollBack? || t.action.SaveAll?
    ensures LedgerFair(Step(l, t).0, price)
  {
    var now, a := t.now, t.action;
    if a.SaveAll? {
      SaveFair(l, now, a.fault, price);
    } else if a.RecreateOrRollBack? {
      var m := Recreated(l.mem, a.mac, a.metric, a.amount, a.secs, a.id, a.replaceDead, now);
      forall k ensures Accounted(l.mem.sessions, m.sessions, k, a) {
        RecreatedAccounted(l.mem, a.mac, a.metric, a.secs, now, k, a, a.id, a.replaceDead);
      }
      AccountedFair(l.mem.sessions, m.sessions, a, price);
      SaveOrRollBackFair(l, m, a.mac, now, a.fault, price);
    } else if !HasGrant(l.mem, a.mac, a.id) {
      var m := ApplyGrantOnce(l.mem, a.mac, a.allotment, a.metric, a.secs, a.id, now);
      forall k ensures Accounted(l.mem.sessions, m.sessions, k, a) {
        ApplyAccounted(l.mem, a.mac, a.metric, a.secs, now, k, a, a.id);
      }
      AccountedFair(l.mem.sessions, m.sessions, a, price);
      SaveOrRollBackFair(l, m, a.mac, now, a.fault, price);
    }
  }

  lemma CreditingStepFair(l: Ledger, t: Timed, price: GrantId -> nat)
    requires LedgerFair(l, price) && Priced(t.action, price)
    requires t.action.ReplayPayment? || t.action.LiveGrant? || t.action.Extend? || t.action.Grant?
    ensures LedgerFair(Step(l, t).0, price)
  {
    var after := Step(l, t).0.mem.sessions;
    forall k ensures Accounted(l.mem.sessions, after, k, t.action) {
      CreditsFollowAllotments(l, t, k);
    }
    AccountedFair(l.mem.sessions, after, t.action, price);
  }

  lemma SameValueFair(before: map<Mac, Session>, after: map<Mac, Session>, price: GrantId -> nat)
    requires AllFair(before, price) && forall mac :: mac in after ==>
      mac in before && SameValue(before[mac], after[mac])
    ensures AllFair(after, price)
  {
    forall mac | mac in after ensures Fair(after[mac], price) {
      assert Fair(before[mac], price);
    }
  }

  lemma PlainStepValue(l: Ledger, t: Timed)
    requires var a := t.action; a.ForgetIds? || a.RevokeOne? || a.CleanUp? || a.SetUsage? || a.Crash?
    ensures
      var before, l' := if t.action.Crash? then l.disk.sessions else l.mem.sessions, Step(l, t).0;
      && l'.disk == l.disk
      && forall mac :: mac in l'.mem.sessions ==> mac in before && SameValue(before[mac], l'.mem.sessions[mac])
  {}

  lemma PlainStepFair(l: Ledger, t: Timed, price: GrantId -> nat)
    requires LedgerFair(l, price)
    requires var a := t.action; a.ForgetIds? || a.RevokeOne? || a.CleanUp? || a.SetUsage? || a.Crash?
    ensures LedgerFair(Step(l, t).0, price)
  {
    var before := if t.action.Crash? then l.disk.sessions else l.mem.sessions;
    PlainStepValue(l, t);
    SameValueFair(before, Step(l, t).0.mem.sessions, price);
  }

  lemma StepFair(l: Ledger, t: Timed, price: GrantId -> nat)
    requires LedgerFair(l, price) && Priced(t.action, price)
    requires t.action.RollBackLate? && t.action.snapshot.Some? ==> Fair(t.action.snapshot.value, price)
    ensures LedgerFair(Step(l, t).0, price)
  {
    var a := t.action;
    if a.GrantOrRollBack? || a.RecreateOrRollBack? || a.SaveAll? {
      SavedStepFair(l, t, price);
    } else if a.ReplayPayment? || a.LiveGrant? || a.Extend? || a.Grant? {
      CreditingStepFair(l, t, price);
    } else if !a.RollBackLate? {
      PlainStepFair(l, t, price);
    }
  }

  /** A late rollback puts back a session that memory had at some point before. */
  predicate PutsBack(l: Ledger, ts: seq<Timed>, i: nat)
    requires i < |ts|
  {
    ts[i].action.RollBackLate? ==>
      exists k: nat :: k <= i && Snapshot(Run(l, ts[..k]).mem, ts[i].action.mac) == ts[i].action.snapshot
  }

  predicate PutsBackOnly(l: Ledger, ts: seq<Timed>) {
    ts == [] || (PutsBackOnly(l, ts[..|ts| - 1]) && PutsBack(l, ts, |ts| - 1))
  }

  predicate AllPriced(ts: seq<Timed>, price: GrantId -> nat) {
    forall t :: t in ts ==> Priced(t.action, price)
  }

  lemma {:induction false} PutsBackPrefix(l: Ledger, ts: seq<Timed>, k: nat)
    requires PutsBackOnly(l, ts) && k <= |ts|
    ensures PutsBackOnly(l, ts[..k])
  {
    if k < |ts| {
      PutsBackPrefix(l, ts[..|ts| - 1], k);
      assert ts[..|ts| - 1][..k] == ts[..k];
    } else {
      assert ts[..k] == ts;
    }
  }

  lemma {:induction false} RunFair(ts: seq<Timed>, price: GrantId -> nat)
    requires AllPriced(ts, price) && PutsBackOnly(R.EMPTY, ts)
    ensures LedgerFair(Run(R.EMPTY, ts), price)
    decreases |ts|
  {
    if ts != [] {
      var n := |ts| - 1;
      assert forall t :: t in ts[..n] ==> t in ts;
      RunFair(ts[..n], price);
      assert ts[n] in ts;
      if ts[n].action.RollBackLate? && ts[n].action.snapshot.Some? {
        var k: nat :| k <= n && Snapshot(Run(R.EMPTY, ts[..k]).mem, ts[n].action.mac) == ts[n].action.snapshot;
        PutsBackPrefix(R.EMPTY, ts, k);
        assert forall t :: t in ts[..k] ==> t in ts;
        RunFair(ts[..k], price);
      }
      StepFair(Run(R.EMPTY, ts[..n]), ts[n], price);
    }
  }

  /** Over every run in which every payment has one price, the allotment of every session, in memory and on disk, is
      the sum of the prices of its credits: to count credits is to count value. */
  lemma AllotmentIsWorth(ts: seq<Timed>, l: Ledger, mac: Mac, price: GrantId -> nat)
    requires AllPriced(ts, price) && PutsBackOnly(R.EMPTY, ts) && l == Run(R.EMPTY, ts)
    ensures mac in l.mem.sessions ==>
      l.mem.sessions[mac].allotment % U64 == Worth(l.mem.sessions[mac].credits, price) % U64
    ensures mac in l.disk.sessions ==>
      l.disk.sessions[mac].allotment % U64 == Worth(l.disk.sessions[mac].credits, price) % U64
  {
    RunFair(ts, price);
  }
}
