/** What ledger steps do to the credits an allotment is made of, and to the ids the ledger knows. */
module LedgerCredits {
  import opened Options
  import opened GrantLedger
  import opened LedgerRuns

  // ---------------------------------------------------------------- credits

  /** Which grants a protocol accounts for: `ids` are its own, `seen` those it has created so far, and `open` those
      that it may still credit. */
  datatype Watch = Watch(ids: iset<GrantId>, open: iset<GrantId>, seen: iset<GrantId>)

  /** No watched grant is credited twice; a credited one has been created, and while it is open the session still
      names it. */
  ghost predicate Good(s: Session, k: Watch) {
    forall g :: g in k.ids && s.credits[g] > 0 ==>
      s.credits[g] == 1 && g in k.seen && (g in k.open ==> g in s.applied)
  }

  ghost predicate AllGood(ss: map<Mac, Session>, k: Watch) {
    forall mac :: mac in ss ==> Good(ss[mac], k)
  }

  ghost predicate LedgerGood(l: Ledger, k: Watch) {
    AllGood(l.mem.sessions, k) && AllGood(l.disk.sessions, k)
  }

  /** Time passes: more grants are created, and none that was created before is opened again. */
  ghost predicate MovesOn(k: Watch, k': Watch) {
    k'.ids == k.ids && k.seen <= k'.seen && forall g :: g in k'.open && g in k.seen ==> g in k.open
  }

  lemma GoodMovesOn(l: Ledger, k: Watch, k': Watch)
    requires LedgerGood(l, k) && MovesOn(k, k')
    ensures LedgerGood(l, k')
  {}

  /** A watched id may be credited to `mac` only if its session there (if it is kept) has no such credit. */
  ghost predicate MayCredit(ss: map<Mac, Session>, mac: Mac, id: Option<GrantId>, k: Watch) {
    id.Some? && id.value in k.ids ==> id.value in k.seen && (mac in ss ==> ss[mac].credits[id.value] == 0)
  }

  /** What a step must respect to keep every session good. */
  ghost predicate Respectful(l: Ledger, t: Timed, k: Watch) {
    match t.action
    case ReplayPayment(_, _, _, _, payment) => payment !in k.ids
    case LiveGrant(_, _, _, _, payment) => payment !in k.ids
    case Extend(mac, _, _, _, grant) => MayCredit(l.mem.sessions, mac, Some(grant), k)
    case Grant(_, _, _, _, id) => id in k.ids ==> id in k.seen
    case GrantOrRollBack(_, _, _, _, id, _) => id in k.ids ==> id in k.seen
    case RecreateOrRollBack(mac, _, _, _, id, replaceDead, _) =>
      var kept := if replaceDead && !IsActive(l.mem, mac, t.now) then l.mem.sessions - {mac} else l.mem.sessions;
      MayCredit(kept, mac, Some(id), k)
    case ForgetIds(ids) => forall g :: g in ids && g in k.ids ==> g !in k.open
    case RollBackLate(_, snapshot) => snapshot.Some? ==> Good(snapshot.value, k)
    case _ => true
  }

  lemma TagGood(m: Memory, mac: Mac, id: Option<GrantId>, k: Watch)
    requires mac in m.sessions && AllGood(m.sessions, k) && MayCredit(m.sessions, mac, id, k)
    ensures AllGood(Tag(m, mac, id).sessions, k)
  {}

  lemma AddGood(m: Memory, mac: Mac, metric: string, amount: nat, secs: nat, id: Option<GrantId>, now: nat, k: Watch)
    requires AllGood(m.sessions, k) && MayCredit(m.sessions, mac, id, k)
    ensures AllGood(AddAllotment(m, mac, metric, amount, secs, id, now).sessions, k)
  {}

  lemma SaveGood(l: Ledger, now: nat, fault: Fault, k: Watch)
    requires LedgerGood(l, k)
    ensures LedgerGood(Save(l, now, fault).0, k)
  {}

  lemma SaveOrRollBackGood(l: Ledger, granted: Memory, mac: Mac, now: nat, fault: Fault, k: Watch)
    requires LedgerGood(l, k) && AllGood(granted.sessions, k)
    ensures LedgerGood(SaveOrRollBack(l, granted, mac, now, fault).0, k)
  {
    SaveGood(l.(mem := granted), now, fault, k);
  }

  lemma RecreatedGood(m: Memory, mac: Mac, metric: string, amount: nat, secs: nat, id: GrantId, replaceDead: bool,
                      now: nat, k: Watch)
    requires AllGood(m.sessions, k)
    requires var kept := if replaceDead && !IsActive(m, mac, now) then m.sessions - {mac} else m.sessions;
      MayCredit(kept, mac, Some(id), k)
    ensures AllGood(Recreated(m, mac, metric, amount, secs, id, replaceDead, now).sessions, k)
  {}

  lemma SavedStepGood(l: Ledger, t: Timed, k: Watch)
    requires LedgerGood(l, k) && Respectful(l, t, k)
    requires t.action.SaveAll? || t.action.GrantOrRollBack? || t.action.RecreateOrRollBack?
    ensures LedgerGood(Step(l, t).0, k)
  {
    var now, a := t.now, t.action;
    if a.SaveAll? {
      SaveGood(l, now, a.fault, k);
    } else if a.RecreateOrRollBack? {
      RecreatedGood(l.mem, a.mac, a.metric, a.amount, a.secs, a.id, a.replaceDead, now, k);
      var granted := Recreated(l.mem, a.mac, a.metric, a.amount, a.secs, a.id, a.replaceDead, now);
      SaveOrRollBackGood(l, granted, a.mac, now, a.fault, k);
    } else if !HasGrant(l.mem, a.mac, a.id) {
      TagGood(Create(l.mem, a.mac, a.allotment, a.metric, a.secs, now), a.mac, Some(a.id), k);
      var granted := ApplyGrantOnce(l.mem, a.mac, a.allotment, a.metric, a.secs, a.id, now);
      SaveOrRollBackGood(l, granted, a.mac, now, a.fault, k);
    }
  }

  lemma StepGood(l: Ledger, t: Timed, k: Watch)
    requires LedgerGood(l, k) && Respectful(l, t, k)
    ensures LedgerGood(Step(l, t).0, k)
  {
    var now, a := t.now, t.action;
    if a.SaveAll? || a.GrantOrRollBack? || a.RecreateOrRollBack? {
      SavedStepGood(l, t, k);
    } else if a.Extend? {
      AddGood(l.mem, a.mac, a.metric, a.amount, a.secs, Some(a.grant), now, k);
    } else if a.LiveGrant? {
      AddGood(l.mem, a.mac, a.metric, a.amount, a.secs, None, now, k);
    }
  }

  // ---------------------------------------------------------------- the single slot

  /** The grant in the single slot is one that the allotment is made of. */
  predicate LastIsCredit(s: Session) {
    s.last.Some? ==> s.credits[s.last.value] > 0
  }

  predicate AllLast(ss: map<Mac, Session>) {
    forall mac :: mac in ss ==> LastIsCredit(ss[mac])
  }

  predicate LedgerLast(l: Ledger) {
    AllLast(l.mem.sessions) && AllLast(l.disk.sessions)
  }

  lemma AddLast(m: Memory, mac: Mac, metric: string, amount: nat, secs: nat, id: Option<GrantId>, now: nat)
    requires AllLast(m.sessions)
    ensures AllLast(AddAllotment(m, mac, metric, amount, secs, id, now).sessions)
  {}

  lemma ApplyLast(m: Memory, mac: Mac, allotment: nat, metric: string, secs: nat, id: GrantId, now: nat)
    requires AllLast(m.sessions)
    ensures AllLast(ApplyGrantOnce(m, mac, allotment, metric, secs, id, now).sessions)
  {}

  lemma RecreatedLast(m: Memory, mac: Mac, metric: string, amount: nat, secs: nat, id: GrantId, replaceDead: bool,
                      now: nat)
    requires AllLast(m.sessions)
    ensures AllLast(Recreated(m, mac, metric, amount, secs, id, replaceDead, now).sessions)
  {
    var m1 := if replaceDead && mac in m.sessions && !IsActive(m, mac, now) then Revoke(m, mac) else m;
    AddLast(m1, mac, metric, amount, secs, Some(id), now);
  }

  lemma SaveLast(l: Ledger, now: nat, fault: Fault)
    requires LedgerLast(l)
    ensures LedgerLast(Save(l, now, fault).0)
  {}

  lemma SaveOrRollBackLast(l: Ledger, granted: Memory, mac: Mac, now: nat, fault: Fault)
    requires LedgerLast(l) && AllLast(granted.sessions)
    ensures LedgerLast(SaveOrRollBack(l, granted, mac, now, fault).0)
  {
    SaveLast(l.(mem := granted), now, fault);
  }

  lemma PlainStepLast(l: Ledger, t: Timed)
    requires LedgerLast(l)
    requires var a := t.action;
      a.ReplayPayment? || a.ForgetIds? || a.RevokeOne? || a.CleanUp? || a.SetUsage? || a.Crash?
    ensures LedgerLast(Step(l, t).0)
  {}

  lemma SavedStepLast(l: Ledger, t: Timed)
    requires LedgerLast(l) && (t.action.GrantOrRollBack? || t.action.RecreateOrRollBack? || t.action.SaveAll?)
    ensures LedgerLast(Step(l, t).0)
  {
    var now, a := t.now, t.action;
    if a.GrantOrRollBack? {
      ApplyLast(l.mem, a.mac, a.allotment, a.metric, a.secs, a.id, now);
      SaveOrRollBackLast(l, ApplyGrantOnce(l.mem, a.mac, a.allotment, a.metric, a.secs, a.id, now), a.mac, now,
                         a.fault);
    } else if a.RecreateOrRollBack? {
      RecreatedLast(l.mem, a.mac, a.metric, a.amount, a.secs, a.id, a.replaceDead, now);
      var granted := Recreated(l.mem, a.mac, a.metric, a.amount, a.secs, a.id, a.replaceDead, now);
      SaveOrRollBackLast(l, granted, a.mac, now, a.fault);
    } else {
      SaveLast(l, now, a.fault);
    }
  }

  lemma StepLast(l: Ledger, t: Timed)
    requires LedgerLast(l)
    requires t.action.RollBackLate? && t.action.snapshot.Some? ==> LastIsCredit(t.action.snapshot.value)
    ensures LedgerLast(Step(l, t).0)
  {
    var now, a := t.now, t.action;
    if a.Extend? {
      AddLast(l.mem, a.mac, a.metric, a.amount, a.secs, Some(a.grant), now);
    } else if a.LiveGrant? {
      AddLast(l.mem, a.mac, a.metric, a.amount, a.secs, None, now);
    } else if a.Grant? {
      ApplyLast(l.mem, a.mac, a.allotment, a.metric, a.secs, a.id, now);
    } else if a.GrantOrRollBack? || a.RecreateOrRollBack? || a.SaveAll? {
      SavedStepLast(l, t);
    } else if !a.RollBackLate? {
      PlainStepLast(l, t);
    }
  }

  // ---------------------------------------------------------------- known ids

  ghost predicate Known(l: Ledger, id: GrantId) {
    Held(l.mem, id) || OnDisk(l.disk, id)
  }

  /** Whatever memory holds afterwards it held before, or it is `added`. */
  ghost predicate NoNewIds(m: Memory, m': Memory, added: set<GrantId>) {
    forall id :: Held(m', id) ==> Held(m, id) || id in added
  }

  lemma FromSession(m: Memory, m': Memory, mac: Mac, added: set<GrantId>)
    requires m'.tombs <= m.tombs + (if mac in m.sessions then SessionIds(m.sessions[mac]) else {})
    requires forall k :: k in m'.sessions && k != mac ==>
      k in m.sessions && SessionIds(m'.sessions[k]) <= SessionIds(m.sessions[k])
    requires mac in m'.sessions ==>
      SessionIds(m'.sessions[mac]) <= added + (if mac in m.sessions then SessionIds(m.sessions[mac]) else {})
    ensures NoNewIds(m, m', added)
  {}

  lemma AddInventsNothing(m: Memory, mac: Mac, metric: string, amount: nat, secs: nat, id: Option<GrantId>, now: nat)
    ensures NoNewIds(m, AddAllotment(m, mac, metric, amount, secs, id, now), if id.Some? then {id.value} else {})
  {}

  lemma CountInventsNothing(m: Memory, m': Memory, mac: Mac, payment: GrantId, added: set<GrantId>)
    requires NoNewIds(m, m', added) && mac in m'.sessions
    ensures NoNewIds(m, Count(m', mac, payment), added)
  {
    forall id | Held(Count(m', mac, payment), id) ensures Held(m', id) {
      if id !in m'.tombs {
        var ss := Count(m', mac, payment).sessions;
        var k :| k in ss && id in SessionIds(ss[k]);
        assert k in m'.sessions && id in SessionIds(m'.sessions[k]);
      }
    }
  }

  lemma ApplyInventsNothing(m: Memory, mac: Mac, allotment: nat, metric: string, secs: nat, id: GrantId, now: nat)
    ensures NoNewIds(m, ApplyGrantOnce(m, mac, allotment, metric, secs, id, now), {id})
  {}

  lemma SaveInventsNothing(l: Ledger, now: nat, fault: Fault, id: GrantId)
    ensures Known(Save(l, now, fault).0, id) ==> Known(l, id)
    ensures Held(Save(l, now, fault).0.mem, id) ==> Held(l.mem, id)
  {}

  lemma SaveOrRollBackInventsNothing(l: Ledger, granted: Memory, mac: Mac, now: nat, fault: Fault, id: GrantId)
    requires SameElsewhere(l.mem.sessions, granted.sessions, mac)
    requires Held(granted, id) ==> Held(l.mem, id)
    ensures Known(SaveOrRollBack(l, granted, mac, now, fault).0, id) ==> Known(l, id)
  {
    SaveInventsNothing(l.(mem := granted), now, fault, id);
    RollbackRestores(l.mem, Save(l.(mem := granted), now, fault).0.mem, mac);
  }

  lemma RecreatedInventsNothing(m: Memory, mac: Mac, metric: string, amount: nat, secs: nat, g: GrantId,
                                replaceDead: bool, now: nat)
    ensures NoNewIds(m, Recreated(m, mac, metric, amount, secs, g, replaceDead, now), {g})
  {}

  lemma RecreatedElsewhere(m: Memory, mac: Mac, metric: string, amount: nat, secs: nat, g: GrantId,
                           replaceDead: bool, now: nat)
    ensures SameElsewhere(m.sessions, Recreated(m, mac, metric, amount, secs, g, replaceDead, now).sessions, mac)
  {}

  lemma CleanupInventsNothing(m: Memory, now: nat, id: GrantId)
    ensures Held(Cleanup(m, now), id) ==> Held(m, id)
  {}

  lemma ForgetInventsNothing(m: Memory, ids: set<GrantId>, id: GrantId)
    ensures Held(Forget(m, ids), id) ==> Held(m, id)
  {}

  /** What is forgotten is held no more. */
  lemma ForgottenIsNotHeld(m: Memory, ids: set<GrantId>, id: GrantId)
    requires id in ids
    ensures !Held(Forget(m, ids), id)
  {}

  lemma SavedStepInventsNothing(l: Ledger, t: Timed, id: GrantId)
    requires id !in Names(t.action) && (t.action.GrantOrRollBack? || t.action.RecreateOrRollBack? || t.action.SaveAll?)
    ensures Known(Step(l, t).0, id) ==> Known(l, id)
  {
    var now, a := t.now, t.action;
    if a.SaveAll? {
      SaveInventsNothing(l, now, a.fault, id);
    } else if a.RecreateOrRollBack? {
      var m := Recreated(l.mem, a.mac, a.metric, a.amount, a.secs, a.id, a.replaceDead, now);
      RecreatedInventsNothing(l.mem, a.mac, a.metric, a.amount, a.secs, a.id, a.replaceDead, now);
      RecreatedElsewhere(l.mem, a.mac, a.metric, a.amount, a.secs, a.id, a.replaceDead, now);
      SaveOrRollBackInventsNothing(l, m, a.mac, now, a.fault, id);
    } else if !HasGrant(l.mem, a.mac, a.id) {
      var m := ApplyGrantOnce(l.mem, a.mac, a.allotment, a.metric, a.secs, a.id, now);
      ApplyInventsNothing(l.mem, a.mac, a.allotment, a.metric, a.secs, a.id, now);
      SaveOrRollBackInventsNothing(l, m, a.mac, now, a.fault, id);
    }
  }

  lemma OneSessionInventsNothing(l: Ledger, t: Timed, id: GrantId)
    requires id !in Names(t.action)
    requires var a := t.action; a.ReplayPayment? || a.RollBackLate? || a.RevokeOne? || a.SetUsage?
    ensures Known(Step(l, t).0, id) ==> Known(l, id)
  {
    FromSession(l.mem, Step(l, t).0.mem, t.action.mac, Names(t.action));
  }

  /** What memory does not hold when it is saved does not come back with the files. */
  lemma SavedForgets(l: Ledger, now: nat, id: GrantId)
    requires Sound(l) && !Held(l.mem, id)
    ensures var l' := Save(l, now, NoFault).0; Sound(l') && !Held(Load(l'.disk), id)
  {
    var l' := Save(l, now, NoFault).0;
    SaveKeeps(l, now, NoFault);
    SaveInventsNothing(l, now, NoFault, id);
    LoadHolds(l'.disk, id);
    if OnDisk(l'.disk, id) {
      SavedCarries(l, now, id);
    }
  }

  lemma SavedCarries(l: Ledger, now: nat, id: GrantId)
    requires Sound(l) && OnDisk(Save(l, now, NoFault).0.disk, id)
    ensures Held(Save(l, now, NoFault).0.mem, id)
  {
    var l' := Save(l, now, NoFault).0;
    SaveKeeps(l, now, NoFault);
    if id !in l'.disk.tombs {
      var k :| k in l'.disk.sessions && id in SessionIds(l'.disk.sessions[k]);
      assert k in l'.mem.sessions && id in SessionIds(l'.mem.sessions[k]);
    }
  }

  /** No step makes the ledger know an id that it did not know and that the step does not name. */
  lemma StepInventsNothing(l: Ledger, t: Timed, id: GrantId)
    requires id !in Names(t.action)
    ensures Known(Step(l, t).0, id) ==> Known(l, id)
  {
    var now, a := t.now, t.action;
    if a.Extend? {
      AddInventsNothing(l.mem, a.mac, a.metric, a.amount, a.secs, Some(a.grant), now);
    } else if a.LiveGrant? {
      AddInventsNothing(l.mem, a.mac, a.metric, a.amount, a.secs, None, now);
      CountInventsNothing(l.mem, AddAllotment(l.mem, a.mac, a.metric, a.amount, a.secs, None, now), a.mac, a.payment,
                          {});
    } else if a.Grant? {
      ApplyInventsNothing(l.mem, a.mac, a.allotment, a.metric, a.secs, a.id, now);
    } else if a.ForgetIds? {
      ForgetInventsNothing(l.mem, a.ids, id);
    } else if a.CleanUp? {
      CleanupInventsNothing(l.mem, now, id);
    } else if a.Crash? {
      LoadHolds(l.disk, id);
    } else if a.ReplayPayment? || a.RollBackLate? || a.RevokeOne? || a.SetUsage? {
      OneSessionInventsNothing(l, t, id);
    } else {
      SavedStepInventsNothing(l, t, id);
    }
  }

  // ---------------------------------------------------------------- where an id may stand

  /** Only the session of `home` names `g`. */
  predicate OnlyAt(ss: map<Mac, Session>, g: GrantId, home: Mac) {
    forall mac :: mac in ss && g in SessionIds(ss[mac]) ==> mac == home
  }

  predicate LedgerOnlyAt(l: Ledger, g: GrantId, home: Mac) {
    OnlyAt(l.mem.sessions, g, home) && OnlyAt(l.disk.sessions, g, home)
  }

  /** An action that names `g` does so for `home`. */
  predicate At(a: Action, g: GrantId, home: Mac) {
    g in Names(a) && !a.ForgetIds? ==> a.mac == home
  }

  lemma AddOnlyAt(m: Memory, mac: Mac, metric: string, amount: nat, secs: nat, id: Option<GrantId>, now: nat,
                  g: GrantId,
                  home: Mac)
    requires OnlyAt(m.sessions, g, home) && (id == Some(g) ==> mac == home)
    ensures OnlyAt(AddAllotment(m, mac, metric, amount, secs, id, now).sessions, g, home)
  {}

  lemma ApplyOnlyAt(m: Memory, mac: Mac, allotment: nat, metric: string, secs: nat, id: GrantId, now: nat, g: GrantId,
                    home: Mac)
    requires OnlyAt(m.sessions, g, home) && (id == g ==> mac == home)
    ensures OnlyAt(ApplyGrantOnce(m, mac, allotment, metric, secs, id, now).sessions, g, home)
  {}

  lemma RecreatedOnlyAt(m: Memory, mac: Mac, metric: string, amount: nat, secs: nat, id: GrantId, replaceDead: bool,
                        now: nat, g: GrantId, home: Mac)
    requires OnlyAt(m.sessions, g, home) && (id == g ==> mac == home)
    ensures OnlyAt(Recreated(m, mac, metric, amount, secs, id, replaceDead, now).sessions, g, home)
  {
    var m1 := if replaceDead && mac in m.sessions && !IsActive(m, mac, now) then Revoke(m, mac) else m;
    AddOnlyAt(m1, mac, metric, amount, secs, Some(id), now, g, home);
  }

  lemma SaveOnlyAt(l: Ledger, now: nat, fault: Fault, g: GrantId, home: Mac)
    requires LedgerOnlyAt(l, g, home)
    ensures LedgerOnlyAt(Save(l, now, fault).0, g, home)
  {}

  lemma SaveOrRollBackOnlyAt(l: Ledger, granted: Memory, mac: Mac, now: nat, fault: Fault, g: GrantId, home: Mac)
    requires LedgerOnlyAt(l, g, home) && OnlyAt(granted.sessions, g, home)
    ensures LedgerOnlyAt(SaveOrRollBack(l, granted, mac, now, fault).0, g, home)
  {
    SaveOnlyAt(l.(mem := granted), now, fault, g, home);
  }

  lemma SavedStepOnlyAt(l: Ledger, t: Timed, g: GrantId, home: Mac)
    requires LedgerOnlyAt(l, g, home) && At(t.action, g, home)
    requires t.action.GrantOrRollBack? || t.action.RecreateOrRollBack? || t.action.SaveAll?
    ensures LedgerOnlyAt(Step(l, t).0, g, home)
  {
    var now, a := t.now, t.action;
    if a.SaveAll? {
      SaveOnlyAt(l, now, a.fault, g, home);
    } else if a.RecreateOrRollBack? {
      var m := Recreated(l.mem, a.mac, a.metric, a.amount, a.secs, a.id, a.replaceDead, now);
      RecreatedOnlyAt(l.mem, a.mac, a.metric, a.amount, a.secs, a.id, a.replaceDead, now, g, home);
      SaveOrRollBackOnlyAt(l, m, a.mac, now, a.fault, g, home);
    } else if !HasGrant(l.mem, a.mac, a.id) {
      var m := ApplyGrantOnce(l.mem, a.mac, a.allotment, a.metric, a.secs, a.id, now);
      ApplyOnlyAt(l.mem, a.mac, a.allotment, a.metric, a.secs, a.id, now, g, home);
      SaveOrRollBackOnlyAt(l, m, a.mac, now, a.fault, g, home);
    }
  }

  lemma PlainStepOnlyAt(l: Ledger, t: Timed, g: GrantId, home: Mac)
    requires LedgerOnlyAt(l, g, home)
    requires var a := t.action;
      a.ReplayPayment? || a.ForgetIds? || a.RevokeOne? || a.CleanUp? || a.SetUsage? || a.Crash?
    ensures LedgerOnlyAt(Step(l, t).0, g, home)
  {}

  /** An id that is only ever named for one MAC stands only there. */
  lemma StepOnlyAt(l: Ledger, t: Timed, g: GrantId, home: Mac)
    requires LedgerOnlyAt(l, g, home) && At(t.action, g, home)
    ensures LedgerOnlyAt(Step(l, t).0, g, home)
  {
    var now, a := t.now, t.action;
    if a.GrantOrRollBack? || a.RecreateOrRollBack? || a.SaveAll? {
      SavedStepOnlyAt(l, t, g, home);
    } else if a.Extend? {
      AddOnlyAt(l.mem, a.mac, a.metric, a.amount, a.secs, Some(a.grant), now, g, home);
    } else if a.LiveGrant? {
      AddOnlyAt(l.mem, a.mac, a.metric, a.amount, a.secs, None, now, g, home);
    } else if a.Grant? {
      ApplyOnlyAt(l.mem, a.mac, a.allotment, a.metric, a.secs, a.id, now, g, home);
    } else if !a.RollBackLate? {
      PlainStepOnlyAt(l, t, g, home);
    }
  }
}
