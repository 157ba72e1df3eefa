/** What a step of the ledger that is about other grants leaves of the credits and the traces of one grant. */
module LedgerOnce {
  import opened Options
  import opened GrantLedger
  import opened LedgerRuns

  /** The session has no credit of `g`, or the credit, and the trace, that the session of `mac` in `ss` had. */
  predicate From(ss: map<Mac, Session>, mac: Mac, s: Session, g: GrantId) {
    || s.credits[g] == 0
    || (mac in ss && s.credits[g] == ss[mac].credits[g] && (g in ss[mac].applied ==> g in s.applied))
  }

  predicate Inherits(ss: map<Mac, Session>, ss': map<Mac, Session>, g: GrantId) {
    forall mac :: mac in ss' ==> From(ss, mac, ss'[mac], g)
  }

  ghost predicate MemoryFollows(m: Memory, m': Memory, g: GrantId) {
    Inherits(m.sessions, m'.sessions, g) && (Held(m', g) ==> Held(m, g))
  }

  /** The files follow what was in the files or in memory; and when the files name `g` although memory did not, then
      the sessions in the file were not touched. */
  ghost predicate DiskFollows(l: Ledger, d: Disk, g: GrantId) {
    && (forall mac :: mac in d.sessions ==>
          From(l.disk.sessions, mac, d.sessions[mac], g) || From(l.mem.sessions, mac, d.sessions[mac], g))
    && (OnDisk(d, g) && !Held(l.mem, g) ==> OnDisk(l.disk, g) && d.sessions == l.disk.sessions)
  }

  ghost predicate Follows(l: Ledger, l': Ledger, g: GrantId) {
    MemoryFollows(l.mem, l'.mem, g) && DiskFollows(l, l'.disk, g)
  }

  // ---------------------------------------------------------------- operations on memory

  lemma CreateFollows(m: Memory, mac: Mac, allotment: nat, metric: string, secs: nat, now: nat, g: GrantId)
    ensures MemoryFollows(m, Create(m, mac, allotment, metric, secs, now), g)
  {
    var m' := Create(m, mac, allotment, metric, secs, now);
    if Held(m', g) && g !in m'.tombs {
      var k :| k in m'.sessions && g in SessionIds(m'.sessions[k]);
      assert k in m.sessions && g in SessionIds(m.sessions[k]);
    }
  }

  lemma AddFollows(m: Memory, mac: Mac, metric: string, amount: nat, secs: nat, id: Option<GrantId>, now: nat,
                   g: GrantId)
    requires id != Some(g)
    ensures MemoryFollows(m, AddAllotment(m, mac, metric, amount, secs, id, now), g)
  {
    var m' := AddAllotment(m, mac, metric, amount, secs, id, now);
    if Held(m', g) && g !in m'.tombs {
      var k :| k in m'.sessions && g in SessionIds(m'.sessions[k]);
      assert k in m.sessions && g in SessionIds(m.sessions[k]);
    }
  }

  lemma ApplyFollows(m: Memory, mac: Mac, allotment: nat, metric: string, secs: nat, id: GrantId, now: nat, g: GrantId)
    requires id != g
    ensures MemoryFollows(m, ApplyGrantOnce(m, mac, allotment, metric, secs, id, now), g)
  {
    var m' := ApplyGrantOnce(m, mac, allotment, metric, secs, id, now);
    if Held(m', g) && g !in m'.tombs {
      var k :| k in m'.sessions && g in SessionIds(m'.sessions[k]);
      assert k in m.sessions && g in SessionIds(m.sessions[k]);
    }
  }

  /** Counting a payment is no trace of it. */
  lemma CountFollows(m: Memory, m': Memory, mac: Mac, payment: GrantId, g: GrantId)
    requires MemoryFollows(m, m', g) && mac in m'.sessions && payment != g
    ensures MemoryFollows(m, Count(m', mac, payment), g)
  {
    var m'' := Count(m', mac, payment);
    if Held(m'', g) && g !in m''.tombs {
      var k :| k in m''.sessions && g in SessionIds(m''.sessions[k]);
      assert k in m'.sessions && g in SessionIds(m'.sessions[k]);
    }
  }

  lemma RevokeFollows(m: Memory, mac: Mac, g: GrantId)
    ensures MemoryFollows(m, Revoke(m, mac), g)
  {
    var m' := Revoke(m, mac);
    if Held(m', g) && g !in m'.tombs {
      var k :| k in m'.sessions && g in SessionIds(m'.sessions[k]);
      assert k in m.sessions && g in SessionIds(m.sessions[k]);
    }
  }

  lemma FollowsOn(m: Memory, m1: Memory, m2: Memory, g: GrantId)
    requires MemoryFollows(m, m1, g) && MemoryFollows(m1, m2, g)
    ensures MemoryFollows(m, m2, g)
  {
    forall mac | mac in m2.sessions ensures From(m.sessions, mac, m2.sessions[mac], g) {
      assert From(m1.sessions, mac, m2.sessions[mac], g);
      if m2.sessions[mac].credits[g] > 0 {
        assert From(m.sessions, mac, m1.sessions[mac], g);
      }
    }
  }

  lemma RecreatedFollows(m: Memory, mac: Mac, metric: string, amount: nat, secs: nat, id: GrantId, replaceDead: bool,
                         now: nat, g: GrantId)
    requires id != g
    ensures MemoryFollows(m, Recreated(m, mac, metric, amount, secs, id, replaceDead, now), g)
  {
    var dead := replaceDead && mac in m.sessions && !IsActive(m, mac, now);
    var m1 := if dead then Revoke(m, mac) else m;
    AddFollows(m1, mac, metric, amount, secs, Some(id), now, g);
    if dead {
      RevokeFollows(m, mac, g);
      FollowsOn(m, m1, AddAllotment(m1, mac, metric, amount, secs, Some(id), now), g);
    }
  }

  lemma CleanupFollows(m: Memory, now: nat, g: GrantId)
    ensures MemoryFollows(m, Cleanup(m, now), g)
  {
    ExpiredIdsContains(m.sessions, now, g);
    var m' := Cleanup(m, now);
    if Held(m', g) && g !in m'.tombs {
      var k :| k in m'.sessions && g in SessionIds(m'.sessions[k]);
      assert k in m.sessions && g in SessionIds(m.sessions[k]);
    }
  }

  lemma UsageFollows(m: Memory, mac: Mac, used: nat, g: GrantId)
    ensures MemoryFollows(m, Usage(m, mac, used), g)
  {
    var m' := Usage(m, mac, used);
    if Held(m', g) && g !in m'.tombs {
      var k :| k in m'.sessions && g in SessionIds(m'.sessions[k]);
      assert k in m.sessions && g in SessionIds(m.sessions[k]);
    }
  }

  lemma ForgetFollows(m: Memory, ids: set<GrantId>, g: GrantId)
    requires g !in ids
    ensures MemoryFollows(m, Forget(m, ids), g)
  {
    var m' := Forget(m, ids);
    if Held(m', g) && g !in m'.tombs {
      var k :| k in m'.sessions && g in SessionIds(m'.sessions[k]);
      assert k in m.sessions && g in SessionIds(m.sessions[k]);
    }
  }

  // ---------------------------------------------------------------- saving

  /** Where a save leaves memory and files. */
  lemma SaveShape(l: Ledger, now: nat, fault: Fault)
    requires Sound(l)
    ensures var (l', ok) := Save(l, now, fault);
      && l'.mem.sessions == l.mem.sessions
      && l'.mem.tombs == l.mem.tombs + ExpiredIds(l.mem.sessions, now)
      && if ok || l'.disk.sessions != l.disk.sessions
         then l'.disk.sessions == Unexpired(l.mem.sessions, now) && l'.disk.tombs == l'.mem.tombs
         else l'.disk.tombs == l.disk.tombs || l'.disk.tombs == l'.mem.tombs
  {}

  lemma SaveFollows(l: Ledger, now: nat, fault: Fault, g: GrantId)
    requires Sound(l)
    ensures Follows(l, Save(l, now, fault).0, g)
  {
    var l' := Save(l, now, fault).0;
    SaveShape(l, now, fault);
    ExpiredIdsContains(l.mem.sessions, now, g);
    assert Held(l'.mem, g) ==> Held(l.mem, g) by {
      if Held(l'.mem, g) && g !in l'.mem.tombs {
        var k :| k in l'.mem.sessions && g in SessionIds(l'.mem.sessions[k]);
        assert k in l.mem.sessions && g in SessionIds(l.mem.sessions[k]);
      }
    }
    if Carried(l'.disk.sessions, g) {
      var k :| k in l'.disk.sessions && g in SessionIds(l'.disk.sessions[k]);
      if l'.disk.sessions != l.disk.sessions {
        assert k in l.mem.sessions && g in SessionIds(l.mem.sessions[k]);
      }
    }
  }

  /** Saving what followed. */
  lemma SaveOfFollower(l: Ledger, m: Memory, now: nat, fault: Fault, g: GrantId)
    requires MemoryFollows(l.mem, m, g) && Sound(l.(mem := m))
    ensures Follows(l, Save(l.(mem := m), now, fault).0, g)
  {
    var l' := Save(l.(mem := m), now, fault).0;
    SaveFollows(l.(mem := m), now, fault, g);
    FollowsOn(l.mem, m, l'.mem, g);
    forall mac | mac in l'.disk.sessions
      ensures From(l.disk.sessions, mac, l'.disk.sessions[mac], g) ||
        From(l.mem.sessions, mac, l'.disk.sessions[mac], g)
    {
      var s := l'.disk.sessions[mac];
      if !From(l.disk.sessions, mac, s, g) {
        assert From(m.sessions, mac, s, g) && mac in m.sessions;
        assert From(l.mem.sessions, mac, m.sessions[mac], g);
      }
    }
  }

  lemma SaveOrRollBackFollows(l: Ledger, granted: Memory, mac: Mac, now: nat, fault: Fault, g: GrantId)
    requires MemoryFollows(l.mem, granted, g) && Sound(l.(mem := granted))
    requires SameElsewhere(l.mem.sessions, granted.sessions, mac)
    ensures Follows(l, SaveOrRollBack(l, granted, mac, now, fault).0, g)
  {
    var (saved, ok) := Save(l.(mem := granted), now, fault);
    SaveOfFollower(l, granted, now, fault, g);
    if !ok {
      var l' := SaveOrRollBack(l, granted, mac, now, fault).0;
      SaveShape(l.(mem := granted), now, fault);
      RollbackRestores(l.mem, saved.mem, mac);
      assert l'.mem.sessions == l.mem.sessions;
    }
  }

  // ---------------------------------------------------------------- steps

  lemma SavedStepFollows(l: Ledger, t: Timed, g: GrantId)
    requires Sound(l) && g !in Touched(t.action)
    requires t.action.GrantOrRollBack? || t.action.RecreateOrRollBack? || t.action.SaveAll?
    ensures Follows(l, Step(l, t).0, g)
  {
    var now, a := t.now, t.action;
    if a.SaveAll? {
      SaveFollows(l, now, a.fault, g);
    } else if a.RecreateOrRollBack? {
      var m := Recreated(l.mem, a.mac, a.metric, a.amount, a.secs, a.id, a.replaceDead, now);
      RecreatedGrows(l.mem, a.mac, a.metric, a.amount, a.secs, a.id, a.replaceDead, now);
      RecreatedFollows(l.mem, a.mac, a.metric, a.amount, a.secs, a.id, a.replaceDead, now, g);
      GrowthKeeps(l, m, g);
      SaveOrRollBackFollows(l, m, a.mac, now, a.fault, g);
    } else if !HasGrant(l.mem, a.mac, a.id) {
      var m := ApplyGrantOnce(l.mem, a.mac, a.allotment, a.metric, a.secs, a.id, now);
      ApplyGrows(l.mem, a.mac, a.allotment, a.metric, a.secs, a.id, now);
      ApplyFollows(l.mem, a.mac, a.allotment, a.metric, a.secs, a.id, now, g);
      GrowthKeeps(l, m, g);
      SaveOrRollBackFollows(l, m, a.mac, now, a.fault, g);
    }
  }

  /** Every step about other grants follows, but for crashes and late rollbacks, which go back. */
  lemma StepFollows(l: Ledger, t: Timed, g: GrantId)
    requires Sound(l) && g !in Touched(t.action) && !t.action.Crash? && !t.action.RollBackLate?
    ensures Follows(l, Step(l, t).0, g)
  {
    var now, a := t.now, t.action;
    if a.GrantOrRollBack? || a.RecreateOrRollBack? || a.SaveAll? {
      SavedStepFollows(l, t, g);
    } else if a.ReplayPayment? {
      CreateFollows(l.mem, a.mac, a.allotment, a.metric, a.secs, now, g);
      CountFollows(l.mem, Create(l.mem, a.mac, a.allotment, a.metric, a.secs, now), a.mac, a.payment, g);
    } else if a.LiveGrant? {
      AddFollows(l.mem, a.mac, a.metric, a.amount, a.secs, None, now, g);
      CountFollows(l.mem, AddAllotment(l.mem, a.mac, a.metric, a.amount, a.secs, None, now), a.mac, a.payment, g);
    } else if a.Extend? {
      AddFollows(l.mem, a.mac, a.metric, a.amount, a.secs, Some(a.grant), now, g);
    } else if a.Grant? {
      ApplyFollows(l.mem, a.mac, a.allotment, a.metric, a.secs, a.id, now, g);
    } else if a.ForgetIds? {
      ForgetFollows(l.mem, a.ids, g);
    } else if a.RevokeOne? {
      RevokeFollows(l.mem, a.mac, g);
    } else if a.CleanUp? {
      CleanupFollows(l.mem, now, g);
    } else {
      UsageFollows(l.mem, a.mac, a.used, g);
    }
  }
}
