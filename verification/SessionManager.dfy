/** The session manager as the object it is: fields updated in place, loops over maps, one directory of files.
    Each method is proved to have exactly the effect of the ledger operation of the same meaning, so what is
    proved of every run of the ledger holds of the object. */
module SessionManagers {
  import opened Options
  import opened GrantLedger
  import LedgerQuota

  /** `sessions.json` and `grant-tombstones.json`.  A missing file reads as an empty one. */
  class StateDir {
    var sessionsFile: map<Mac, Session>
    var tombstonesFile: set<GrantId>

    ghost function Files(): Disk
      reads this
    {
      Disk(sessionsFile, tombstonesFile)
    }
  }

  class SessionManager {
    var sessions: map<Mac, Session>
    var grantTombstones: set<GrantId>
    var tombstonesPersisted: Option<set<GrantId>>
    var dirty: bool

    function Mem(): Memory
      reads this
    {
      Memory(sessions, grantTombstones, tombstonesPersisted, dirty)
    }

    constructor LoadFromDisk(dir: StateDir)
      ensures Mem() == Load(dir.Files())
    {
      sessions := map[];
      grantTombstones := {};
      tombstonesPersisted := None;
      dirty := false;
      new;
      var todo := dir.sessionsFile.Keys;
      while todo != {}
        invariant todo <= dir.sessionsFile.Keys
        invariant sessions == map mac | mac in dir.sessionsFile && mac !in todo :: Seed(dir.sessionsFile[mac])
        invariant grantTombstones == {} && tombstonesPersisted == None && !dirty
      {
        var mac :| mac in todo;
        var s := dir.sessionsFile[mac];
        if s.last.Some? {
          s := s.(applied := s.applied + {s.last.value});
        }
        sessions := sessions[mac := s];
        todo := todo - {mac};
      }
      grantTombstones := dir.tombstonesFile;
    }

    /** The tombstones gain the session's ids; the write cache goes only if one of them was not there. */
    method RetireGrants(s: Session)
      modifies this`grantTombstones, this`tombstonesPersisted
      ensures Mem() == RetireIds(old(Mem()), SessionIds(s))
    {
      var changed := false;
      var todo := s.applied;
      while todo != {}
        invariant todo <= s.applied
        invariant grantTombstones == old(grantTombstones) + (s.applied - todo)
        invariant changed <==> grantTombstones != old(grantTombstones)
        invariant tombstonesPersisted == old(tombstonesPersisted)
      {
        var id :| id in todo;
        changed := changed || id !in grantTombstones;
        grantTombstones := grantTombstones + {id};
        todo := todo - {id};
      }
      assert s.applied - {} == s.applied;
      if s.last.Some? {
        changed := changed || s.last.value !in grantTombstones;
        grantTombstones := grantTombstones + {s.last.value};
      }
      assert grantTombstones == old(grantTombstones) + SessionIds(s);
      if changed {
        tombstonesPersisted := None;
      }
    }

    method CreateSession(mac: Mac, allotment: nat, metric: string, secs: nat, now: nat) returns (created: Session)
      modifies this
      ensures Mem() == Create(old(Mem()), mac, allotment, metric, secs, now)
      ensures mac in sessions && created == sessions[mac]
      ensures created.allotment == allotment && created.used == 0 && created.metric == metric
      ensures created.expiry == now + secs && created.grantedAt == now && created.last == None
      ensures created.applied == if IsActive(old(Mem()), mac, now) then old(sessions)[mac].applied else {}
      ensures mac in old(sessions) && !IsActive(old(Mem()), mac, now) ==>
        SessionIds(old(sessions)[mac]) <= grantTombstones
    {
      if mac in sessions {
        var prior := sessions[mac];
        if prior.expiry <= now || prior.used >= prior.allotment {
          RetireGrants(prior);
        }
      }
      var priorGrants := {};
      if mac in sessions && sessions[mac].expiry > now && sessions[mac].used < sessions[mac].allotment {
        priorGrants := sessions[mac].applied;
      }
      created := Session(allotment, 0, metric, now + secs, now, priorGrants, None, multiset{});
      sessions := sessions[mac := created];
    }

    /** Whether an existing session was extended rather than a new one created. */
    method AddAllotment(mac: Mac, metric: string, amount: nat, secs: nat, grant: Option<GrantId>, now: nat)
      returns (extended: bool)
      modifies this
      ensures Mem() == GrantLedger.AddAllotment(old(Mem()), mac, metric, amount, secs, grant, now)
      ensures extended <==> mac in old(sessions)
      ensures extended ==>
        mac in sessions && LedgerQuota.Extended(old(sessions)[mac], sessions[mac], amount, secs, grant, now)
      ensures !extended ==>
        mac in sessions && sessions[mac].allotment == amount && sessions[mac].used == 0 &&
        sessions[mac].metric == metric && sessions[mac].expiry == now + secs
    {
      if mac in sessions {
        var s := sessions[mac];
        sessions := sessions[mac :=
          s.(allotment := (s.allotment + amount) % U64, grantedAt := now, expiry := now + secs)];
        TagSession(mac, grant);
        extended := true;
      } else {
        var _ := CreateSession(mac, amount, metric, secs, now);
        TagSession(mac, grant);
        extended := false;
      }
    }

    method TagSession(mac: Mac, grant: Option<GrantId>)
      requires mac in sessions
      modifies this`sessions
      ensures Mem() == Tag(old(Mem()), mac, grant)
    {
      if grant.Some? {
        var s := sessions[mac];
        sessions := sessions[mac :=
          s.(applied := s.applied + {grant.value}, last := grant, credits := s.credits + multiset{grant.value})];
      }
    }

    method ApplyGrantOnce(mac: Mac, allotment: nat, metric: string, secs: nat, id: GrantId, now: nat)
      returns (applied: bool)
      modifies this
      ensures Mem() == GrantLedger.ApplyGrantOnce(old(Mem()), mac, allotment, metric, secs, id, now)
      ensures applied <==> !HasGrant(old(Mem()), mac, id)
    {
      if id in grantTombstones || (mac in sessions && id in SessionIds(sessions[mac])) {
        return false;
      }
      var _ := CreateSession(mac, allotment, metric, secs, now);
      TagSession(mac, Some(id));
      applied := true;
    }

    method RollbackSession(mac: Mac, snapshot: Option<Session>)
      modifies this`sessions
      ensures Mem() == Rollback(old(Mem()), mac, snapshot)
      ensures Snapshot(Mem(), mac) == snapshot && SameElsewhere(old(sessions), sessions, mac)
    {
      match snapshot {
        case Some(prev) => sessions := sessions[mac := prev];
        case None => sessions := sessions - {mac};
      }
    }

    method RevokeSession(mac: Mac)
      modifies this
      ensures Mem() == Revoke(old(Mem()), mac)
      ensures mac !in sessions && SameElsewhere(old(sessions), sessions, mac)
      ensures grantTombstones ==
        old(grantTombstones) + if mac in old(sessions) then SessionIds(old(sessions)[mac]) else {}
    {
      if mac in sessions {
        var s := sessions[mac];
        sessions := sessions - {mac};
        RetireGrants(s);
      }
    }

    method UpdateUsage(mac: Mac, used: nat)
      modifies this`sessions
      ensures Mem() == Usage(old(Mem()), mac, used)
      ensures sessions.Keys == old(sessions).Keys && SameElsewhere(old(sessions), sessions, mac)
      ensures mac in sessions ==> sessions[mac] == old(sessions)[mac].(used := used)
    {
      if mac in sessions {
        sessions := sessions[mac := sessions[mac].(used := used)];
      }
    }

    /** Retire the ids of every session past its expiry; the records stay. */
    method RetireExpired(now: nat) returns (macs: set<Mac>)
      modifies this`grantTombstones, this`tombstonesPersisted
      ensures Mem() == RetireIds(old(Mem()), ExpiredIds(sessions, now))
      ensures macs == set mac | mac in sessions && sessions[mac].expiry <= now
    {
      macs := set mac | mac in sessions && sessions[mac].expiry <= now;
      var todo := macs;
      ghost var retired := {};
      while todo != {}
        invariant todo <= macs
        invariant retired == set mac, id | mac in macs && mac !in todo && id in SessionIds(sessions[mac]) :: id
        invariant Mem() == RetireIds(old(Mem()), retired)
      {
        var mac :| mac in todo;
        RetireGrants(sessions[mac]);
        todo := todo - {mac};
        ghost var grown := retired + SessionIds(sessions[mac]);
        assert old(grantTombstones) + retired + SessionIds(sessions[mac]) == old(grantTombstones) + grown;
        retired := grown;
      }
      assert retired == ExpiredIds(sessions, now);
    }

    method CleanupExpired(now: nat) returns (count: nat)
      modifies this
      ensures Mem() == Cleanup(old(Mem()), now)
      ensures forall mac :: mac in sessions <==> mac in old(sessions) && old(sessions)[mac].expiry > now
      ensures forall mac :: mac in sessions ==> sessions[mac] == old(sessions)[mac]
      ensures forall mac :: mac in old(sessions) && mac !in sessions ==>
        SessionIds(old(sessions)[mac]) <= grantTombstones
      ensures count == |old(sessions)| - |sessions|
    {
      var macs := RetireExpired(now);
      count := |macs|;
      sessions := sessions - macs;
      assert sessions == Unexpired(old(sessions), now);
      assert old(sessions).Keys == sessions.Keys + macs && sessions.Keys !! macs;
    }

    /** Drop every trace of the ids, and say whether there was any. */
    method ForgetGrants(ids: seq<GrantId>) returns (changed: bool)
      modifies this
      ensures var gone := Elements(ids);
        Mem() == Forget(old(Mem()), gone) && changed == Forgettable(old(Mem()), gone)
      ensures changed <==> exists id :: id in ids && Held(old(Mem()), id)
      ensures forall id :: Held(Mem(), id) <==> Held(old(Mem()), id) && id !in ids
    {
      changed := false;
      StripNothing(sessions);
      assert Elements(ids[..0]) == {};
      for i := 0 to |ids|
        invariant var gone := Elements(ids[..i]);
          && sessions == StripAll(old(sessions), gone)
          && grantTombstones == old(grantTombstones) - gone
        invariant changed <==> grantTombstones != old(grantTombstones) || sessions != old(sessions)
        invariant tombstonesPersisted == old(tombstonesPersisted) && dirty == old(dirty)
      {
        ghost var gone := Elements(ids[..i]);
        changed := changed || ids[i] in grantTombstones;
        grantTombstones := grantTombstones - {ids[i]};
        var stripped := StripSessions(ids[i]);
        changed := changed || stripped;
        StripTwice(old(sessions), gone, ids[i]);
        assert Elements(ids[..i + 1]) == gone + {ids[i]};
      }
      assert ids[..|ids|] == ids;
      if changed {
        tombstonesPersisted := None;
      }
      ForgetsExactly(old(Mem()), ids);
    }

    method StripSessions(id: GrantId) returns (changed: bool)
      modifies this`sessions
      ensures sessions == StripAll(old(sessions), {id})
      ensures changed <==> sessions != old(sessions)
    {
      changed := false;
      var todo := sessions.Keys;
      while todo != {}
        invariant todo <= sessions.Keys == old(sessions).Keys
        invariant forall mac :: mac in sessions ==>
          sessions[mac] == if mac in todo then old(sessions)[mac] else Strip(old(sessions)[mac], {id})
        invariant changed <==> exists mac :: mac in sessions && sessions[mac] != old(sessions)[mac]
      {
        var mac :| mac in todo;
        var s := sessions[mac];
        changed := changed || id in s.applied;
        s := s.(applied := s.applied - {id});
        if s.last == Some(id) {
          s := s.(last := None);
          changed := true;
        }
        assert s == Strip(old(sessions)[mac], {id});
        assert s != old(sessions)[mac] <==> id in SessionIds(old(sessions)[mac]);
        sessions := sessions[mac := s];
        todo := todo - {mac};
      }
    }

    method SaveTombstones(dir: StateDir, fault: Fault) returns (ok: bool)
      modifies this`tombstonesPersisted, dir`tombstonesFile
      ensures (Ledger(Mem(), dir.Files()), ok) == SaveTombs(Ledger(old(Mem()), old(dir.Files())), fault)
    {
      if grantTombstones == {} {
        if tombstonesPersisted != Some({}) {
          if fault.TombWrite? {
            return false;
          }
          var wasThere := dir.tombstonesFile != {};
          dir.tombstonesFile := {};
          if wasThere && fault.TombSync? {
            return false;
          }
          tombstonesPersisted := Some({});
        }
        return true;
      }
      if tombstonesPersisted == Some(grantTombstones) {
        return true;
      }
      if fault.TombWrite? {
        return false;
      }
      dir.tombstonesFile := grantTombstones;
      if fault.TombSync? {
        return false;
      }
      tombstonesPersisted := Some(grantTombstones);
      ok := true;
    }

    method DoSaveInner(dir: StateDir, now: nat, fault: Fault) returns (ok: bool)
      modifies this, dir
      ensures var (l, saved) := Save(Ledger(old(Mem()), old(dir.Files())), now, fault);
        ok == saved && dir.Files() == l.disk && Mem() == if saved then l.mem else l.mem.(dirty := old(dirty))
    {
      var _ := RetireExpired(now);
      ok := SaveTombstones(dir, fault);
      if !ok {
        return;
      }
      var data := map mac | mac in sessions && sessions[mac].expiry > now :: sessions[mac];
      if fault.SessionWrite? {
        return false;
      }
      dir.sessionsFile := data;
      if fault.SessionSync? {
        return false;
      }
      dirty := false;
    }

    /** A failed durable write leaves the manager dirty, so that the next flush retries it. */
    method SaveNow(dir: StateDir, now: nat, fault: Fault) returns (ok: bool)
      modifies this, dir
      ensures (Ledger(Mem(), dir.Files()), ok) == Save(Ledger(old(Mem()), old(dir.Files())), now, fault)
      ensures dirty == !ok && sessions == old(sessions)
      ensures (fault.NoFault? ==> ok) && (fault.SessionWrite? || fault.SessionSync? ==> !ok)
      ensures fault.TombWrite? && (!ok || old(tombstonesPersisted) == None) ==> !ok && dir.Files() == old(dir.Files())
      ensures fault.TombSync? && ok ==> dir.tombstonesFile == old(dir.tombstonesFile)
      ensures ok ==> forall mac :: mac in dir.sessionsFile <==> mac in sessions && sessions[mac].expiry > now
      ensures ok ==> forall mac :: mac in dir.sessionsFile ==> dir.sessionsFile[mac] == sessions[mac]
      ensures forall mac :: mac in sessions && sessions[mac].expiry <= now ==>
        SessionIds(sessions[mac]) <= grantTombstones
    {
      ok := DoSaveInner(dir, now, fault);
      if !ok {
        dirty := true;
      }
    }

    /** `debounced`: the last write is less than five seconds old.  Then Ok promises nothing but a later flush. */
    method SaveToDisk(dir: StateDir, debounced: bool, now: nat, fault: Fault) returns (ok: bool)
      modifies this, dir
      ensures debounced ==> ok && dirty && dir.Files() == old(dir.Files()) && Mem() == old(Mem()).(dirty := true)
      ensures !debounced ==> (Ledger(Mem(), dir.Files()), ok) == Save(Ledger(old(Mem()), old(dir.Files())), now, fault)
    {
      dirty := true;
      if debounced {
        return true;
      }
      ok := SaveNow(dir, now, fault);
    }

    method FlushIfDirty(dir: StateDir, now: nat, fault: Fault) returns (ok: bool)
      modifies this, dir
      ensures old(dirty) ==> (Ledger(Mem(), dir.Files()), ok) == Save(Ledger(old(Mem()), old(dir.Files())), now, fault)
      ensures !old(dirty) ==> ok && Mem() == old(Mem()) && dir.Files() == old(dir.Files())
    {
      if dirty {
        ok := SaveNow(dir, now, fault);
      } else {
        ok := true;
      }
    }

    // -------------------------------------------------------------- sequences the callers run under the lock

    predicate Active(mac: Mac, now: nat)
      reads this
      ensures Active(mac, now) == IsActive(Mem(), mac, now)
    {
      mac in sessions && sessions[mac].expiry > now && sessions[mac].used < sessions[mac].allotment
    }

    /** What is left of a session, and at least one. */
    function Remaining(mac: Mac): (remaining: nat)
      requires mac in sessions
      reads this
    {
      if sessions[mac].allotment > sessions[mac].used then sessions[mac].allotment - sessions[mac].used else 1
    }

    /** The live path's grant: snapshot, and extend or create without an id.  What the payment is worth is counted. */
    method LiveGrant(mac: Mac, metric: string, amount: nat, secs: nat, payment: GrantId, now: nat)
      returns (snapshot: Option<Session>, extended: bool)
      modifies this
      ensures Mem() == ExtendLive(old(Mem()), mac, metric, amount, secs, payment, now)
      ensures snapshot == Snapshot(old(Mem()), mac) && (extended <==> mac in old(sessions))
      ensures extended ==>
        mac in sessions && LedgerQuota.Extended(old(sessions)[mac], sessions[mac], amount, secs, None, now)
      ensures !extended ==>
        mac in sessions && sessions[mac].allotment == amount && sessions[mac].used == 0 &&
        sessions[mac].metric == metric && sessions[mac].expiry == now + secs && sessions[mac].applied == {}
    {
      snapshot := Snapshot(Mem(), mac);
      extended := AddAllotment(mac, metric, amount, secs, None, now);
      CountPayment(mac, payment);
    }

    /** The replay of a settled payment: a new session without an id. */
    method ReplayGrant(mac: Mac, allotment: nat, metric: string, secs: nat, payment: GrantId, now: nat)
      modifies this
      ensures Mem() == Replay(old(Mem()), mac, allotment, metric, secs, payment, now)
    {
      var _ := CreateSession(mac, allotment, metric, secs, now);
      CountPayment(mac, payment);
    }

    method CountPayment(mac: Mac, payment: GrantId)
      requires mac in sessions
      modifies this`sessions
      ensures Mem() == Count(old(Mem()), mac, payment)
    {
      var s := sessions[mac];
      sessions := sessions[mac := s.(credits := s.credits + multiset{payment})];
    }

    /** The reconciliation path: snapshot, grant, save, roll back. */
    method GrantOrRollBack(dir: StateDir, mac: Mac, allotment: nat, metric: string, secs: nat, id: GrantId, now: nat,
                           fault: Fault)
      returns (isNew: bool, ok: bool)
      modifies this, dir
      ensures (Ledger(Mem(), dir.Files()), isNew, ok) ==
        GrantDurably(Ledger(old(Mem()), old(dir.Files())), mac, allotment, metric, secs, id, now, fault)
    {
      var prior := Snapshot(Mem(), mac);
      isNew := ApplyGrantOnce(mac, allotment, metric, secs, id, now);
      ok := true;
      if isNew {
        ok := SaveNow(dir, now, fault);
        if !ok {
          RollbackSession(mac, prior);
        }
      }
    }

    /** Recreation of an undelivered grant; `replaceDead` is the Lightning path. */
    method RecreateOrRollBack(dir: StateDir, mac: Mac, metric: string, amount: nat, secs: nat, id: GrantId,
                              replaceDead: bool, now: nat, fault: Fault)
      returns (ok: bool)
      modifies this, dir
      ensures (Ledger(Mem(), dir.Files()), ok) ==
        RecreateDurably(Ledger(old(Mem()), old(dir.Files())), mac, metric, amount, secs, id, replaceDead, now, fault)
    {
      var prior := Snapshot(Mem(), mac);
      if replaceDead && mac in sessions && !IsActive(Mem(), mac, now) {
        RevokeSession(mac);
      }
      var _ := AddAllotment(mac, metric, amount, secs, Some(id), now);
      ok := SaveNow(dir, now, fault);
      if !ok {
        RollbackSession(mac, prior);
      }
    }
  }

  /** Forgetting leaves no trace of the ids and takes away no other; and it changes something exactly when one of them
      was held. */
  lemma ForgetsExactly(m: Memory, ids: seq<GrantId>)
    ensures forall id :: Held(Forget(m, Elements(ids)), id) <==> Held(m, id) && id !in ids
    ensures Forgettable(m, Elements(ids)) <==> exists id :: id in ids && Held(m, id)
  {
    var gone := Elements(ids);
    forall id ensures Held(Forget(m, gone), id) <==> Held(m, id) && id !in gone {
      HeldAfter(m, gone, id);
    }
    if id :| id in gone && Held(m, id) {
      HeldIsForgettable(m, gone, id);
    }
    if Forgettable(m, gone) {
      ForgettableIsHeld(m, gone);
    }
  }

  lemma HeldAfter(m: Memory, gone: set<GrantId>, id: GrantId)
    ensures Held(Forget(m, gone), id) <==> Held(m, id) && id !in gone
  {
    var ss := StripAll(m.sessions, gone);
    if mac :| mac in m.sessions && id in SessionIds(m.sessions[mac]) {
      assert mac in ss && (id !in gone ==> id in SessionIds(ss[mac]));
    }
    if mac :| mac in ss && id in SessionIds(ss[mac]) {
      assert mac in m.sessions && id in SessionIds(m.sessions[mac]);
    }
  }

  lemma HeldIsForgettable(m: Memory, gone: set<GrantId>, id: GrantId)
    requires id in gone && Held(m, id)
    ensures Forgettable(m, gone)
  {
    HeldAfter(m, gone, id);
    if id in m.tombs {
      assert id !in m.tombs - gone;
    } else {
      var mac :| mac in m.sessions && id in SessionIds(m.sessions[mac]);
      assert id !in SessionIds(StripAll(m.sessions, gone)[mac]);
    }
  }

  lemma ForgettableIsHeld(m: Memory, gone: set<GrantId>)
    requires Forgettable(m, gone)
    ensures exists id :: id in gone && Held(m, id)
  {
    if m.tombs - gone != m.tombs {
      var id :| id in m.tombs && id in gone;
      assert Held(m, id);
    } else {
      var mac :| mac in m.sessions && Strip(m.sessions[mac], gone) != m.sessions[mac];
      StrippedNames(m.sessions[mac], gone);
      var id :| id in SessionIds(m.sessions[mac]) && id in gone;
      assert Held(m, id);
    }
  }

  lemma StrippedNames(s: Session, gone: set<GrantId>)
    requires Strip(s, gone) != s
    ensures exists id :: id in SessionIds(s) && id in gone
  {
    if s.applied - gone != s.applied {
      var id :| id in s.applied && id in gone;
    }
  }

  function Elements(ids: seq<GrantId>): set<GrantId> {
    set id | id in ids
  }

  lemma StripNothing(ss: map<Mac, Session>)
    ensures StripAll(ss, {}) == ss
  {
    forall mac | mac in ss ensures Strip(ss[mac], {}) == ss[mac] {
      assert ss[mac].applied - {} == ss[mac].applied;
    }
  }

  lemma StripTwice(ss: map<Mac, Session>, ids: set<GrantId>, id: GrantId)
    ensures StripAll(StripAll(ss, ids), {id}) == StripAll(ss, ids + {id})
    ensures StripAll(ss, ids) != ss ==> StripAll(ss, ids + {id}) != ss
  {
    forall mac | mac in ss
      ensures Strip(Strip(ss[mac], ids), {id}) == Strip(ss[mac], ids + {id})
    {
      assert ss[mac].applied - ids - {id} == ss[mac].applied - (ids + {id});
    }
    if StripAll(ss, ids) != ss {
      var mac :| mac in ss && Strip(ss[mac], ids) != ss[mac];
      if ss[mac].applied - ids == ss[mac].applied {
      } else {
        var x :| x in ss[mac].applied && x in ids;
        assert x !in Strip(ss[mac], ids + {id}).applied;
      }
      assert Strip(ss[mac], ids + {id}) != ss[mac];
    }
  }
}
