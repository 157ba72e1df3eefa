/** Value-level model of the grant ledger: the sessions, the tombstones that outlive them, and the two
    files (`sessions.json`, `grant-tombstones.json`) that cannot be replaced together.
    Every operation takes ONE clock reading `now`. */
module GrantLedger {
  import opened Options

  const U64: nat := 0x1_0000_0000_0000_0000

  type Mac = string

  /** Lightning ids are `ln:<quote>`; Cashu ids are token hashes.  The two never collide. */
  datatype GrantId = Lightning(quote: string) | Cashu(token: string)

  /** `credits` has no counterpart in the source: it records which grants the allotment is made of. */
  datatype Session = Session(
    allotment: nat,
    used: nat,
    metric: string,
    expiry: nat,
    grantedAt: nat,
    applied: set<GrantId>,
    last: Option<GrantId>,
    credits: multiset<GrantId>)

  /** `persisted` is the tombstone write cache: None, or the set this process last wrote. */
  datatype Memory = Memory(
    sessions: map<Mac, Session>,
    tombs: set<GrantId>,
    persisted: Option<set<GrantId>>,
    dirty: bool)

  datatype Disk = Disk(sessions: map<Mac, Session>, tombs: set<GrantId>)

  datatype Ledger = Ledger(mem: Memory, disk: Disk)

  // ---------------------------------------------------------------- observations

  function SessionIds(s: Session): set<GrantId> {
    s.applied + (if s.last.Some? then {s.last.value} else {})
  }

  predicate Live(s: Session, now: nat) {
    s.expiry > now && s.used < s.allotment
  }

  predicate IsActive(m: Memory, mac: Mac, now: nat) {
    mac in m.sessions && Live(m.sessions[mac], now)
  }

  predicate Carried(ss: map<Mac, Session>, id: GrantId) {
    exists mac :: mac in ss && id in SessionIds(ss[mac])
  }

  /** Some record or tombstone in memory names the id. */
  predicate Held(m: Memory, id: GrantId) {
    id in m.tombs || Carried(m.sessions, id)
  }

  /** One of the two files names the id. */
  predicate OnDisk(d: Disk, id: GrantId) {
    id in d.tombs || Carried(d.sessions, id)
  }

  predicate HasGrant(m: Memory, mac: Mac, id: GrantId) {
    id in m.tombs || (mac in m.sessions && id in SessionIds(m.sessions[mac]))
  }

  predicate HasLiveGrant(m: Memory, mac: Mac, id: GrantId, now: nat) {
    mac in m.sessions && id in m.sessions[mac].applied && Live(m.sessions[mac], now)
  }

  // ---------------------------------------------------------------- operations

  /** Adding ids to the tombstones drops the write cache only when the set changes. */
  function RetireIds(m: Memory, ids: set<GrantId>): Memory {
    var tombs := m.tombs + ids;
    m.(tombs := tombs, persisted := if tombs == m.tombs then m.persisted else None)
  }

  function Create(m: Memory, mac: Mac, allotment: nat, metric: string, secs: nat, now: nat): Memory {
    var live := IsActive(m, mac, now);
    var m1 := if mac in m.sessions && !live then RetireIds(m, SessionIds(m.sessions[mac])) else m;
    var kept := if live then m.sessions[mac].applied else {};
    m1.(sessions := m1.sessions[mac := Session(allotment, 0, metric, now + secs, now, kept, None, multiset{})])
  }

  /** Mark the session of `mac` as carrying `id`, whose value its allotment now contains. */
  function Tag(m: Memory, mac: Mac, id: Option<GrantId>): Memory
    requires mac in m.sessions
  {
    match id
    case None => m
    case Some(g) =>
      var s := m.sessions[mac];
      m.(sessions := m.sessions[mac := s.(applied := s.applied + {g}, last := id, credits := s.credits + multiset{g})])
  }

  /** Extending adds modulo 2^64, as a release build does. */
  function AddAllotment(m: Memory, mac: Mac, metric: string, amount: nat, secs: nat, id: Option<GrantId>,
                        now: nat): Memory {
    if mac in m.sessions then
      var s := m.sessions[mac];
      var grown := s.(allotment := (s.allotment + amount) % U64, grantedAt := now, expiry := now + secs);
      Tag(m.(sessions := m.sessions[mac := grown]), mac, id)
    else
      Tag(Create(m, mac, amount, metric, secs, now), mac, id)
  }

  /** The allotment of `mac` now contains the value of `payment`; the code keeps no trace of that. */
  function Count(m: Memory, mac: Mac, payment: GrantId): Memory
    requires mac in m.sessions
  {
    var s := m.sessions[mac];
    m.(sessions := m.sessions[mac := s.(credits := s.credits + multiset{payment})])
  }

  /** What the live path does with a payment it has received: it adds the allotment, and no id. */
  function ExtendLive(m: Memory, mac: Mac, metric: string, amount: nat, secs: nat, payment: GrantId, now: nat): Memory {
    Count(AddAllotment(m, mac, metric, amount, secs, None, now), mac, payment)
  }

  /** What the live path does with a settled payment that is posted again: a new session, and no id. */
  function Replay(m: Memory, mac: Mac, allotment: nat, metric: string, secs: nat, payment: GrantId, now: nat): Memory {
    Count(Create(m, mac, allotment, metric, secs, now), mac, payment)
  }

  function ApplyGrantOnce(m: Memory, mac: Mac, allotment: nat, metric: string, secs: nat, id: GrantId,
                          now: nat): Memory {
    if HasGrant(m, mac, id) then m
    else Tag(Create(m, mac, allotment, metric, secs, now), mac, Some(id))
  }

  function Strip(s: Session, ids: set<GrantId>): Session {
    s.(applied := s.applied - ids, last := if s.last.Some? && s.last.value in ids then None else s.last)
  }

  function StripAll(ss: map<Mac, Session>, ids: set<GrantId>): map<Mac, Session> {
    map mac | mac in ss :: Strip(ss[mac], ids)
  }

  /** Whether forgetting `ids` changes any durable state. */
  predicate Forgettable(m: Memory, ids: set<GrantId>) {
    m.tombs - ids != m.tombs || StripAll(m.sessions, ids) != m.sessions
  }

  function Forget(m: Memory, ids: set<GrantId>): Memory {
    m.(sessions := StripAll(m.sessions, ids),
       tombs := m.tombs - ids,
       persisted := if Forgettable(m, ids) then None else m.persisted)
  }

  function Snapshot(m: Memory, mac: Mac): Option<Session> {
    if mac in m.sessions then Some(m.sessions[mac]) else None
  }

  function Rollback(m: Memory, mac: Mac, snapshot: Option<Session>): Memory {
    m.(sessions := if snapshot.Some? then m.sessions[mac := snapshot.value] else m.sessions - {mac})
  }

  function Revoke(m: Memory, mac: Mac): Memory {
    if mac in m.sessions then
      var m1 := RetireIds(m, SessionIds(m.sessions[mac]));
      m1.(sessions := m1.sessions - {mac})
    else m
  }

  function Unexpired(ss: map<Mac, Session>, now: nat): map<Mac, Session> {
    map mac | mac in ss && ss[mac].expiry > now :: ss[mac]
  }

  /** The ids of all sessions whose expiry has passed. */
  function ExpiredIds(ss: map<Mac, Session>, now: nat): set<GrantId> {
    set mac, id | mac in ss && ss[mac].expiry <= now && id in SessionIds(ss[mac]) :: id
  }

  function Cleanup(m: Memory, now: nat): Memory {
    RetireIds(m, ExpiredIds(m.sessions, now)).(sessions := Unexpired(m.sessions, now))
  }

  function Usage(m: Memory, mac: Mac, used: nat): Memory {
    if mac in m.sessions then m.(sessions := m.sessions[mac := m.sessions[mac].(used := used)]) else m
  }

  // ---------------------------------------------------------------- saving and loading

  /** Where a durable write fails: before a file is replaced, or after it while syncing the directory. */
  datatype Fault = NoFault | TombWrite | TombSync | SessionWrite | SessionSync

  /** The tombstone file is written unless the cache shows it is current. */
  predicate TombsCurrent(m: Memory) {
    m.persisted == Some(m.tombs)
  }

  /** Removing a file that is not there succeeds without touching the directory. */
  predicate NothingToRemove(m: Memory, d: Disk) {
    m.tombs == {} && d.tombs == {}
  }

  function SaveTombs(l: Ledger, fault: Fault): (Ledger, bool) {
    if TombsCurrent(l.mem) then (l, true)
    else if fault.TombWrite? then (l, false)
    else
      var written := l.(disk := l.disk.(tombs := l.mem.tombs));
      if fault.TombSync? && !NothingToRemove(l.mem, l.disk) then (written, false)
      else (written.(mem := l.mem.(persisted := Some(l.mem.tombs))), true)
  }

  /** One durable save: expired ids retire, then the tombstone file, then the sessions file. */
  function Save(l: Ledger, now: nat, fault: Fault): (Ledger, bool) {
    var (l1, ok) := SaveTombs(l.(mem := RetireIds(l.mem, ExpiredIds(l.mem.sessions, now))), fault);
    if !ok || fault.SessionWrite? then (l1.(mem := l1.mem.(dirty := true)), false)
    else
      var l2 := l1.(disk := l1.disk.(sessions := Unexpired(l1.mem.sessions, now)));
      (l2.(mem := l2.mem.(dirty := fault.SessionSync?)), !fault.SessionSync?)
  }

  /** A record written before the id set existed is seeded from its single slot. */
  function Seed(s: Session): Session {
    if s.last.Some? then s.(applied := s.applied + {s.last.value}) else s
  }

  function Load(d: Disk): Memory {
    Memory(map mac | mac in d.sessions :: Seed(d.sessions[mac]), d.tombs, None, false)
  }

  /** Process death: memory is rebuilt from the files. */
  function Reload(l: Ledger): Ledger {
    l.(mem := Load(l.disk))
  }

  // ---------------------------------------------------------------- grants that roll back when the save fails

  /** Save what was granted to `mac`; when the save fails, put back the session it had before. */
  function SaveOrRollBack(before: Ledger, granted: Memory, mac: Mac, now: nat, fault: Fault): (Ledger, bool) {
    var (saved, ok) := Save(before.(mem := granted), now, fault);
    (if ok then saved else saved.(mem := Rollback(saved.mem, mac, Snapshot(before.mem, mac))), ok)
  }

  /** Grant once.  The first flag says whether the grant was new, the second whether it may be relied on. */
  function GrantDurably(l: Ledger, mac: Mac, allotment: nat, metric: string, secs: nat, id: GrantId, now: nat,
                        fault: Fault):
    (Ledger, bool, bool)
  {
    if HasGrant(l.mem, mac, id) then (l, false, true)
    else
      var (l', ok) := SaveOrRollBack(l, ApplyGrantOnce(l.mem, mac, allotment, metric, secs, id, now), mac, now, fault);
      (l', true, ok)
  }

  /** The Lightning path revokes a dead leftover record before it recreates a grant (`replaceDead`);
      the Cashu path extends whatever record is there. */
  function Recreated(m: Memory, mac: Mac, metric: string, amount: nat, secs: nat, id: GrantId, replaceDead: bool,
                     now: nat): Memory {
    var m1 := if replaceDead && mac in m.sessions && !IsActive(m, mac, now) then Revoke(m, mac) else m;
    AddAllotment(m1, mac, metric, amount, secs, Some(id), now)
  }

  function RecreateDurably(l: Ledger, mac: Mac, metric: string, amount: nat, secs: nat, id: GrantId,
                           replaceDead: bool, now: nat, fault: Fault):
    (Ledger, bool)
  {
    SaveOrRollBack(l, Recreated(l.mem, mac, metric, amount, secs, id, replaceDead, now), mac, now, fault)
  }

  /** Sessions other than that of `mac` are the same. */
  ghost predicate SameElsewhere(ss: map<Mac, Session>, ss': map<Mac, Session>, mac: Mac) {
    ss - {mac} == ss' - {mac}
  }
}
