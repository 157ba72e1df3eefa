/** Cashu payments as a state machine.  Handlers journal, receive and grant what is posted; the reconciliation pass
    decides an undecided entry, grants once, opens the gate, notes the delivery, appends the terminal row and forgets
    the id.  Restarts and every other user of the ledger and the journal may come between any two moves. */
module CashuRuns {
  import opened Options
  import opened Journals
  import opened GrantLedger
  import L = LedgerRuns

  const CLI_FUND_MAC: Mac := "cli-fund"
  const GRANT_SECS: nat := 3600

  datatype Phase =
    | Intent
    | Received(amountSat: nat)
    | Rejected
    | TimeoutUnknown
    | ReconcileSpent(amountSat: nat)
    | ReconcileUnspent
    | ReconcileZeroSteps(amountSat: nat)

  predicate NeedsReconciliation(p: Phase) {
    p.Intent? || p.TimeoutUnknown?
  }

  /** A journal row's content: the pricing facts frozen at intent time, the phase and the delivery mark. */
  datatype Payment = Payment(mac: Mac, pricePerStep: nat, stepSize: nat, metric: string, phase: Phase, gateOpened: bool)

  type Journal = seq<Row<string, Payment>>

  function Max1(n: nat): nat {
    if n == 0 then 1 else n
  }

  function Steps(e: Payment, amountSat: nat): nat {
    amountSat / Max1(e.pricePerStep)
  }

  function Allotment(e: Payment, amountSat: nat): nat {
    Steps(e, amountSat) * Max1(e.stepSize) % U64
  }

  predicate Undecided(j: Journal, id: string) {
    id in FoldLast(j) && NeedsReconciliation(FoldLast(j)[id].phase)
  }

  /** The last row says what became of the payment. */
  predicate IsClosed(j: Journal, id: string) {
    id in FoldLast(j) && !NeedsReconciliation(FoldLast(j)[id].phase)
  }

  /** Where a pass over one entry stands.  `entry` is the row the pass was handed, possibly stale by now. */
  datatype Stage =
    | Idle
    | Applied(id: string, entry: Payment, amountSat: nat, isNew: bool, now: nat)
    | Recreated(id: string, entry: Payment, amountSat: nat)
    | Delivered(id: string, entry: Payment, amountSat: nat)
    | Closed(id: string)

  /** The last `unsynced` rows of the journal may vanish in a crash.  `retry` is the process-lifetime set of entries
      that only lack their terminal row.  `live` are the payments that handlers are at work on, each for the MAC that
      posted it; `paid` those whose receive has answered Ok and whose allotment is still to be added; `taken` the
      snapshots that the handlers hold while they open the gate.  `spent` are the tokens that the mint calls spent;
      `served` records for which entries `grant_access` ever succeeded. */
  datatype World = World(
    ledger: Ledger,
    journal: Journal,
    unsynced: nat,
    retry: set<string>,
    at: Stage,
    live: set<(string, Mac)>,
    paid: set<(string, Mac)>,
    taken: set<(Mac, L.Taken)>,
    spent: set<string>,
    served: set<string>)

  /** The moves of the payment handlers come first, then those of the reconciliation pass. */
  datatype Move =
    | Post(id: string, body: Payment, result: Append)
    | Receive(id: string, mac: Mac)
    | LiveGrant(id: string, mac: Mac, metric: string, amount: nat, now: nat)
    | RollBackLate(mac: Mac, snapshot: L.Taken)
    | LiveAppend(id: string, body: Payment, result: Append)
    | Finish(id: string, mac: Mac)
    | ReplaySettled(id: string, mac: Mac, metric: string, allotment: nat, now: nat)
    | LearnSpent(id: string)
    | CloseUnspent(id: string, entry: Payment, result: Append)
    | CloseZeroSteps(id: string, entry: Payment, amountSat: nat, result: Append)
    | CloseCliFund(id: string, entry: Payment, amountSat: nat, result: Append)
    | Begin(id: string, entry: Payment, amountSat: nat, now: nat, fault: Fault)
    | AppendOnly(id: string, entry: Payment, amountSat: nat)
    | OpenGate
    | MarkDelivered(result: Append)
    | AlreadyDelivered
    | Recreate(fault: Fault)
    | OpenRecreated
    | Terminal(result: Append)
    | ForgetClosed
    | SweepTerminal(ids: set<string>)
    | Other(step: L.Timed)
    | Restart(lost: nat)

  function CashuIds(ids: set<string>): set<GrantId> {
    set id | id in ids :: Cashu(id)
  }

  /** The entry is a row some pass may hold in its hands, after the mint called its token spent. */
  predicate Handed(w: World, id: string, entry: Payment) {
    Row(id, entry) in w.journal && NeedsReconciliation(entry.phase)
  }

  predicate HandedSpent(w: World, id: string, entry: Payment) {
    Handed(w, id, entry) && id in w.spent
  }

  /** What the live path may journal of a payment. */
  predicate LivePhase(p: Phase) {
    p.Intent? || p.Received? || p.Rejected? || p.TimeoutUnknown? || p.ReconcileZeroSteps?
  }

  predicate SettledPhase(p: Phase) {
    p.Received? || p.ReconcileSpent?
  }

  /** A posted token is replayed when its payment is settled. */
  predicate Settled(j: Journal, id: string) {
    id in FoldLast(j) && SettledPhase(FoldLast(j)[id].phase)
  }

  /** The entry is a customer's, and its amount buys something. */
  predicate Owes(entry: Payment, amountSat: nat) {
    Steps(entry, amountSat) > 0 && entry.mac != CLI_FUND_MAC
  }

  /** The session that the pass works for is live and carries the grant. */
  predicate CarriedLive(w: World)
    requires w.at.Applied?
  {
    HasLiveGrant(w.ledger.mem, w.at.entry.mac, Cashu(w.at.id), w.at.now)
  }

  ghost predicate Enabled(w: World, m: Move) {
    match m
    // a handler verifies the token, and goes on only when its intent is journalled
    case Post(id, body, _) => !body.gateOpened && body.phase.Intent? && id !in w.spent
    case Receive(id, mac) => (id, mac) in w.live && id !in w.spent
    case LiveGrant(id, mac, _, _, _) =>
      (id, mac) in w.paid && (mac in w.ledger.mem.sessions ==> L.Tidy(w.ledger.mem.sessions[mac]))
    case RollBackLate(mac, snapshot) => (mac, snapshot) in w.taken
    case LiveAppend(id, body, _) =>
      !body.gateOpened && LivePhase(body.phase) && (body.phase.Received? ==> id in w.spent)
    case Finish(id, mac) => (id, mac) in w.live
    case ReplaySettled(id, mac, _, _, now) => Settled(w.journal, id) && !IsActive(w.ledger.mem, mac, now)
    case LearnSpent(_) => true
    case CloseUnspent(id, entry, _) => Handed(w, id, entry)
    case CloseZeroSteps(id, entry, amount, _) => HandedSpent(w, id, entry) && Steps(entry, amount) == 0
    case CloseCliFund(id, entry, amount, _) =>
      HandedSpent(w, id, entry) && Steps(entry, amount) > 0 && entry.mac == CLI_FUND_MAC
    case Begin(id, entry, amount, _, _) => HandedSpent(w, id, entry) && Owes(entry, amount) && id !in w.retry
    case AppendOnly(id, entry, amount) => HandedSpent(w, id, entry) && Owes(entry, amount) && id in w.retry
    case OpenGate => w.at.Applied? && (w.at.isNew || CarriedLive(w))
    case MarkDelivered(_) => w.at.Delivered? && !w.at.entry.gateOpened
    case AlreadyDelivered => w.at.Applied? && !w.at.isNew && w.at.entry.gateOpened && !CarriedLive(w)
    case Recreate(_) => w.at.Applied? && !w.at.isNew && !w.at.entry.gateOpened && !CarriedLive(w)
    case OpenRecreated => w.at.Recreated?
    case Terminal(_) => w.at.Delivered?
    case ForgetClosed => w.at.Closed?
    case SweepTerminal(ids) => forall id :: id in ids ==> IsClosed(w.journal, id)
    case Other(t) =>
      !t.action.Crash? && !t.action.RollBackLate? && forall id :: id in L.Touched(t.action) ==> id.Lightning?
    case Restart(_) => true
  }

  /** A row that a move appends. */
  datatype Appended = Appended(id: string, body: Payment, result: Append)

  function RowOf(w: World, m: Move): Option<Appended> {
    match m
    case Post(id, body, result) => Some(Appended(id, body, result))
    case LiveAppend(id, body, result) => Some(Appended(id, body, result))
    case CloseUnspent(id, entry, result) => Some(Appended(id, entry.(phase := ReconcileUnspent), result))
    case CloseZeroSteps(id, entry, amount, result) =>
      Some(Appended(id, entry.(phase := ReconcileZeroSteps(amount)), result))
    case CloseCliFund(id, entry, amount, result) => Some(Appended(id, entry.(phase := ReconcileSpent(amount)), result))
    case MarkDelivered(result) =>
      if w.at.Delivered? then Some(Appended(w.at.id, w.at.entry.(gateOpened := true), result)) else None
    case Terminal(result) =>
      if w.at.Delivered?
      then Some(Appended(w.at.id, w.at.entry.(phase := ReconcileSpent(w.at.amountSat)), result)) else None
    case _ => None
  }

  function Log(w: World, id: string, body: Payment, result: Append): World {
    if result.AppendLost? then w
    else w.(journal := w.journal + [Row(id, body)], unsynced := if result.AppendOk? then 0 else w.unsynced + 1)
  }

  /** A reconciled grant; nothing is granted twice in the same record, and a failed save is rolled back. */
  function Granted(w: World, id: string, entry: Payment, amount: nat, now: nat, fault: Fault): (Ledger, bool, bool) {
    GrantDurably(w.ledger, entry.mac, Allotment(entry, amount), entry.metric, GRANT_SECS, Cashu(id), now, fault)
  }

  /** The grant of the pass added to whatever record its MAC has. */
  function Extended(w: World, fault: Fault): (Ledger, bool)
    requires w.at.Applied?
  {
    var entry := w.at.entry;
    RecreateDurably(w.ledger, entry.mac, entry.metric, Allotment(entry, w.at.amountSat), GRANT_SECS,
                    Cashu(w.at.id), false, w.at.now, fault)
  }

  function Opened(w: World): World
    requires w.at.Applied? || w.at.Recreated?
  {
    w.(served := w.served + {w.at.id}, at := Delivered(w.at.id, w.at.entry, w.at.amountSat))
  }

  function Forgotten(w: World, ids: set<string>): World {
    w.(ledger := w.ledger.(mem := Forget(w.ledger.mem, CashuIds(ids))), at := Idle)
  }

  /** The ledger step of a handler's grant, of a replay, and of a pass. */
  function LiveStep(id: string, mac: Mac, metric: string, amount: nat, now: nat): L.Timed {
    L.Timed(L.LiveGrant(mac, metric, amount, GRANT_SECS, Cashu(id)), now)
  }

  function ReplayStep(id: string, mac: Mac, metric: string, allotment: nat, now: nat): L.Timed {
    L.Timed(L.ReplayPayment(mac, allotment, metric, GRANT_SECS, Cashu(id)), now)
  }

  function BeginStep(id: string, entry: Payment, amount: nat, now: nat, fault: Fault): L.Timed {
    L.Timed(L.GrantOrRollBack(entry.mac, Allotment(entry, amount), entry.metric, GRANT_SECS, Cashu(id), fault), now)
  }

  function RecreateStep(w: World, fault: Fault): L.Timed
    requires w.at.Applied?
  {
    var entry := w.at.entry;
    L.Timed(L.RecreateOrRollBack(entry.mac, entry.metric, Allotment(entry, w.at.amountSat), GRANT_SECS, Cashu(w.at.id),
                                 false, fault), w.at.now)
  }

  /** The ledger step of a move. */
  function StepOf(w: World, m: Move): Option<L.Timed> {
    match m
    case LiveGrant(id, mac, metric, amount, now) => Some(LiveStep(id, mac, metric, amount, now))
    case RollBackLate(mac, snapshot) => Some(L.Timed(L.RollBackLate(mac, snapshot), 0))
    case ReplaySettled(id, mac, metric, allotment, now) => Some(ReplayStep(id, mac, metric, allotment, now))
    case Begin(id, entry, amount, now, fault) => Some(BeginStep(id, entry, amount, now, fault))
    case Recreate(fault) => if w.at.Applied? then Some(RecreateStep(w, fault)) else None
    case ForgetClosed => if w.at.Closed? then Some(L.Timed(L.ForgetIds(CashuIds({w.at.id})), 0)) else None
    case SweepTerminal(ids) => Some(L.Timed(L.ForgetIds(CashuIds(ids)), 0))
    case Other(t) => Some(t)
    case Restart(_) => Some(L.Timed(L.Crash, 0))
    case _ => None
  }

  /** Some handler is at work for the MAC. */
  predicate AtWork(live: set<(string, Mac)>, mac: Mac) {
    exists h :: h in live && h.1 == mac
  }

  /** A handler ends; the snapshots go with the last handler of a MAC. */
  function Finished(w: World, id: string, mac: Mac): World {
    var live := w.live - {(id, mac)};
    w.(live := live, paid := w.paid - {(id, mac)}, taken := set p | p in w.taken && AtWork(live, p.0))
  }

  ghost function Next(w: World, m: Move): World
    requires Enabled(w, m)
  {
    match m
    case Post(id, body, result) =>
      var v := Log(w, id, body, result);
      if result.AppendOk? then v.(live := w.live + {(id, body.mac)}) else v
    case Receive(id, mac) => w.(spent := w.spent + {id}, paid := w.paid + {(id, mac)})
    case LiveGrant(id, mac, metric, amount, now) =>
      w.(ledger := L.Step(w.ledger, LiveStep(id, mac, metric, amount, now)).0, paid := w.paid - {(id, mac)},
         taken := w.taken + {(mac, Snapshot(w.ledger.mem, mac))})
    case RollBackLate(mac, snapshot) => w.(ledger := L.Step(w.ledger, L.Timed(L.RollBackLate(mac, snapshot), 0)).0)
    case LiveAppend(id, body, result) => Log(w, id, body, result)
    case Finish(id, mac) => Finished(w, id, mac)
    case ReplaySettled(id, mac, metric, allotment, now) =>
      w.(ledger := L.Step(w.ledger, ReplayStep(id, mac, metric, allotment, now)).0)
    case LearnSpent(id) => w.(spent := w.spent + {id})
    case CloseUnspent(id, entry, result) => Log(w, id, entry.(phase := ReconcileUnspent), result)
    case CloseZeroSteps(id, entry, amount, result) => Log(w, id, entry.(phase := ReconcileZeroSteps(amount)), result)
    case CloseCliFund(id, entry, amount, result) => Log(w, id, entry.(phase := ReconcileSpent(amount)), result)
    case Begin(id, entry, amount, now, fault) =>
      var (l, isNew, ok) := Granted(w, id, entry, amount, now, fault);
      w.(ledger := l, at := if ok then Applied(id, entry, amount, isNew, now) else Idle)
    case AppendOnly(id, entry, amount) => w.(at := Delivered(id, entry, amount))
    case OpenGate => Opened(w)
    case MarkDelivered(result) => Log(w, w.at.id, w.at.entry.(gateOpened := true), result)
    case AlreadyDelivered => w.(at := Delivered(w.at.id, w.at.entry, w.at.amountSat))
    case Recreate(fault) =>
      var (l, ok) := Extended(w, fault);
      w.(ledger := l, at := if ok then Recreated(w.at.id, w.at.entry, w.at.amountSat) else Idle)
    case OpenRecreated => Opened(w)
    case Terminal(result) =>
      var id := w.at.id;
      var v := Log(w, id, w.at.entry.(phase := ReconcileSpent(w.at.amountSat)), result);
      if result.AppendOk? then v.(retry := w.retry - {id}, at := Closed(id))
      else v.(retry := w.retry + {id}, at := Idle)
    case ForgetClosed => Forgotten(w, {w.at.id})
    case SweepTerminal(ids) => Forgotten(w, ids)
    case Other(t) => w.(ledger := L.Step(w.ledger, t).0)
    case Restart(lost) =>
      w.(ledger := Reload(w.ledger), journal := Without(w.journal, Vanishing(w, lost)), unsynced := 0,
         retry := {}, live := {}, paid := {}, taken := {}, at := Idle)
  }

  /** A crash loses some of the unsynced rows. */
  function Vanishing(w: World, lost: nat): nat {
    if lost < w.unsynced then lost else w.unsynced
  }

  ghost predicate Does(w: World, m: Move, w': World) {
    Enabled(w, m) && w' == Next(w, m)
  }

  ghost predicate Valid(w: World, ms: seq<Move>) {
    ms == [] || (Valid(w, ms[..|ms| - 1]) && Enabled(Exec(w, ms[..|ms| - 1]), ms[|ms| - 1]))
  }

  ghost function Exec(w: World, ms: seq<Move>): World {
    if ms == [] then w
    else
      var v := Exec(w, ms[..|ms| - 1]);
      if Enabled(v, ms[|ms| - 1]) then Next(v, ms[|ms| - 1]) else v
  }

  /** `ms` is a run from `w` to `w'`. */
  ghost predicate Runs(w: World, ms: seq<Move>, w': World) {
    Valid(w, ms) && Exec(w, ms) == w'
  }

  lemma NoMoves(w: World)
    ensures Runs(w, [], w)
  {}

  lemma OneMore(w: World, ms: seq<Move>, v: World, m: Move, w': World)
    requires Runs(w, ms, v) && Does(v, m, w')
    ensures Runs(w, ms + [m], w')
  {}

  lemma {:induction false} Chain(w: World, ms: seq<Move>, v: World, ms': seq<Move>, w': World)
    requires Runs(w, ms, v) && Runs(v, ms', w')
    ensures Runs(w, ms + ms', w')
  {
    if ms' == [] {
      assert ms + ms' == ms;
    } else {
      var prev, m := ms'[..|ms'| - 1], ms'[|ms'| - 1];
      Chain(w, ms, v, prev, Exec(v, prev));
      OneMore(w, ms + prev, Exec(v, prev), m, w');
      assert ms + ms' == ms + prev + [m];
    }
  }

  lemma Two(w: World, m1: Move, w1: World, m2: Move, w2: World)
    requires Does(w, m1, w1) && Does(w1, m2, w2)
    ensures Runs(w, [] + [m1] + [m2], w2)
  {
    OneMore(w, [], w, m1, w1);
    OneMore(w, [] + [m1], w1, m2, w2);
  }

  lemma Three(w: World, m1: Move, w1: World, m2: Move, w2: World, m3: Move, w3: World)
    requires Does(w, m1, w1) && Does(w1, m2, w2) && Does(w2, m3, w3)
    ensures Runs(w, [] + [m1] + [m2] + [m3], w3)
  {
    Two(w, m1, w1, m2, w2);
    OneMore(w, [] + [m1] + [m2], w2, m3, w3);
  }

  // ---------------------------------------------------------------- never closed as spent without access

  predicate Proven(served: set<string>, row: Row<string, Payment>) {
    && (row.body.gateOpened ==> row.id in served)
    && (row.body.phase.ReconcileSpent? && row.body.mac != CLI_FUND_MAC ==> row.id in served)
  }

  ghost predicate Inv(w: World) {
    && (forall i :: 0 <= i < |w.journal| ==> Proven(w.served, w.journal[i]))
    && w.retry <= w.served
    && (match w.at
        case Applied(id, entry, _, _, _) => entry.gateOpened ==> id in w.served
        case Recreated(id, entry, _) => entry.gateOpened ==> id in w.served
        case Delivered(id, _, _) => id in w.served
        case _ => true)
  }

  /** A row that a pass was handed is proven, and so is what the pass makes of it. */
  lemma HandedIsProven(w: World, id: string, entry: Payment)
    requires Inv(w) && Handed(w, id, entry)
    ensures Proven(w.served, Row(id, entry))
  {
    var i :| 0 <= i < |w.journal| && w.journal[i] == Row(id, entry);
    assert Proven(w.served, w.journal[i]);
  }

  lemma LogProven(w: World, id: string, body: Payment, result: Append)
    requires Inv(w) && Proven(w.served, Row(id, body))
    ensures Inv(Log(w, id, body, result))
  {}

  lemma HandedMovesKeep(w: World, m: Move)
    requires Inv(w) && Enabled(w, m)
    requires m.CloseUnspent? || m.CloseZeroSteps? || m.CloseCliFund? || m.Begin? || m.AppendOnly?
    ensures Inv(Next(w, m))
  {
    HandedIsProven(w, m.id, m.entry);
  }

  lemma NextKeeps(w: World, m: Move)
    requires Inv(w) && Enabled(w, m)
    ensures Inv(Next(w, m))
  {
    if m.CloseUnspent? || m.CloseZeroSteps? || m.CloseCliFund? || m.Begin? || m.AppendOnly? {
      HandedMovesKeep(w, m);
    } else if m.LiveAppend? || m.Post? {
      LogProven(w, m.id, m.body, m.result);
    } else if m.MarkDelivered? {
      LogProven(w, w.at.id, w.at.entry.(gateOpened := true), m.result);
    } else if m.Terminal? {
      LogProven(w, w.at.id, w.at.entry.(phase := ReconcileSpent(w.at.amountSat)), m.result);
    }
  }

  lemma {:induction false} EveryRunKeeps(w: World, ms: seq<Move>)
    requires Inv(w) && Valid(w, ms)
    ensures Inv(Exec(w, ms))
  {
    if ms != [] {
      EveryRunKeeps(w, ms[..|ms| - 1]);
      NextKeeps(Exec(w, ms[..|ms| - 1]), ms[|ms| - 1]);
    }
  }

  /** Over every run, a customer's entry is journalled ReconcileSpent, or marked delivered, only after the gate
      was opened for it. */
  lemma SpentOnlyAfterAccess(w: World, ms: seq<Move>, v: World, row: Row<string, Payment>)
    requires w.journal == [] && w.retry == {} && w.at == Idle && Runs(w, ms, v) && row in v.journal
    ensures (row.body.phase.ReconcileSpent? && row.body.mac != CLI_FUND_MAC) || row.body.gateOpened ==>
      row.id in v.served
  {
    EveryRunKeeps(w, ms);
    var i :| 0 <= i < |v.journal| && v.journal[i] == row;
    assert Proven(v.served, v.journal[i]);
  }

  lemma PassLedgerOnly(w: World, m: Move)
    requires Enabled(w, m) && (m.Begin? || m.Recreate? || m.ForgetClosed? || m.SweepTerminal?)
    ensures StepOf(w, m).Some? && Next(w, m).ledger == L.Step(w.ledger, StepOf(w, m).value).0
  {}

  lemma LiveLedgerOnly(w: World, m: Move)
    requires Enabled(w, m)
    requires m.LiveGrant? || m.RollBackLate? || m.ReplaySettled? || m.Other? || m.Restart?
    ensures StepOf(w, m).Some? && Next(w, m).ledger == L.Step(w.ledger, StepOf(w, m).value).0
  {}

  /** Only these moves touch the ledger, each by one step. */
  lemma LedgerOnly(w: World, m: Move)
    requires Enabled(w, m)
    ensures Next(w, m).ledger == if StepOf(w, m).Some? then L.Step(w.ledger, StepOf(w, m).value).0 else w.ledger
  {
    if m.Begin? || m.Recreate? || m.ForgetClosed? || m.SweepTerminal? {
      PassLedgerOnly(w, m);
    } else if m.LiveGrant? || m.RollBackLate? || m.ReplaySettled? || m.Other? || m.Restart? {
      LiveLedgerOnly(w, m);
    }
  }

  /** Only a handler's grant takes a snapshot. */
  lemma TakenBy(w: World, m: Move)
    requires Enabled(w, m)
    ensures forall p :: p in Next(w, m).taken ==>
      p in w.taken || (m.LiveGrant? && p == (m.mac, Snapshot(w.ledger.mem, m.mac)))
  {}

  predicate Fresh(w: World) {
    && w.ledger == Ledger(Memory(map[], {}, None, false), Disk(map[], {}))
    && w.journal == [] && w.unsynced == 0 && w.retry == {} && w.at == Idle
    && w.live == {} && w.paid == {} && w.taken == {}
  }

  // ---------------------------------------------------------------- closed entries

  /** Closed whatever a crash may lose. */
  ghost predicate DurablyClosed(w: World, id: string) {
    forall n: nat :: n <= w.unsynced ==> IsClosed(Without(w.journal, n), id)
  }

  lemma ClosedWhenDurable(w: World, id: string)
    ensures DurablyClosed(w, id) ==> IsClosed(w.journal, id)
  {
    Whole(w.journal);
    if DurablyClosed(w, id) {
      assert IsClosed(Without(w.journal, 0), id);
    }
  }

  lemma LogDecides(j: Journal, id: string, body: Payment)
    ensures IsClosed(j + [Row(id, body)], id) == !NeedsReconciliation(body.phase)
    ensures forall k :: k != id ==> IsClosed(j + [Row(id, body)], k) == IsClosed(j, k)
  {}

  /** A row keeps closed what was durably closed, unless it reopens it; and a synced closing row closes durably. */
  lemma LogKeepsClosed(w: World, id: string, body: Payment, result: Append, k: string)
    requires DurablyClosed(w, k) ==> k != id || !NeedsReconciliation(body.phase)
    ensures DurablyClosed(w, k) ==> DurablyClosed(Log(w, id, body, result), k)
    ensures result.AppendOk? && !NeedsReconciliation(body.phase) ==> DurablyClosed(Log(w, id, body, result), id)
  {
    var w' := Log(w, id, body, result);
    LogDecides(w.journal, id, body);
    Whole(w.journal);
    if DurablyClosed(w, k) && !result.AppendLost? {
      assert IsClosed(Without(w.journal, 0), k);
      forall n: nat | n <= w'.unsynced ensures IsClosed(Without(w'.journal, n), k) {
        WithoutLast(w.journal, Row(id, body), n);
        if n > 0 { assert IsClosed(Without(w.journal, n - 1), k); }
      }
    }
    if result.AppendOk? && !NeedsReconciliation(body.phase) {
      Whole(w'.journal);
    }
  }

  /** What is durably closed is closed after a crash. */
  lemma RestartKeepsClosed(w: World, lost: nat, id: string)
    ensures DurablyClosed(w, id) ==> DurablyClosed(Next(w, Restart(lost)), id)
  {
    if DurablyClosed(w, id) {
      assert IsClosed(Without(w.journal, Vanishing(w, lost)), id);
      Whole(Without(w.journal, Vanishing(w, lost)));
    }
  }

  /** Only rows and restarts change the journal. */
  lemma RowsOnly(w: World, m: Move)
    requires Enabled(w, m) && !m.Restart?
    ensures var w', row := Next(w, m), RowOf(w, m);
      var v := if row.Some? then Log(w, row.value.id, row.value.body, row.value.result) else w;
      w'.journal == v.journal && w'.unsynced == v.unsynced
  {}

  /** The move journals an entry as undecided that the journal had closed. */
  predicate Reopens(w: World, m: Move, id: string) {
    var row := RowOf(w, m);
    row.Some? && row.value.id == id && IsClosed(w.journal, id) && NeedsReconciliation(row.value.body.phase)
  }

  lemma SameRows(w: World, v: World, id: string)
    requires v.journal == w.journal && v.unsynced == w.unsynced
    ensures DurablyClosed(v, id) == DurablyClosed(w, id)
  {}

  /** What is durably closed stays so, unless a row reopens it. */
  lemma StaysClosed(w: World, m: Move, id: string)
    requires Enabled(w, m) && DurablyClosed(w, id) && !Reopens(w, m, id)
    ensures DurablyClosed(Next(w, m), id)
  {
    ClosedWhenDurable(w, id);
    if m.Restart? {
      RestartKeepsClosed(w, m.lost, id);
    } else {
      RowsOnly(w, m);
      var row := RowOf(w, m);
      if row.Some? {
        LogKeepsClosed(w, row.value.id, row.value.body, row.value.result, id);
        SameRows(Log(w, row.value.id, row.value.body, row.value.result), Next(w, m), id);
      } else {
        SameRows(w, Next(w, m), id);
      }
    }
  }
}
