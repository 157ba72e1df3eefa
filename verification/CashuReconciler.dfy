/** The reconciliation pass over the payment journal, statement by statement.  Every pass is proved to be a run
    of the moves in CashuRuns. */
module CashuReconciler {
  import opened Options
  import opened Journals
  import opened GrantLedger
  import opened SessionManagers
  import opened CashuRuns
  import L = LedgerRuns
  import C = LedgerCredits
  import V = CashuConverses

  /** The mint's answer about a token, and whether a local receive of it is still undecided. */
  datatype SpentAnswer = Spent(amountSat: nat) | Unspent | Unknown

  datatype SagaAnswer = NoReceive | ReceiveUnresolved | SagaUnknown

  datatype Answers = Answers(
    token: SpentAnswer,
    saga: SagaAnswer,
    grantSave: Fault,
    gateOpens: bool,
    markAppend: Append,
    recreateSave: Fault,
    terminalAppend: Append,
    lastSave: Fault)

  datatype Report = Report(grantedSessions: nat, closedUnspent: nat, zeroSteps: nat, undecided: nat)

  /** One more entry was looked at: one of the counters goes up when it was undecided. */
  predicate Counts(before: Report, report: Report, entry: Payment, a: Answers) {
    var closing := Closing(entry, a);
    report == before.(
      grantedSessions := before.grantedSessions + (if Due(entry, a) then 1 else 0),
      closedUnspent := before.closedUnspent + (if closing == Some(ReconcileUnspent) then 1 else 0),
      zeroSteps := before.zeroSteps + (if closing.Some? && closing.value.ReconcileZeroSteps? then 1 else 0),
      undecided := before.undecided +
        (if NeedsReconciliation(entry.phase) && !Due(entry, a) && closing == None then 1 else 0))
  }

  function Counted(r: Report): nat {
    r.grantedSessions + r.closedUnspent + r.zeroSteps + r.undecided
  }

  datatype GrantDue = GrantDue(id: string, entry: Payment, amountSat: nat)

  datatype ReplayAnswer = NotSettled | Current(remaining: nat) | Sold(allotment: nat)

  /** Nothing fails on the way from a spent token to its terminal row. */
  predicate Smooth(a: Answers) {
    a.grantSave.NoFault? && a.recreateSave.NoFault? && a.gateOpens && a.terminalAppend.AppendOk?
  }

  function LastRow(j: Journal, id: string): Option<Payment> {
    if id in FoldLast(j) then Some(FoldLast(j)[id]) else None
  }

  function LastPhase(j: Journal, id: string): Option<Phase> {
    if id in FoldLast(j) then Some(FoldLast(j)[id].phase) else None
  }

  lemma SettledMeans(j: Journal, id: string)
    ensures Settled(j, id) <==>
      exists sat :: LastPhase(j, id) == Some(Received(sat)) || LastPhase(j, id) == Some(ReconcileSpent(sat))
  {
    if Settled(j, id) {
      var p := FoldLast(j)[id].phase;
      assert p == Received(p.amountSat) || p == ReconcileSpent(p.amountSat);
    }
  }

  /** No entry but `id` has a new last row. */
  ghost predicate OnlyRow(j: Journal, j': Journal, id: string) {
    forall k :: k != id ==> LastRow(j', k) == LastRow(j, k)
  }

  lemma LogRow(j: Journal, id: string, body: Payment)
    ensures LastRow(j + [Row(id, body)], id) == Some(body) && OnlyRow(j, j + [Row(id, body)], id)
  {}

  /** The phase that closes an entry without a grant. */
  function Closing(entry: Payment, a: Answers): Option<Phase> {
    if !NeedsReconciliation(entry.phase) then None
    else if a.token.Spent? && CashuRuns.Steps(entry, a.token.amountSat) == 0
    then Some(ReconcileZeroSteps(a.token.amountSat))
    else if a.token.Unspent? && a.saga.NoReceive? then Some(ReconcileUnspent)
    else None
  }

  /** An entry's last row after the mint was asked. */
  function Decided(entry: Payment, a: Answers): Payment {
    if Closing(entry, a).Some? && !a.markAppend.AppendLost? then entry.(phase := Closing(entry, a).value) else entry
  }

  predicate SavesAt(m: Move, now: nat) {
    m.Other? && m.step.action.SaveAll? && m.step.now == now
  }

  /** The moves of one reconciled grant; the gate is opened only when the portal lets it. */
  predicate Own(m: Move, id: string, entry: Payment, amount: nat, now: nat, a: Answers) {
    match m
    case Begin(k, e, n, t, fault) => k == id && e == entry && n == amount && t == now && fault == a.grantSave
    case AppendOnly(k, e, n) => k == id && e == entry && n == amount
    case OpenGate => a.gateOpens
    case Recreate(fault) => !entry.gateOpened && fault == a.recreateSave
    case OpenRecreated => !entry.gateOpened && a.gateOpens
    case MarkDelivered(result) => !entry.gateOpened && a.gateOpens && result == a.markAppend
    case AlreadyDelivered => entry.gateOpened
    case Terminal(result) => result == a.terminalAppend
    case ForgetClosed => a.terminalAppend.AppendOk?
    case Other(_) => SavesAt(m, now)
    case _ => false
  }

  predicate OwnMoves(ms: seq<Move>, id: string, entry: Payment, amount: nat, now: nat, a: Answers) {
    forall m :: m in ms ==> Own(m, id, entry, amount, now, a)
  }

  /** The entries that the journal has closed. */
  function ClosedOf(j: Journal): set<string> {
    set id | id in FoldLast(j) && IsClosed(j, id)
  }

  lemma NoneClosed(ids: seq<string>, closed: set<string>)
    requires forall id :: id in ids <==> id in closed
    ensures ids == [] <==> closed == {}
  {
    if ids != [] {
      assert ids[0] in closed;
    }
  }

  predicate HeldAny(m: Memory, ids: set<string>) {
    exists id :: id in ids && Held(m, Cashu(id))
  }

  lemma HeldAnyOf(m: Memory, grantIds: seq<GrantId>, ids: set<string>)
    requires Elements(grantIds) == CashuIds(ids)
    ensures HeldAny(m, ids) <==> exists g :: g in grantIds && Held(m, g)
  {
    if g :| g in grantIds && Held(m, g) {
      assert g in Elements(grantIds);
      var id :| id in ids && Cashu(id) == g;
    }
    if id :| id in ids && Held(m, Cashu(id)) {
      assert Cashu(id) in Elements(grantIds);
    }
  }

  /** The ids of all closed entries are forgotten, when there are any, and saved, when one of them was held. */
  function SweepMoves(closed: set<string>, m: Memory, now: nat, fault: Fault): seq<Move> {
    if closed == {} then []
    else if HeldAny(m, closed) then [SweepTerminal(closed), Other(L.Timed(L.SaveAll(fault), now))]
    else [SweepTerminal(closed)]
  }

  function EndMoves(now: nat, a: Answers): seq<Move> {
    [Terminal(a.terminalAppend)] +
    if a.terminalAppend.AppendOk? then [ForgetClosed, Other(L.Timed(L.SaveAll(a.lastSave), now))] else []
  }

  lemma EndIsOwn(ms: seq<Move>, id: string, entry: Payment, amount: nat, now: nat, a: Answers)
    requires OwnMoves(ms, id, entry, amount, now, a)
    ensures OwnMoves(ms + EndMoves(now, a), id, entry, amount, now, a)
  {}

  /** The moves that decide an entry without a grant, as the mint's answer about it permits. */
  predicate Decides(m: Move, id: string, entry: Payment, a: Answers) {
    match m
    case LearnSpent(k) => k == id && a.token.Spent?
    case CloseUnspent(k, e, result) =>
      k == id && e == entry && a.token.Unspent? && a.saga.NoReceive? && result == a.markAppend
    case CloseZeroSteps(k, e, n, result) => k == id && e == entry && a.token == Spent(n) && result == a.markAppend
    case _ => false
  }

  /** A pass makes no move of a handler, and leaves the ledger to its grants, its sweep and its saves. */
  predicate PassMove(m: Move, now: nat) {
    match m
    case Post(_, _, _) => false
    case Receive(_, _) => false
    case LiveGrant(_, _, _, _, _) => false
    case RollBackLate(_, _) => false
    case LiveAppend(_, _, _) => false
    case Finish(_, _) => false
    case ReplaySettled(_, _, _, _, _) => false
    case Begin(_, _, _, t, _) => t == now
    case Other(_) => SavesAt(m, now)
    case Restart(_) => false
    case _ => true
  }

  predicate PassMoves(ms: seq<Move>, now: nat) {
    forall m :: m in ms ==> PassMove(m, now)
  }

  lemma OwnInPass(ms: seq<Move>, id: string, entry: Payment, amount: nat, now: nat, a: Answers)
    requires OwnMoves(ms, id, entry, amount, now, a)
    ensures PassMoves(ms, now)
  {
    forall m | m in ms ensures PassMove(m, now) {
      assert Own(m, id, entry, amount, now, a);
    }
  }

  /** The entry is served only when the portal lets it. */
  predicate ServedBy(before: set<string>, after: set<string>, id: string, gateOpens: bool) {
    after == before || (gateOpens && after == before + {id})
  }

  /** What a pass does about access to a due entry: a customer's is opened only when the portal lets it and there is
      more to do than the row; and when nothing fails it is opened, or was before.  Nobody else's changes. */
  predicate Serves(before: set<string>, after: set<string>, id: string, entry: Payment, a: Answers, retried: bool) {
    && ServedBy(before, after, id, entry.mac != CLI_FUND_MAC && a.gateOpens && !retried)
    && (Smooth(a) && entry.mac != CLI_FUND_MAC && !retried ==> id in after || entry.gateOpened)
  }

  class Reconciler {
    const manager: SessionManager
    const dir: StateDir
    var journal: Journal
    ghost var unsynced: nat
    var retry: set<string>
    ghost var at: Stage
    ghost var live: set<(string, Mac)>
    ghost var paid: set<(string, Mac)>
    ghost var taken: set<(Mac, L.Taken)>
    ghost var spent: set<string>
    ghost var served: set<string>

    constructor (manager: SessionManager, dir: StateDir)
      ensures this.manager == manager && this.dir == dir
      ensures journal == [] && unsynced == 0 && retry == {} && at == Idle
      ensures live == {} && paid == {} && taken == {} && spent == {} && served == {}
    {
      this.manager, this.dir, journal, retry := manager, dir, [], {};
      unsynced, at, live, paid, taken, spent, served := 0, Idle, {}, {}, {}, {}, {};
    }

    ghost function State(): World
      reads this, manager, dir
    {
      World(Ledger(manager.Mem(), dir.Files()), journal, unsynced, retry, at, live, paid, taken, spent, served)
    }

    // -------------------------------------------------------------- single steps

    /** Append and sync; the row may land even when an error is reported. */
    method AppendEntry(id: string, body: Payment, result: Append) returns (ok: bool)
      modifies this`journal, this`unsynced
      ensures State() == Log(old(State()), id, body, result)
      ensures journal == if result.AppendLost? then old(journal) else old(journal) + [Row(id, body)]
      ensures ok == result.AppendOk?
    {
      if !result.AppendLost? {
        journal := journal + [Row(id, body)];
        unsynced := if result.AppendOk? then 0 else unsynced + 1;
      }
      ok := result.AppendOk?;
    }

    method GrantSession(id: string, entry: Payment, amount: nat, now: nat, fault: Fault) returns (isNew: bool, ok: bool)
      requires Enabled(State(), Begin(id, entry, amount, now, fault))
      modifies this`at, manager, dir
      ensures Does(old(State()), Begin(id, entry, amount, now, fault), State())
      ensures fault.NoFault? ==> ok
      ensures at == if ok then Applied(id, entry, amount, isNew, now) else Idle
    {
      isNew, ok := manager.GrantOrRollBack(dir, entry.mac, Allotment(entry, amount), entry.metric, GRANT_SECS,
                                           Cashu(id), now, fault);
      at := if ok then Applied(id, entry, amount, isNew, now) else Idle;
    }

    method RecreateSession(id: string, entry: Payment, amount: nat, now: nat, fault: Fault) returns (ok: bool)
      requires at == Applied(id, entry, amount, false, now) && Enabled(State(), CashuRuns.Recreate(fault))
      modifies this`at, manager, dir
      ensures Does(old(State()), CashuRuns.Recreate(fault), State())
      ensures fault.NoFault? ==> ok
      ensures at == if ok then Recreated(id, entry, amount) else Idle
    {
      ok := manager.RecreateOrRollBack(dir, entry.mac, entry.metric, Allotment(entry, amount), GRANT_SECS, Cashu(id),
                                       false, now, fault);
      at := if ok then Recreated(id, entry, amount) else Idle;
    }

    method GrantAccess()
      requires Enabled(State(), CashuRuns.OpenGate)
      modifies this`at, this`served
      ensures Does(old(State()), CashuRuns.OpenGate, State())
      ensures at == Delivered(old(at).id, old(at).entry, old(at).amountSat) && at.id in served
    {
      served := served + {at.id};
      at := Delivered(at.id, at.entry, at.amountSat);
    }

    method GrantAccessRecreated()
      requires at.Recreated?
      modifies this`at, this`served
      ensures Does(old(State()), CashuRuns.OpenRecreated, State())
      ensures at == Delivered(old(at).id, old(at).entry, old(at).amountSat) && at.id in served
    {
      served := served + {at.id};
      at := Delivered(at.id, at.entry, at.amountSat);
    }

    /** Note the delivery durably, unless the entry already says so or the append is lost. */
    method NoteDelivered(id: string, entry: Payment, result: Append) returns (ghost trace: seq<Move>)
      requires at.Delivered? && at.id == id && at.entry == entry
      modifies this`journal, this`unsynced
      ensures Runs(old(State()), trace, State())
      ensures trace == if entry.gateOpened then [] else [MarkDelivered(result)]
      ensures journal ==
        if entry.gateOpened || result.AppendLost? then old(journal)
        else old(journal) + [Row(id, entry.(gateOpened := true))]
    {
      ghost var w0 := State();
      NoMoves(w0);
      trace := [];
      if !entry.gateOpened {
        var _ := AppendEntry(id, entry.(gateOpened := true), result);
        OneMore(w0, [], w0, MarkDelivered(result), State());
        trace := [] + [MarkDelivered(result)];
      }
    }

    method SaveSessions(now: nat, fault: Fault)
      modifies manager, dir
      ensures Does(old(State()), Other(L.Timed(L.SaveAll(fault), now)), State())
      ensures forall id :: Held(manager.Mem(), id) ==> old(Held(manager.Mem(), id))
    {
      ghost var l := State().ledger;
      var _ := manager.SaveNow(dir, now, fault);
      forall id | Held(manager.Mem(), id) ensures Held(l.mem, id) {
        C.SaveInventsNothing(l, now, fault, id);
      }
    }

    /** The terminal row; when the append fails the entry joins the append-only retry set. */
    method CloseEntry(id: string, entry: Payment, amount: nat, result: Append) returns (ok: bool)
      requires at == Delivered(id, entry, amount)
      modifies this`journal, this`unsynced, this`retry, this`at
      ensures Does(old(State()), Terminal(result), State()) && ok == result.AppendOk?
      ensures at == if ok then Closed(id) else Idle
      ensures retry == if ok then old(retry) - {id} else old(retry) + {id}
      ensures journal ==
        if result.AppendLost? then old(journal) else old(journal) + [Row(id, entry.(phase := ReconcileSpent(amount)))]
    {
      ok := AppendEntry(id, entry.(phase := ReconcileSpent(amount)), result);
      retry := if ok then retry - {id} else retry + {id};
      at := if ok then Closed(id) else Idle;
    }

    method ForgetOne(id: string)
      requires at == Closed(id)
      modifies this`at, manager
      ensures Does(old(State()), ForgetClosed, State())
      ensures !Held(manager.Mem(), Cashu(id))
    {
      at := Idle;
      assert Elements([Cashu(id)]) == {Cashu(id)} == CashuIds({id});
      var _ := manager.ForgetGrants([Cashu(id)]);
    }

    // -------------------------------------------------------------- one reconciled grant

    /** Open the gate onto the session that carries the grant, and note it. */
    method OpenAndNote(id: string, entry: Payment, amount: nat, now: nat, a: Answers)
      returns (ok: bool, ghost trace: seq<Move>)
      requires at.Applied? && at.id == id && at.entry == entry && at.amountSat == amount &&
        Enabled(State(), CashuRuns.OpenGate)
      modifies this`at, this`served, this`journal, this`unsynced
      ensures Runs(old(State()), trace, State())
      ensures OwnMoves(trace, id, entry, amount, now, a)
      ensures ok == a.gateOpens && (ok ==> at == Delivered(id, entry, amount))
      ensures served == if ok then old(served) + {id} else old(served)
      ensures journal ==
        if !ok || entry.gateOpened || a.markAppend.AppendLost? then old(journal)
        else old(journal) + [Row(id, entry.(gateOpened := true))]
    {
      ghost var w0 := State();
      NoMoves(w0);
      trace := [];
      if !a.gateOpens {
        return false, trace;
      }
      GrantAccess();
      ghost var w1 := State();
      OneMore(w0, [], w0, CashuRuns.OpenGate, w1);
      ghost var t := NoteDelivered(id, entry, a.markAppend);
      Chain(w0, [] + [CashuRuns.OpenGate], w1, t, State());
      ok, trace := true, [] + [CashuRuns.OpenGate] + t;
    }

    /** The grant expired before it was ever delivered: recreate it, open the gate, and note it. */
    method RecreateAndNote(id: string, entry: Payment, amount: nat, now: nat, a: Answers)
      returns (ok: bool, ghost trace: seq<Move>)
      requires at == Applied(id, entry, amount, false, now) && Enabled(State(), CashuRuns.Recreate(a.recreateSave))
      modifies this`at, this`served, this`journal, this`unsynced, manager, dir
      ensures Runs(old(State()), trace, State()) && OwnMoves(trace, id, entry, amount, now, a)
      ensures (Smooth(a) ==> ok) && (ok ==> a.gateOpens && at == Delivered(id, entry, amount))
      ensures served == if ok then old(served) + {id} else old(served)
      ensures journal ==
        if !ok || a.markAppend.AppendLost? then old(journal)
        else old(journal) + [Row(id, entry.(gateOpened := true))]
    {
      ghost var w0 := State();
      NoMoves(w0);
      ok := RecreateSession(id, entry, amount, now, a.recreateSave);
      ghost var w1 := State();
      OneMore(w0, [], w0, CashuRuns.Recreate(a.recreateSave), w1);
      trace := [] + [CashuRuns.Recreate(a.recreateSave)];
      if ok {
        ghost var t;
        ok, t := OpenNewAndNote(id, entry, amount, now, a);
        Chain(w0, trace, w1, t, State());
        trace := trace + t;
      }
    }

    method OpenNewAndNote(id: string, entry: Payment, amount: nat, now: nat, a: Answers)
      returns (ok: bool, ghost trace: seq<Move>)
      requires at == Recreated(id, entry, amount) && !entry.gateOpened
      modifies this`at, this`served, this`journal, this`unsynced
      ensures Runs(old(State()), trace, State()) && OwnMoves(trace, id, entry, amount, now, a)
      ensures ok == a.gateOpens && (ok ==> at == Delivered(id, entry, amount))
      ensures served == if ok then old(served) + {id} else old(served)
      ensures journal ==
        if !ok || a.markAppend.AppendLost? then old(journal)
        else old(journal) + [Row(id, entry.(gateOpened := true))]
    {
      ghost var w0 := State();
      NoMoves(w0);
      trace := [];
      if !a.gateOpens {
        return false, trace;
      }
      GrantAccessRecreated();
      ghost var w1 := State();
      OneMore(w0, [], w0, CashuRuns.OpenRecreated, w1);
      ghost var t := NoteDelivered(id, entry, a.markAppend);
      Chain(w0, [] + [CashuRuns.OpenRecreated], w1, t, State());
      ok, trace := true, [] + [CashuRuns.OpenRecreated] + t;
    }

    /** Grant, or find the grant, and give access; false when the pass must stop here. */
    method Deliver(id: string, entry: Payment, amount: nat, now: nat, a: Answers)
      returns (ok: bool, ghost trace: seq<Move>)
      requires HandedSpent(State(), id, entry) && Owes(entry, amount) && id !in retry
      modifies this, manager, dir
      ensures Runs(old(State()), trace, State()) && OwnMoves(trace, id, entry, amount, now, a)
      ensures ServedBy(old(served), served, id, a.gateOpens)
      ensures (Smooth(a) ==> ok) && (ok ==> at == Delivered(id, entry, amount) && (id in served || entry.gateOpened))
      ensures retry == old(retry)
      ensures journal == old(journal) || journal == old(journal) + [Row(id, entry.(gateOpened := true))]
      ensures !a.gateOpens && !entry.gateOpened ==> !ok && journal == old(journal)
    {
      ghost var w0 := State();
      NoMoves(w0);
      ghost var m := Begin(id, entry, amount, now, a.grantSave);
      var isNew;
      isNew, ok := GrantSession(id, entry, amount, now, a.grantSave);
      ghost var w1 := State();
      OneMore(w0, [], w0, m, w1);
      trace := [] + [m];
      if !ok {
        return;
      }
      ghost var t;
      ok, t := DeliverGranted(id, entry, amount, isNew, now, a);
      Chain(w0, trace, w1, t, State());
      trace := trace + t;
    }

    /** Access to the session that carries the grant, to a new one, or noted as given before. */
    method DeliverGranted(id: string, entry: Payment, amount: nat, isNew: bool, now: nat, a: Answers)
      returns (ok: bool, ghost trace: seq<Move>)
      requires at == Applied(id, entry, amount, isNew, now)
      modifies this, manager, dir
      ensures Runs(old(State()), trace, State()) && OwnMoves(trace, id, entry, amount, now, a)
      ensures ServedBy(old(served), served, id, a.gateOpens)
      ensures (Smooth(a) ==> ok) && (ok ==> at == Delivered(id, entry, amount) && (id in served || entry.gateOpened))
      ensures retry == old(retry)
      ensures journal == old(journal) || journal == old(journal) + [Row(id, entry.(gateOpened := true))]
      ensures !a.gateOpens && !entry.gateOpened ==> !ok && journal == old(journal)
    {
      if isNew || HasLiveGrant(manager.Mem(), entry.mac, Cashu(id), now) {
        ok, trace := OpenAndNote(id, entry, amount, now, a);
      } else if !entry.gateOpened {
        ok, trace := RecreateAndNote(id, entry, amount, now, a);
      } else {
        ghost var w0 := State();
        at := Delivered(id, entry, amount);
        NoMoves(w0);
        OneMore(w0, [], w0, AlreadyDelivered, State());
        ok, trace := true, [] + [AlreadyDelivered];
      }
    }

    /** The terminal row, and only when it is durable the end of the grant id. */
    method CloseAndForget(id: string, entry: Payment, amount: nat, now: nat, a: Answers)
      returns (ghost trace: seq<Move>)
      requires at == Delivered(id, entry, amount)
      modifies this, manager, dir
      ensures Runs(old(State()), trace, State())
      ensures journal ==
        if a.terminalAppend.AppendLost? then old(journal)
        else old(journal) + [Row(id, entry.(phase := ReconcileSpent(amount)))]
      ensures retry == if a.terminalAppend.AppendOk? then old(retry) - {id} else old(retry) + {id}
      ensures a.terminalAppend.AppendOk? ==> !Held(manager.Mem(), Cashu(id))
      ensures served == old(served)
      ensures trace == EndMoves(now, a)
    {
      ghost var w0 := State();
      NoMoves(w0);
      var closed := CloseEntry(id, entry, amount, a.terminalAppend);
      ghost var w1 := State();
      OneMore(w0, [], w0, Terminal(a.terminalAppend), w1);
      trace := [] + [Terminal(a.terminalAppend)];
      if closed {
        ghost var t := ForgetAndSave(id, now, a.lastSave);
        Chain(w0, trace, w1, t, State());
        trace := trace + t;
      }
    }

    method ForgetAndSave(id: string, now: nat, fault: Fault) returns (ghost trace: seq<Move>)
      requires at == Closed(id)
      modifies this`at, manager, dir
      ensures Runs(old(State()), trace, State()) && !Held(manager.Mem(), Cashu(id))
      ensures trace == [ForgetClosed, Other(L.Timed(L.SaveAll(fault), now))]
    {
      ghost var w0, save := State(), Other(L.Timed(L.SaveAll(fault), now));
      ForgetOne(id);
      ghost var w1 := State();
      SaveSessions(now, fault);
      Two(w0, ForgetClosed, w1, save, State());
      trace := [] + [ForgetClosed] + [save];
    }

    /** An entry whose grant was applied but whose terminal row failed only retries the row. */
    method GiveAccess(id: string, entry: Payment, amount: nat, now: nat, a: Answers)
      returns (ok: bool, ghost trace: seq<Move>)
      requires HandedSpent(State(), id, entry) && Owes(entry, amount)
      modifies this, manager, dir
      ensures Runs(old(State()), trace, State()) && retry == old(retry)
      ensures OwnMoves(trace, id, entry, amount, now, a)
      ensures ServedBy(old(served), served, id, a.gateOpens && id !in retry)
      ensures (Smooth(a) ==> ok) && (ok ==> at == Delivered(id, entry, amount))
      ensures ok && id !in retry ==> id in served || entry.gateOpened
      ensures journal == old(journal) || journal == old(journal) + [Row(id, entry.(gateOpened := true))]
      ensures id !in retry && !a.gateOpens && !entry.gateOpened ==> !ok && journal == old(journal)
    {
      if id !in retry {
        ok, trace := Deliver(id, entry, amount, now, a);
      } else {
        ghost var w0 := State();
        at := Delivered(id, entry, amount);
        NoMoves(w0);
        OneMore(w0, [], w0, AppendOnly(id, entry, amount), State());
        ok, trace := true, [] + [AppendOnly(id, entry, amount)];
      }
    }

    /** Access first, then the terminal row. */
    method ApplyReconciledGrant(id: string, entry: Payment, amount: nat, now: nat, a: Answers)
      returns (ghost trace: seq<Move>)
      requires HandedSpent(State(), id, entry) && Owes(entry, amount)
      modifies this, manager, dir
      ensures Runs(old(State()), trace, State())
      ensures old(journal) <= journal && OnlyRow(old(journal), journal, id) && retry - {id} == old(retry) - {id}
      ensures GrantLeaves(entry, amount, a, id in old(retry), LastRow(old(journal), id), LastRow(journal, id))
      ensures Smooth(a) ==> id !in retry && !Held(manager.Mem(), Cashu(id))
      ensures Smooth(a) && id !in old(retry) ==> id in served || entry.gateOpened
      ensures ServedBy(old(served), served, id, a.gateOpens && id !in old(retry))
      ensures OwnMoves(trace, id, entry, amount, now, a)
    {
      ghost var w0 := State();
      var ok;
      ok, trace := GiveAccess(id, entry, amount, now, a);
      ghost var w1 := State();
      if ok {
        ghost var t := CloseAndForget(id, entry, amount, now, a);
        Chain(w0, trace, w1, t, State());
        EndIsOwn(trace, id, entry, amount, now, a);
        trace := trace + t;
      }
      GrantRows(w0.journal, w1.journal, journal, id, entry, amount, a, ok, id in w0.retry);
    }

    // -------------------------------------------------------------- a token posted again

    /** A settled token answers with the active session of the MAC that posts it, or sells a new one. */
    method ReplayPosted(id: string, mac: Mac, metric: string, stepSize: nat, now: nat)
      returns (answer: ReplayAnswer, ghost trace: seq<Move>)
      modifies manager
      ensures Runs(old(State()), trace, State())
      ensures answer == NotSettled <==> !Settled(journal, id)
      ensures answer != NotSettled <==> exists sat ::
        LastPhase(journal, id) == Some(Received(sat)) || LastPhase(journal, id) == Some(ReconcileSpent(sat))
      ensures answer.Sold? <==> Settled(journal, id) && !IsActive(old(manager.Mem()), mac, now)
      ensures answer.Sold? ==>
        var entry := FoldLast(journal)[id];
        && answer.allotment == CashuRuns.Steps(entry, entry.phase.amountSat) * stepSize % U64
        && manager.sessions == old(manager.sessions)[mac :=
             Session(answer.allotment, 0, metric, now + GRANT_SECS, now, {}, None, multiset{Cashu(id)})]
      ensures answer.Current? ==>
        var s := old(manager.sessions)[mac];
          answer.remaining == if s.allotment > s.used then s.allotment - s.used else 1
      ensures !answer.Sold? ==> State() == old(State())
    {
      ghost var w0 := State();
      NoMoves(w0);
      SettledMeans(journal, id);
      trace := [];
      var folded := Fold(journal);
      if id !in folded || !SettledPhase(folded[id].phase) {
        return NotSettled, trace;
      }
      if manager.Active(mac, now) {
        return Current(manager.Remaining(mac)), trace;
      }
      var allotment := CashuRuns.Steps(folded[id], folded[id].phase.amountSat) * stepSize % U64;
      manager.ReplayGrant(mac, allotment, metric, GRANT_SECS, Cashu(id), now);
      answer := Sold(allotment);
      OneMore(w0, [], w0, ReplaySettled(id, mac, metric, allotment, now), State());
      trace := [] + [ReplaySettled(id, mac, metric, allotment, now)];
      V.ReplaySellsExactlyWhen(w0, id, mac, metric, allotment, now);
    }

    // -------------------------------------------------------------- one pass

    /** Append a row that decides an entry without a grant. */
    method CloseWith(id: string, entry: Payment, phase: Phase, ghost m: Move, result: Append)
      returns (ghost trace: seq<Move>)
      requires Enabled(State(), m) && Next(State(), m) == Log(State(), id, entry.(phase := phase), result)
      modifies this`journal, this`unsynced
      ensures Runs(old(State()), trace, State()) && trace == [m]
      ensures journal == if result.AppendLost? then old(journal) else old(journal) + [Row(id, entry.(phase := phase))]
    {
      ghost var w0 := State();
      NoMoves(w0);
      var _ := AppendEntry(id, entry.(phase := phase), result);
      OneMore(w0, [], w0, m, State());
      trace := [] + [m];
    }

    /** The mint has called the token spent. */
    ghost method Learn(id: string)
      modifies this`spent
      ensures Does(old(State()), LearnSpent(id), State()) && spent == old(spent) + {id}
    {
      spent := spent + {id};
    }

    /** Close an entry whose token the mint has called spent. */
    method CloseSpent(id: string, entry: Payment, phase: Phase, ghost m: Move, result: Append)
      returns (ghost trace: seq<Move>)
      requires var w := State().(spent := spent + {id});
        Enabled(w, m) && Next(w, m) == Log(w, id, entry.(phase := phase), result)
      modifies this`journal, this`unsynced, this`spent
      ensures Runs(old(State()), trace, State()) && trace == [LearnSpent(id), m]
      ensures journal == if result.AppendLost? then old(journal) else old(journal) + [Row(id, entry.(phase := phase))]
    {
      ghost var w0 := State();
      NoMoves(w0);
      Learn(id);
      ghost var w1 := State();
      OneMore(w0, [], w0, LearnSpent(id), w1);
      ghost var t := CloseWith(id, entry, phase, m, result);
      Chain(w0, [] + [LearnSpent(id)], w1, t, State());
      trace := [] + [LearnSpent(id)] + t;
    }

    /** Decide one entry: grant due, closed, or left undecided. */
    method Decide(id: string, entry: Payment, a: Answers, before: Report)
      returns (due: bool, report: Report, ghost trace: seq<Move>)
      requires Row(id, entry) in journal
      modifies this`journal, this`unsynced, this`spent
      ensures Runs(old(State()), trace, State()) && old(journal) <= journal
      ensures forall m :: m in trace ==> Decides(m, id, entry, a)
      ensures due == Due(entry, a)
      ensures journal ==
        if Decided(entry, a) == entry then old(journal)
        else old(journal) + [Row(id, Decided(entry, a))]
      ensures Counts(before, report, entry, a)
    {
      NoMoves(State());
      trace, report, due := [], before, false;
      if NeedsReconciliation(entry.phase) {
        match a.token {
          case Spent(amount) =>
            if CashuRuns.Steps(entry, amount) == 0 {
              report := report.(zeroSteps := report.zeroSteps + 1);
              trace := CloseSpent(id, entry, ReconcileZeroSteps(amount),
                                  CloseZeroSteps(id, entry, amount, a.markAppend), a.markAppend);
            } else {
              report := report.(grantedSessions := report.grantedSessions + 1);
              due := true;
            }
          case Unspent =>
            if a.saga.NoReceive? {
              trace := CloseWith(id, entry, ReconcileUnspent, CloseUnspent(id, entry, a.markAppend), a.markAppend);
              report := report.(closedUnspent := report.closedUnspent + 1);
            } else {
              report := report.(undecided := report.undecided + 1);
            }
          case Unknown =>
            report := report.(undecided := report.undecided + 1);
        }
      }
    }

    method AskOne(folded: map<string, Payment>, answers: string -> Answers, ghost todo: set<string>, id: string,
                  before: Report, listed: seq<GrantDue>)
      returns (report: Report, grants: seq<GrantDue>, ghost trace: seq<Move>)
      requires id in todo && todo <= folded.Keys && Row(id, folded[id]) in journal
      requires AskedAll(folded, answers, todo, journal) && Lists(listed, folded, answers, folded.Keys - todo)
      requires before.grantedSessions == |listed|
      modifies this`journal, this`unsynced, this`spent
      ensures Runs(old(State()), trace, State()) && old(journal) <= journal
      ensures forall m :: m in trace ==> Decides(m, id, folded[id], answers(id))
      ensures AskedAll(folded, answers, todo - {id}, journal) &&
        Lists(grants, folded, answers, folded.Keys - (todo - {id}))
      ensures Counts(before, report, folded[id], answers(id)) && report.grantedSessions == |grants|
    {
      var entry, a := folded[id], answers(id);
      AskedOneMore(folded, answers, todo, journal, id);
      ListsOneMore(listed, folded, answers, folded.Keys - todo, id);
      assert folded.Keys - (todo - {id}) == folded.Keys - todo + {id};
      var due;
      due, report, trace := Decide(id, entry, a, before);
      grants := if due then listed + [GrantDue(id, entry, a.token.amountSat)] else listed;
    }

    /** Ask the mint about every undecided entry: close what is owed nothing, and return the grants that are due,
        each entry once, with the row it was folded to. */
    method Reconcile(answers: string -> Answers) returns (report: Report, grants: seq<GrantDue>, ghost trace: seq<Move>)
      modifies this`journal, this`unsynced, this`spent
      ensures Runs(old(State()), trace, State()) && old(journal) <= journal
      ensures forall m :: m in trace ==> m.LearnSpent? || m.CloseUnspent? || m.CloseZeroSteps?
      ensures var folded := FoldLast(old(journal)); Lists(grants, folded, answers, folded.Keys)
      ensures AskedAll(FoldLast(old(journal)), answers, {}, journal)
      ensures report.grantedSessions == |grants|
      ensures Counted(report) == |UndecidedOf(FoldLast(old(journal)), FoldLast(old(journal)).Keys)|
    {
      ghost var w0 := State();
      NoMoves(w0);
      trace := [];
      report := Report(0, 0, 0, 0);
      grants := [];
      var folded := Fold(journal);
      var todo := folded.Keys;
      while todo != {}
        invariant todo <= folded.Keys
        invariant Runs(w0, trace, State()) && w0.journal <= journal
        invariant forall m :: m in trace ==> m.LearnSpent? || m.CloseUnspent? || m.CloseZeroSteps?
        invariant Lists(grants, folded, answers, folded.Keys - todo)
        invariant AskedAll(folded, answers, todo, journal)
        invariant report.grantedSessions == |grants|
        invariant Counted(report) == |UndecidedOf(folded, folded.Keys - todo)|
      {
        var id :| id in todo;
        ghost var v := State();
        FoldedIsHanded(w0.journal, journal, id);
        ghost var t;
        UndecidedOneMore(folded, todo, id);
        report, grants, t := AskOne(folded, answers, todo, id, report, grants);
        Chain(w0, trace, v, t, State());
        trace := trace + t;
        todo := todo - {id};
      }
      assert folded.Keys - {} == folded.Keys;
    }

    method ClosedIds() returns (ids: seq<string>)
      ensures forall id :: id in ids <==> id in ClosedOf(journal)
    {
      var folded := Fold(journal);
      ids := SetToSeq(set id | id in folded && !NeedsReconciliation(folded[id].phase));
    }

    method SaveAfter(now: nat, fault: Fault) returns (ghost trace: seq<Move>)
      modifies manager, dir
      ensures Runs(old(State()), trace, State()) && trace == [Other(L.Timed(L.SaveAll(fault), now))]
      ensures forall id :: Held(manager.Mem(), id) ==> old(Held(manager.Mem(), id))
    {
      ghost var w0, save := State(), Other(L.Timed(L.SaveAll(fault), now));
      NoMoves(w0);
      SaveSessions(now, fault);
      OneMore(w0, [], w0, save, State());
      trace := [] + [save];
    }

    method ForgetAll(ids: seq<string>, ghost closed: set<string>) returns (changed: bool)
      requires (forall id :: id in ids <==> id in closed) && forall id :: id in closed ==> IsClosed(journal, id)
      modifies this`at, manager
      ensures Does(old(State()), SweepTerminal(closed), State())
      ensures forall id :: id in closed ==> !Held(manager.Mem(), Cashu(id))
      ensures changed == HeldAny(old(manager.Mem()), closed)
    {
      ghost var m := manager.Mem();
      var grantIds := seq(|ids|, i requires 0 <= i < |ids| => Cashu(ids[i]));
      at := Idle;
      changed := manager.ForgetGrants(grantIds);
      assert Elements(grantIds) == CashuIds(closed) by {
        assert forall id :: id in closed ==> exists i :: 0 <= i < |ids| && ids[i] == id && grantIds[i] == Cashu(id);
      }
      forall id | id in closed ensures !Held(manager.Mem(), Cashu(id)) {
        C.ForgottenIsNotHeld(m, CashuIds(closed), Cashu(id));
      }
      HeldAnyOf(m, grantIds, closed);
    }

    /** Forget the grant ids of entries that the journal has closed. */
    method SweepClosed(now: nat, fault: Fault) returns (ghost trace: seq<Move>)
      modifies this`at, manager, dir
      ensures Runs(old(State()), trace, State())
      ensures trace == SweepMoves(ClosedOf(journal), old(manager.Mem()), now, fault)
      ensures forall id :: id in ClosedOf(journal) ==> !Held(manager.Mem(), Cashu(id))
    {
      ghost var w0 := State();
      NoMoves(w0);
      trace := [];
      var ids := ClosedIds();
      ghost var closed := ClosedOf(journal);
      NoneClosed(ids, closed);
      if ids != [] {
        var changed := ForgetAll(ids, closed);
        ghost var w1 := State();
        OneMore(w0, [], w0, SweepTerminal(closed), w1);
        trace := [] + [SweepTerminal(closed)];
        if changed {
          ghost var t := SaveAfter(now, fault);
          Chain(w0, trace, w1, t, State());
          trace := trace + t;
        }
      }
    }

    /** One due grant: the value of a CLI fund is in the wallet already, a customer gets a session and the gate. */
    method SettleOne(g: GrantDue, now: nat, a: Answers) returns (ghost trace: seq<Move>)
      requires Row(g.id, g.entry) in journal && Due(g.entry, a) && g.amountSat == a.token.amountSat
      modifies this, manager, dir
      ensures Runs(old(State()), trace, State()) && PassMoves(trace, now)
      ensures old(journal) <= journal && OnlyRow(old(journal), journal, g.id) && retry - {g.id} == old(retry) - {g.id}
      ensures old(LastRow(journal, g.id)) == Some(g.entry) ==>
        PassLeaves(g.entry, a, g.id in old(retry), LastRow(journal, g.id))
      ensures Serves(old(served), served, g.id, g.entry, a, g.id in old(retry))
    {
      LogRow(journal, g.id, g.entry.(phase := ReconcileSpent(g.amountSat)));
      if g.entry.mac == CLI_FUND_MAC {
        ghost var m := CloseCliFund(g.id, g.entry, g.amountSat, a.terminalAppend);
        trace := CloseSpent(g.id, g.entry, ReconcileSpent(g.amountSat), m, a.terminalAppend);
      } else {
        trace := SettleCustomer(g.id, g.entry, g.amountSat, now, a);
      }
    }

    method SettleCustomer(id: string, entry: Payment, amount: nat, now: nat, a: Answers)
      returns (ghost trace: seq<Move>)
      requires Handed(State(), id, entry) && Owes(entry, amount)
      modifies this, manager, dir
      ensures Runs(old(State()), trace, State()) && PassMoves(trace, now)
      ensures old(journal) <= journal && OnlyRow(old(journal), journal, id) && retry - {id} == old(retry) - {id}
      ensures GrantLeaves(entry, amount, a, id in old(retry), LastRow(old(journal), id), LastRow(journal, id))
      ensures Serves(old(served), served, id, entry, a, id in old(retry))
    {
      ghost var w0 := State();
      NoMoves(w0);
      Learn(id);
      ghost var w1 := State();
      OneMore(w0, [], w0, LearnSpent(id), w1);
      ghost var t := ApplyReconciledGrant(id, entry, amount, now, a);
      OwnInPass(t, id, entry, amount, now, a);
      Chain(w0, [] + [LearnSpent(id)], w1, t, State());
      trace := [] + [LearnSpent(id)] + t;
    }

    method SettleNext(grants: seq<GrantDue>, i: nat, now: nat, ghost folded: map<string, Payment>,
                      answers: string -> Answers, ghost retried: set<string>) returns (ghost trace: seq<Move>)
      requires i < |grants| && Lists(grants, folded, answers, folded.Keys) &&
        Row(grants[i].id, grants[i].entry) in journal
      requires Progress(grants, i, folded, answers, retried, journal) &&
        (grants[i].id in retry <==> grants[i].id in retried)
      modifies this, manager, dir
      ensures Runs(old(State()), trace, State()) && PassMoves(trace, now)
      ensures old(journal) <= journal && retry - {grants[i].id} == old(retry) - {grants[i].id}
      ensures Progress(grants, i + 1, folded, answers, retried, journal)
      ensures Serves(old(served), served, grants[i].id, grants[i].entry, answers(grants[i].id), grants[i].id in retried)
    {
      ghost var before := journal;
      NextIsUntouched(grants, i, folded, answers, retried, journal);
      trace := SettleOne(grants[i], now, answers(grants[i].id));
      ProgressOneMore(grants, i, folded, answers, retried, before, journal);
    }

    method SettleGrants(grants: seq<GrantDue>, now: nat, ghost folded: map<string, Payment>, answers: string -> Answers)
      returns (ghost trace: seq<Move>)
      requires Lists(grants, folded, answers, folded.Keys) && Progress(grants, 0, folded, answers, retry, journal)
      requires forall i :: 0 <= i < |grants| ==> Row(grants[i].id, grants[i].entry) in journal
      modifies this, manager, dir
      ensures Runs(old(State()), trace, State()) && PassMoves(trace, now)
      ensures Progress(grants, |grants|, folded, answers, old(retry), journal)
      ensures AllServed(grants, |grants|, answers, old(retry), old(served), served)
    {
      ghost var w0 := State();
      NoMoves(w0);
      trace := [];
      for i := 0 to |grants|
        invariant Runs(w0, trace, State()) && w0.journal <= journal && PassMoves(trace, now)
        invariant AllServed(grants, i, answers, w0.retry, w0.served, served)
        invariant Progress(grants, i, folded, answers, w0.retry, journal)
        invariant forall j :: i <= j < |grants| ==> (grants[j].id in retry <==> grants[j].id in w0.retry)
      {
        ghost var v := State();
        ghost var t := SettleNext(grants, i, now, folded, answers, w0.retry);
        Chain(w0, trace, v, t, State());
        trace := trace + t;
        RetryElsewhere(grants, i, v.retry, retry, w0.retry);
        ServedOneMore(grants, i, answers, w0.retry, w0.served, v.served, served);
      }
    }

    /** One whole pass is a run of the moves, whatever the mint, the disk and the portal answer. */
    method ReconcilePaymentsOnce(now: nat, wallet: bool, answers: string -> Answers, sweepSave: Fault)
      returns (ghost trace: seq<Move>)
      modifies this, manager, dir
      ensures Runs(old(State()), trace, State()) && PassMoves(trace, now)
      ensures wallet ==> forall id :: id in FoldLast(old(journal)) ==>
        PassLeaves(FoldLast(old(journal))[id], answers(id), id in old(retry), LastRow(journal, id))
      ensures wallet ==> AccessGiven(FoldLast(old(journal)), answers, old(retry), old(served), served)
      ensures !wallet ==> journal == old(journal) && served == old(served)
      ensures SweepMoves(ClosedOf(old(journal)), old(manager.Mem()), now, sweepSave) <= trace
    {
      ghost var w0 := State();
      trace := SweepClosed(now, sweepSave);
      ghost var w1 := State();
      if wallet {
        ghost var t := AskAndSettle(now, answers);
        Chain(w0, trace, w1, t, State());
        trace := trace + t;
      }
    }

    /** Ask the mint about every undecided entry, and settle what is due. */
    method AskAndSettle(now: nat, answers: string -> Answers) returns (ghost trace: seq<Move>)
      modifies this, manager, dir
      ensures Runs(old(State()), trace, State()) && PassMoves(trace, now)
      ensures forall id :: id in FoldLast(old(journal)) ==>
        PassLeaves(FoldLast(old(journal))[id], answers(id), id in old(retry), LastRow(journal, id))
      ensures AccessGiven(FoldLast(old(journal)), answers, old(retry), old(served), served)
    {
      ghost var w1, folded := State(), FoldLast(journal);
      var report, grants;
      ghost var t;
      report, grants, trace := Reconcile(answers);
      forall i | 0 <= i < |grants| ensures Row(grants[i].id, grants[i].entry) in journal {
        assert GrantIsDue(grants[i], folded, answers);
        FoldedIsHanded(w1.journal, journal, grants[i].id);
      }
      ghost var w2 := State();
      t := SettleGrants(grants, now, folded, answers);
      AllProcessed(grants, folded, answers, w2.retry, journal);
      AllAccess(grants, folded, answers, w2.retry, w2.served, served);
      Chain(w1, trace, w2, t, State());
      trace := trace + t;
    }
  }

  /** What becomes of the last row of an entry whose grant is due: it stays, or notes the delivery, or closes the entry
      as spent.  It closes when nothing fails, it stays open when the terminal row is lost, and it stays when the gate
      does not open for an entry that was not delivered before. */
  predicate GrantLeaves(entry: Payment, amount: nat, a: Answers, retried: bool, before: Option<Payment>,
                        last: Option<Payment>) {
    var noted, spent := Some(entry.(gateOpened := true)), Some(entry.(phase := ReconcileSpent(amount)));
    && (last == before || last == noted || last == spent)
    && (Smooth(a) ==> last == spent)
    && (a.terminalAppend.AppendLost? ==> last == before || last == noted)
    && (!retried && !a.gateOpens && !entry.gateOpened ==> last == before)
  }

  lemma GrantRows(j0: Journal, j1: Journal, j2: Journal, id: string, entry: Payment, amount: nat, a: Answers, ok: bool,
                  retried: bool)
    requires j1 == j0 || j1 == j0 + [Row(id, entry.(gateOpened := true))]
    requires j2 ==
      if !ok || a.terminalAppend.AppendLost? then j1 else j1 + [Row(id, entry.(phase := ReconcileSpent(amount)))]
    requires (Smooth(a) ==> ok) && (!retried && !a.gateOpens && !entry.gateOpened ==> !ok && j1 == j0)
    ensures j0 <= j2 && OnlyRow(j0, j2, id)
    ensures GrantLeaves(entry, amount, a, retried, LastRow(j0, id), LastRow(j2, id))
  {
    LogRow(j0, id, entry.(gateOpened := true));
    LogRow(j1, id, entry.(phase := ReconcileSpent(amount)));
  }

  /** What a pass leaves as the last row of an entry. */
  predicate PassLeaves(entry: Payment, a: Answers, retried: bool, last: Option<Payment>) {
    if !Due(entry, a) then last == Some(Decided(entry, a))
    else if entry.mac != CLI_FUND_MAC then GrantLeaves(entry, a.token.amountSat, a, retried, Some(entry), last)
    else if a.terminalAppend.AppendLost? then last == Some(entry)
    else last == Some(entry.(phase := ReconcileSpent(a.token.amountSat)))
  }

  /** The first `n` grants are dealt with, everything else is as the mint's answers left it. */
  ghost predicate Progress(grants: seq<GrantDue>, n: nat, folded: map<string, Payment>, answers: string -> Answers,
                           retried: set<string>, j: Journal)
    requires n <= |grants|
  {
    forall id :: id in folded ==>
      if exists i :: 0 <= i < n && grants[i].id == id
      then PassLeaves(folded[id], answers(id), id in retried, LastRow(j, id))
      else LastRow(j, id) == Some(Decided(folded[id], answers(id)))
  }

  /** Of the first `n` grants, who has access. */
  ghost predicate AllServed(grants: seq<GrantDue>, n: nat, answers: string -> Answers, retried: set<string>,
                            before: set<string>, after: set<string>)
    requires n <= |grants|
  {
    && before <= after
    && (forall i :: 0 <= i < n && MustServe(grants[i].entry, answers(grants[i].id), grants[i].id in retried) ==>
          grants[i].id in after || grants[i].entry.gateOpened)
    && forall id :: id in after && id !in before ==>
         exists i :: 0 <= i < n && grants[i].id == id && MayServe(grants[i].entry, answers(id), id in retried)
  }

  predicate MustServe(entry: Payment, a: Answers, retried: bool) {
    Smooth(a) && entry.mac != CLI_FUND_MAC && !retried
  }

  predicate MayServe(entry: Payment, a: Answers, retried: bool) {
    a.gateOpens && entry.mac != CLI_FUND_MAC && !retried
  }

  lemma ServedOneMore(grants: seq<GrantDue>, n: nat, answers: string -> Answers, retried: set<string>,
                      before: set<string>, mid: set<string>, after: set<string>)
    requires n < |grants| && AllServed(grants, n, answers, retried, before, mid)
    requires Serves(mid, after, grants[n].id, grants[n].entry, answers(grants[n].id), grants[n].id in retried)
    ensures AllServed(grants, n + 1, answers, retried, before, after)
  {
    forall id | id in after && id !in before
      ensures exists i :: 0 <= i < n + 1 && grants[i].id == id && MayServe(grants[i].entry, answers(id), id in retried)
    {
      if id in mid {
        var i :| 0 <= i < n && grants[i].id == id && MayServe(grants[i].entry, answers(id), id in retried);
      } else {
        assert grants[n].id == id;
      }
    }
  }

  /** Who has access after a pass: nobody whom the portal refuses, and nobody whose entry was not due; and whoever was
      due when nothing failed. */
  ghost predicate AccessGiven(folded: map<string, Payment>, answers: string -> Answers, retried: set<string>,
                              before: set<string>, after: set<string>) {
    && before <= after
    && (forall id :: id in after && id !in before ==>
          id in folded && Due(folded[id], answers(id)) && MayServe(folded[id], answers(id), id in retried))
    && forall id :: id in folded && Due(folded[id], answers(id)) ==>
         MustServe(folded[id], answers(id), id in retried) ==> id in after || folded[id].gateOpened
  }

  lemma AllAccess(grants: seq<GrantDue>, folded: map<string, Payment>, answers: string -> Answers,
                  retried: set<string>, before: set<string>, after: set<string>)
    requires Lists(grants, folded, answers, folded.Keys)
    requires AllServed(grants, |grants|, answers, retried, before, after)
    ensures AccessGiven(folded, answers, retried, before, after)
  {
    forall id | id in after && id !in before
      ensures id in folded && Due(folded[id], answers(id)) && MayServe(folded[id], answers(id), id in retried)
    {
      var i :| 0 <= i < |grants| && grants[i].id == id && MayServe(grants[i].entry, answers(id), id in retried);
      assert GrantIsDue(grants[i], folded, answers);
    }
    forall id | id in folded && Due(folded[id], answers(id)) && MustServe(folded[id], answers(id), id in retried)
      ensures id in after || folded[id].gateOpened
    {
      var i :| 0 <= i < |grants| && grants[i].id == id;
      assert GrantIsDue(grants[i], folded, answers);
    }
  }

  lemma ProgressOneMore(grants: seq<GrantDue>, n: nat, folded: map<string, Payment>, answers: string -> Answers,
                        retried: set<string>, j: Journal, j': Journal)
    requires n < |grants| && Progress(grants, n, folded, answers, retried, j) && OnlyRow(j, j', grants[n].id)
    requires var id := grants[n].id; id in folded ==>
      PassLeaves(folded[id], answers(id), id in retried, LastRow(j', id))
    ensures Progress(grants, n + 1, folded, answers, retried, j')
  {}

  /** The entry of the next grant is as it was when the pass began. */
  lemma NextIsUntouched(grants: seq<GrantDue>, n: nat, folded: map<string, Payment>, answers: string -> Answers,
                        retried: set<string>, j: Journal)
    requires n < |grants| && Lists(grants, folded, answers, folded.Keys) &&
      Progress(grants, n, folded, answers, retried, j)
    ensures var g := grants[n];
      && g.id in folded && g.entry == folded[g.id] && Due(g.entry, answers(g.id)) &&
        g.amountSat == answers(g.id).token.amountSat
      && LastRow(j, g.id) == Some(g.entry)
  {
    assert GrantIsDue(grants[n], folded, answers);
  }

  lemma RetryElsewhere(grants: seq<GrantDue>, n: nat, before: set<string>, after: set<string>, retried: set<string>)
    requires n < |grants| && after - {grants[n].id} == before - {grants[n].id}
    requires forall i, j :: 0 <= i < j < |grants| ==> grants[i].id != grants[j].id
    requires forall j :: n <= j < |grants| ==> (grants[j].id in before <==> grants[j].id in retried)
    ensures forall j :: n < j < |grants| ==> (grants[j].id in after <==> grants[j].id in retried)
  {
    forall j | n < j < |grants| ensures grants[j].id in after <==> grants[j].id in before {
      assert grants[j].id in after - {grants[n].id} <==> grants[j].id in before - {grants[n].id};
    }
  }

  lemma AllProcessed(grants: seq<GrantDue>, folded: map<string, Payment>, answers: string -> Answers,
                     retried: set<string>, j: Journal)
    requires Lists(grants, folded, answers, folded.Keys) && Progress(grants, |grants|, folded, answers, retried, j)
    ensures forall id :: id in folded ==> PassLeaves(folded[id], answers(id), id in retried, LastRow(j, id))
  {}

  /** The entry is undecided, the mint says it is spent, and the amount buys at least one step. */
  predicate Due(entry: Payment, a: Answers) {
    NeedsReconciliation(entry.phase) && a.token.Spent? && CashuRuns.Steps(entry, a.token.amountSat) > 0
  }

  predicate GrantIsDue(g: GrantDue, folded: map<string, Payment>, answers: string -> Answers) {
    g.id in folded && g.entry == folded[g.id] && Due(g.entry, answers(g.id)) &&
      g.amountSat == answers(g.id).token.amountSat
  }

  /** `grants` names exactly the entries of `done` that are due, each once. */
  ghost predicate Lists(grants: seq<GrantDue>, folded: map<string, Payment>, answers: string -> Answers,
                        done: set<string>) {
    && (forall i :: 0 <= i < |grants| ==> GrantIsDue(grants[i], folded, answers) && grants[i].id in done)
    && (forall i, j :: 0 <= i < j < |grants| ==> grants[i].id != grants[j].id)
    && (forall id :: id in done && id in folded && Due(folded[id], answers(id)) ==>
      exists i :: 0 <= i < |grants| && grants[i].id == id)
  }

  /** Every entry but those of `todo` has the last row that the mint's answer leaves it. */
  ghost predicate AskedAll(folded: map<string, Payment>, answers: string -> Answers, todo: set<string>, j: Journal) {
    FoldLast(j) == map id | id in folded :: if id in todo then folded[id] else Decided(folded[id], answers(id))
  }

  lemma AskedOneMore(folded: map<string, Payment>, answers: string -> Answers, todo: set<string>, j: Journal,
                     id: string)
    requires AskedAll(folded, answers, todo, j) && id in todo && id in folded
    ensures var after := Decided(folded[id], answers(id));
      AskedAll(folded, answers, todo - {id}, if after == folded[id] then j else j + [Row(id, after)])
  {}

  function UndecidedOf(folded: map<string, Payment>, done: set<string>): set<string> {
    set id | id in done && id in folded && NeedsReconciliation(folded[id].phase)
  }

  lemma UndecidedOneMore(folded: map<string, Payment>, todo: set<string>, id: string)
    requires id in todo && todo <= folded.Keys
    ensures |UndecidedOf(folded, folded.Keys - (todo - {id}))| ==
      |UndecidedOf(folded, folded.Keys - todo)| + if NeedsReconciliation(folded[id].phase) then 1 else 0
  {
    var before, after := UndecidedOf(folded, folded.Keys - todo), UndecidedOf(folded, folded.Keys - (todo - {id}));
    assert after == if NeedsReconciliation(folded[id].phase) then before + {id} else before;
  }

  lemma ListsOneMore(grants: seq<GrantDue>, folded: map<string, Payment>, answers: string -> Answers,
                     done: set<string>, id: string)
    requires Lists(grants, folded, answers, done) && id !in done && id in folded
    ensures var due := Due(folded[id], answers(id));
      var listed := if due then grants + [GrantDue(id, folded[id], answers(id).token.amountSat)] else grants;
      Lists(listed, folded, answers, done + {id})
  {
    if Due(folded[id], answers(id)) {
      var more := grants + [GrantDue(id, folded[id], answers(id).token.amountSat)];
      forall k | k in done + {id} && k in folded && Due(folded[k], answers(k))
        ensures exists i :: 0 <= i < |more| && more[i].id == k
      {
        if k == id {
          assert more[|grants|].id == k;
        } else {
          var i :| 0 <= i < |grants| && grants[i].id == k;
          assert more[i].id == k;
        }
      }
    }
  }

  /** A folded row is a row of the journal, and of every longer journal. */
  lemma FoldedIsHanded(j: Journal, j': Journal, id: string)
    requires id in FoldLast(j) && j <= j'
    ensures Row(id, FoldLast(j)[id]) in j'
  {}

  method SetToSeq(s: set<string>) returns (q: seq<string>)
    ensures forall x :: x in q <==> x in s
  {
    q := [];
    var todo := s;
    while todo != {}
      invariant todo <= s
      invariant forall x :: x in q <==> x in s - todo
    {
      var x :| x in todo;
      q := q + [x];
      todo := todo - {x};
    }
  }
}
