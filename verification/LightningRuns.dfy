/** Lightning settlement as a state machine: mint, mark minted, add the allotment, open the gate, mark granted,
    forget.  Each move is one durable step of a settle pass or of another actor, so a crash may fall between
    any two of them. */
module LightningRuns {
  import opened Options
  import opened GrantLedger
  import L = LedgerRuns
  import C = LedgerCredits

  const GRANT_SECS: nat := 3600
  const RETENTION_SECS: nat := 6 * 3600

  datatype MintState = Unpaid | Paid | Issued

  datatype Quote = Quote(
    mint: string,
    mac: Mac,
    amountSat: nat,
    createdAt: nat,
    expiry: nat,
    minted: bool,
    allotment: nat,
    metric: string,
    allotmentAdded: bool,
    sessionGranted: bool)

  datatype Config = Config(metric: string, stepSize: nat, prices: map<string, nat>)

  /** Where the running pass stands between two of its steps; lost with the process. */
  datatype Stage =
    | Idle
    | ConfirmedUnpaid(quote: string)
    | Recreated(quote: string, now: nat, fits: bool)
    | Gated(quote: string)

  /** `withheld` are the quotes whose invoice no customer was ever shown; `taken` are the snapshots that payment
      handlers hold while they open the gate, both lost with the process as far as memory goes.  `mint`, `seen`
      (every quote ever created) and `served` (every quote the gate was served for) are the proof's view of the
      outside world. */
  datatype World = World(
    cfg: Config,
    ledger: Ledger,
    quotes: map<string, Quote>,
    file: map<string, Quote>,
    at: Stage,
    withheld: set<string>,
    taken: set<(Mac, L.Taken)>,
    mint: map<string, MintState>,
    seen: set<string>,
    served: set<string>)

  predicate Expired(r: Quote, now: nat) {
    r.expiry != 0 && r.expiry < now
  }

  predicate Stale(r: Quote, now: nat) {
    now - r.createdAt > RETENTION_SECS
  }

  /** The allotment frozen at creation; a record that predates the field is priced from the config. */
  function Terms(cfg: Config, r: Quote): nat {
    if r.allotment > 0 then r.allotment % U64
    else
      var price := if r.mint in cfg.prices && cfg.prices[r.mint] > 0 then cfg.prices[r.mint] else 1;
      (r.amountSat / price) * cfg.stepSize % U64
  }

  function Metric(cfg: Config, r: Quote): string {
    if r.metric == "" then cfg.metric else r.metric
  }

  function MintOf(w: World, q: string): MintState {
    if q in w.mint then w.mint[q] else Unpaid
  }

  predicate Ungranted(quotes: map<string, Quote>, q: string) {
    q in quotes && !quotes[q].sessionGranted
  }

  /** Quotes that memory, or the file a restart would read, still has to settle. */
  function Open(w: World): set<string> {
    (set q | q in w.quotes && Ungranted(w.quotes, q)) + (set q | q in w.file && Ungranted(w.file, q))
  }

  /** The quotes' grants, those still to be settled, and those created so far. */
  ghost function WatchOf(w: World): C.Watch {
    C.Watch(iset g: GrantId | g.Lightning?,
            iset g: GrantId | g.Lightning? && g.quote in Open(w),
            iset g: GrantId | g.Lightning? && g.quote in w.seen)
  }

  // ---------------------------------------------------------------- moves

  /** `lost` marks a store write that failed without killing the process: memory moves on, the file does not. */
  datatype Move =
    | NewQuote(quote: string, record: Quote, lost: bool)
    | Withhold(quote: string, lost: bool)
    | CustomerPays(quote: string)
    | MintIssues(quote: string)
    | MarkMinted(quote: string, lost: bool)
    | ConfirmUnpaid(quote: string, now: nat)
    | DropUnpaid(quote: string, lost: bool)
    | AddFirst(quote: string, now: nat)
    | MarkAdded(quote: string, lost: bool)
    | Recreate(quote: string, now: nat, fault: Fault)
    | OpenGate(quote: string, now: nat)
    | MarkGranted(quote: string, lost: bool)
    | ForgetSettled(ids: set<string>)
    | Sweep(now: nat, lost: bool)
    | TakeSnapshot(mac: Mac)
    | RollBackLate(mac: Mac, snapshot: L.Taken)
    | Other(step: L.Timed)
    | Restart

  predicate Loses(m: Move) {
    match m
    case NewQuote(_, _, lost) => lost
    case Withhold(_, lost) => lost
    case MarkMinted(_, lost) => lost
    case DropUnpaid(_, lost) => lost
    case MarkAdded(_, lost) => lost
    case MarkGranted(_, lost) => lost
    case Sweep(_, lost) => lost
    case _ => false
  }

  predicate Over(r: Quote, now: nat) {
    Expired(r, now) || Stale(r, now)
  }

  predicate AwaitsAllotment(w: World, q: string)
    requires q in w.quotes
  {
    w.quotes[q].minted && !w.quotes[q].allotmentAdded
  }

  /** The ledger recognises the quote's grant. */
  predicate Tagged(w: World, q: string)
    requires q in w.quotes
  {
    HasGrant(w.ledger.mem, w.quotes[q].mac, Lightning(q))
  }

  predicate CarriedLive(w: World, q: string, now: nat)
    requires q in w.quotes
  {
    HasLiveGrant(w.ledger.mem, w.quotes[q].mac, Lightning(q), now)
  }

  predicate Pending(w: World, q: string) {
    Ungranted(w.quotes, q)
  }

  ghost predicate Enabled(w: World, m: Move) {
    match m
    case NewQuote(q, r, _) =>
      q !in w.seen && q !in w.mint && !r.minted && !r.allotmentAdded && !r.sessionGranted
    case Withhold(q, _) => q in w.withheld && q in w.quotes
    case CustomerPays(q) => q in w.seen && q !in w.withheld && MintOf(w, q) == Unpaid
    case MintIssues(q) => MintOf(w, q) == Paid
    case MarkMinted(q, _) => Pending(w, q) && !w.quotes[q].minted && MintOf(w, q) == Issued
    case ConfirmUnpaid(q, now) =>
      Pending(w, q) && !w.quotes[q].minted && MintOf(w, q) == Unpaid && Over(w.quotes[q], now)
    case DropUnpaid(q, _) => Pending(w, q) && w.at == ConfirmedUnpaid(q)
    case AddFirst(q, _) => Pending(w, q) && AwaitsAllotment(w, q) && !Tagged(w, q)
    case MarkAdded(q, _) => Pending(w, q) && AwaitsAllotment(w, q) && Tagged(w, q)
    case Recreate(q, now, _) => Pending(w, q) && w.quotes[q].allotmentAdded && !CarriedLive(w, q, now)
    case OpenGate(q, now) =>
      Pending(w, q) && w.quotes[q].allotmentAdded &&
      (CarriedLive(w, q, now) || (w.at.Recreated? && w.at.quote == q && w.at.now == now))
    case MarkGranted(q, _) => Pending(w, q) && w.at == Gated(q)
    case ForgetSettled(ids) => forall q :: q in ids ==> q in w.quotes && w.quotes[q].sessionGranted
    case Sweep(_, _) => true
    case TakeSnapshot(mac) => mac in w.ledger.mem.sessions ==> L.Tidy(w.ledger.mem.sessions[mac])
    case RollBackLate(mac, snapshot) => (mac, snapshot) in w.taken
    case Other(t) =>
      !t.action.Crash? && !t.action.RollBackLate? && forall id :: id in L.Touched(t.action) ==> id.Cashu?
    case Restart => true
  }

  /** The records that the sweep retains. */
  function Swept(quotes: map<string, Quote>, now: nat): map<string, Quote> {
    map q | q in quotes && (!Over(quotes[q], now) || !quotes[q].sessionGranted) :: quotes[q]
  }

  /** Every store write rewrites the whole file. */
  function Upsert(w: World, q: string, r: Quote, lost: bool): World {
    var quotes := w.quotes[q := r];
    w.(quotes := quotes, file := if lost then w.file else quotes, at := Idle)
  }

  function Keep(w: World, quotes: map<string, Quote>, lost: bool): World {
    w.(quotes := quotes, file := if lost then w.file else quotes, at := Idle)
  }

  /** Whether a recreated grant ends up live: a live sibling is extended modulo 2^64, anything else is replaced. */
  predicate Fits(m: Memory, mac: Mac, amount: nat, now: nat) {
    if IsActive(m, mac, now) then m.sessions[mac].used < (m.sessions[mac].allotment + amount) % U64 else amount > 0
  }

  function RecreateStep(w: World, q: string, now: nat, fault: Fault): L.Timed
    requires q in w.quotes
  {
    var r := w.quotes[q];
    L.Timed(L.RecreateOrRollBack(r.mac, Metric(w.cfg, r), Terms(w.cfg, r), GRANT_SECS, Lightning(q), true, fault), now)
  }

  function AddStep(w: World, q: string, now: nat): L.Timed
    requires q in w.quotes
  {
    var r := w.quotes[q];
    L.Timed(L.Extend(r.mac, Metric(w.cfg, r), Terms(w.cfg, r), GRANT_SECS, Lightning(q)), now)
  }

  function Ids(qs: set<string>): set<GrantId> {
    set q | q in qs :: Lightning(q)
  }

  function Ledgered(w: World, t: L.Timed): World {
    w.(ledger := L.Step(w.ledger, t).0, at := Idle)
  }

  ghost function Next(w: World, m: Move): World
    requires Enabled(w, m)
  {
    match m
    case NewQuote(q, r, lost) =>
      Upsert(w, q, r, lost).(seen := w.seen + {q}, withheld := if lost then w.withheld + {q} else w.withheld)
    case Withhold(q, lost) => Keep(w, w.quotes - {q}, lost)
    case CustomerPays(q) => w.(mint := w.mint[q := Paid])
    case MintIssues(q) => w.(mint := w.mint[q := Issued])
    case MarkMinted(q, lost) => Upsert(w, q, w.quotes[q].(minted := true), lost)
    case ConfirmUnpaid(q, _) => w.(at := ConfirmedUnpaid(q))
    case DropUnpaid(q, lost) => Keep(w, w.quotes - {q}, lost)
    case AddFirst(q, now) => Ledgered(w, AddStep(w, q, now))
    case MarkAdded(q, lost) => Upsert(w, q, w.quotes[q].(allotmentAdded := true), lost)
    case Recreate(q, now, fault) =>
      var r := w.quotes[q];
      var (l, ok) := L.Step(w.ledger, RecreateStep(w, q, now, fault));
      w.(ledger := l, at := if ok then Recreated(q, now, Fits(w.ledger.mem, r.mac, Terms(w.cfg, r), now)) else Idle)
    case OpenGate(q, _) => w.(served := w.served + {q}, at := Gated(q))
    case MarkGranted(q, lost) => Upsert(w, q, w.quotes[q].(sessionGranted := true), lost)
    case ForgetSettled(ids) => Ledgered(w, L.Timed(L.ForgetIds(Ids(ids)), 0))
    case Sweep(now, lost) => Keep(w, Swept(w.quotes, now), lost)
    case TakeSnapshot(mac) => w.(taken := w.taken + {(mac, Snapshot(w.ledger.mem, mac))})
    case RollBackLate(mac, snapshot) => Ledgered(w, L.Timed(L.RollBackLate(mac, snapshot), 0))
    case Other(t) => Ledgered(w, t)
    case Restart => w.(ledger := Reload(w.ledger), quotes := w.file, taken := {}, at := Idle)
  }

  ghost predicate Valid(w: World, ms: seq<Move>) {
    ms == [] || (Valid(w, ms[..|ms| - 1]) && Enabled(Exec(w, ms[..|ms| - 1]), ms[|ms| - 1]))
  }

  ghost function Exec(w: World, ms: seq<Move>): World {
    if ms == [] then w
    else
      var v := Exec(w, ms[..|ms| - 1]);
      if Enabled(v, ms[|ms| - 1]) then Next(v, ms[|ms| - 1]) else v
  }

  ghost predicate Does(w: World, m: Move, w': World) {
    Enabled(w, m) && w' == Next(w, m)
  }

  /** `ms` is a run from `w` to `w'`. */
  ghost predicate Runs(w: World, ms: seq<Move>, w': World) {
    Valid(w, ms) && Exec(w, ms) == w'
  }

  lemma NoMoves(w: World)
    ensures Runs(w, [], w)
  {}

  lemma OneMore(w: World, ms: seq<Move>, v: World, m: Move, w': World)
    requires Runs(w, ms, v) && Does(v, m, w')
    ensures Runs(w, ms + [m], w')
  {}

  lemma {:induction false} Chain(w: World, ms: seq<Move>, v: World, ms': seq<Move>, w': World)
    requires Runs(w, ms, v) && Runs(v, ms', w')
    ensures Runs(w, ms + ms', w')
  {
    if ms' == [] {
      assert ms + ms' == ms;
    } else {
      var prev, m := ms'[..|ms'| - 1], ms'[|ms'| - 1];
      Chain(w, ms, v, prev, Exec(v, prev));
      OneMore(w, ms + prev, Exec(v, prev), m, w');
      assert ms + ms' == ms + prev + [m];
    }
  }

  // ---------------------------------------------------------------- the invariant

  ghost predicate RecordOk(w: World, q: string, r: Quote) {
    && q in w.seen
    && (r.minted ==> MintOf(w, q) == Issued)
    && (r.allotmentAdded ==> r.minted)
    && (r.sessionGranted ==> r.allotmentAdded && q in w.served)
  }

  ghost predicate RecordsOk(w: World, quotes: map<string, Quote>) {
    forall q :: q in quotes ==> RecordOk(w, q, quotes[q])
  }

  ghost predicate StageOk(w: World) {
    match w.at
    case Idle => true
    case ConfirmedUnpaid(q) => Pending(w, q) && !w.quotes[q].minted
    case Recreated(q, now, fits) =>
      Pending(w, q) && w.quotes[q].allotmentAdded &&
      var mac := w.quotes[q].mac;
      mac in w.ledger.mem.sessions && Lightning(q) in w.ledger.mem.sessions[mac].applied &&
        w.ledger.mem.sessions[mac].expiry > now
      && (HasLiveGrant(w.ledger.mem, mac, Lightning(q), now) <==> fits)
    case Gated(q) => Pending(w, q) && w.quotes[q].allotmentAdded && q in w.served
  }

  /** A grant id is forgotten only when the record in the file is granted too.  The settle pass sees to that
      itself (it forgets after a write that answered Ok); the monitor's sweep of settled quotes does not. */
  ghost predicate ForgetsDurably(w: World, m: Move) {
    m.ForgetSettled? ==> forall q :: q in m.ids ==> !Ungranted(w.file, q)
  }

  ghost predicate Careful(w: World, ms: seq<Move>) {
    ms == [] || (Careful(w, ms[..|ms| - 1]) && ForgetsDurably(Exec(w, ms[..|ms| - 1]), ms[|ms| - 1]))
  }

  /** A snapshot that a rollback may put back is as good as the sessions in memory. */
  ghost predicate SnapshotOk(w: World, snapshot: L.Taken) {
    snapshot.Some? ==>
      && C.Good(snapshot.value, WatchOf(w))
      && forall q :: Lightning(q) in SessionIds(snapshot.value) ==> MintOf(w, q) == Issued && q in w.seen
  }

  ghost predicate LedgerOk(w: World) {
    && L.Sound(w.ledger)
    && C.LedgerGood(w.ledger, WatchOf(w))
    && (forall q :: C.Known(w.ledger, Lightning(q)) ==> MintOf(w, q) == Issued && q in w.seen)
    && (forall p :: p in w.taken ==> SnapshotOk(w, p.1))
  }

  /** Memory and file agree on whose quote it is, and only a withheld quote can be missing in the file. */
  ghost predicate StoresAgree(w: World) {
    && (forall q :: q in w.quotes && q in w.file ==> w.file[q].mac == w.quotes[q].mac)
    && (forall q :: q in w.quotes ==> q in w.file || q in w.withheld)
    && (forall q :: q in w.withheld ==> q in w.seen && MintOf(w, q) == Unpaid)
  }

  ghost predicate Inv(w: World) {
    StoresAgree(w) && RecordsOk(w, w.quotes) && RecordsOk(w, w.file) && LedgerOk(w) && StageOk(w)
  }

  // ---------------------------------------------------------------- every move keeps it

  /** A move that leaves the ledger and the mint alone and opens no quote that was ever seen before. */
  lemma StoreMoveKeeps(w: World, w': World)
    requires Inv(w)
    requires w'.ledger == w.ledger && w'.mint == w.mint && w.seen <= w'.seen && w'.taken <= w.taken
    requires StoresAgree(w') && RecordsOk(w', w'.quotes) && RecordsOk(w', w'.file)
    requires forall q :: q in Open(w') && q in w.seen ==> q in Open(w)
    requires StageOk(w')
    ensures Inv(w')
  {
    assert C.MovesOn(WatchOf(w), WatchOf(w'));
    C.GoodMovesOn(w.ledger, WatchOf(w), WatchOf(w'));
    forall p | p in w'.taken ensures SnapshotOk(w', p.1) {
      assert SnapshotOk(w, p.1);
    }
  }

  /** Updating one record, durably or not. */
  lemma UpsertKeeps(w: World, q: string, r: Quote, lost: bool)
    requires Inv(w) && Pending(w, q) && RecordOk(w, q, r) && r.mac == w.quotes[q].mac
    ensures Inv(Upsert(w, q, r, lost))
  {
    var w' := Upsert(w, q, r, lost);
    forall k | k in w'.quotes ensures RecordOk(w', k, w'.quotes[k]) {
      if k != q { assert RecordOk(w, k, w.quotes[k]); }
    }
    forall k | k in w'.file ensures RecordOk(w', k, w'.file[k]) {
      if lost { assert RecordOk(w, k, w.file[k]); } else { assert RecordOk(w', k, w'.quotes[k]); }
    }
    forall k | k in Open(w') ensures k in Open(w) {
      if k in w'.quotes && Ungranted(w'.quotes, k) { assert Ungranted(w.quotes, k); }
    }
    StoreMoveKeeps(w, w');
  }

  /** Dropping records, durably or not. */
  lemma KeepKeeps(w: World, quotes: map<string, Quote>, lost: bool)
    requires Inv(w)
    requires forall q :: q in quotes ==> q in w.quotes && quotes[q] == w.quotes[q]
    ensures Inv(Keep(w, quotes, lost))
  {
    var w' := Keep(w, quotes, lost);
    forall k | k in w'.quotes ensures RecordOk(w', k, w'.quotes[k]) { assert RecordOk(w, k, w.quotes[k]); }
    forall k | k in w'.file ensures RecordOk(w', k, w'.file[k]) {
      if lost { assert RecordOk(w, k, w.file[k]); } else { assert RecordOk(w', k, w'.quotes[k]); }
    }
    forall k | k in Open(w') ensures k in Open(w) {
      if k in w'.quotes && Ungranted(w'.quotes, k) { assert Ungranted(w.quotes, k); }
    }
    StoreMoveKeeps(w, w');
  }

  lemma NewQuoteKeeps(w: World, q: string, r: Quote, lost: bool)
    requires Inv(w) && Enabled(w, NewQuote(q, r, lost))
    ensures Inv(Next(w, NewQuote(q, r, lost)))
  {
    var w' := Next(w, NewQuote(q, r, lost));
    forall k | k in w'.quotes ensures RecordOk(w', k, w'.quotes[k]) {
      if k != q { assert RecordOk(w, k, w.quotes[k]); }
    }
    forall k | k in w'.file ensures RecordOk(w', k, w'.file[k]) {
      if lost { assert RecordOk(w, k, w.file[k]); } else { assert RecordOk(w', k, w'.quotes[k]); }
    }
    forall k | k in Open(w') && k in w.seen ensures k in Open(w) {
      if k in w'.quotes && Ungranted(w'.quotes, k) { assert Ungranted(w.quotes, k); }
    }
    forall k | k in w.file ensures k in w.seen { assert RecordOk(w, k, w.file[k]); }
    StoreMoveKeeps(w, w');
  }

  lemma MarkKeeps(w: World, m: Move)
    requires Inv(w) && Enabled(w, m) && (m.MarkMinted? || m.MarkAdded? || m.MarkGranted?)
    ensures Inv(Next(w, m))
  {
    var r := w.quotes[m.quote];
    assert RecordOk(w, m.quote, r);
    match m {
      case MarkMinted(q, lost) => UpsertKeeps(w, q, r.(minted := true), lost);
      case MarkAdded(q, lost) => UpsertKeeps(w, q, r.(allotmentAdded := true), lost);
      case MarkGranted(q, lost) => UpsertKeeps(w, q, r.(sessionGranted := true), lost);
    }
  }

  lemma DropKeeps(w: World, m: Move)
    requires Inv(w) && Enabled(w, m) && (m.Withhold? || m.DropUnpaid? || m.Sweep?)
    ensures Inv(Next(w, m))
  {
    match m {
      case Withhold(q, lost) => KeepKeeps(w, w.quotes - {q}, lost);
      case DropUnpaid(q, lost) => KeepKeeps(w, w.quotes - {q}, lost);
      case Sweep(now, lost) => KeepKeeps(w, Swept(w.quotes, now), lost);
    }
  }

  /** Moves that only change the stage of the pass and note that the gate opened. */
  lemma StageMoveKeeps(w: World, w': World)
    requires Inv(w) && w.served <= w'.served && w' == w.(at := w'.at, served := w'.served) && StageOk(w')
    ensures Inv(w')
  {
    forall p | p in w'.taken ensures SnapshotOk(w', p.1) {
      assert SnapshotOk(w, p.1);
    }
  }

  lemma PassMoveKeeps(w: World, m: Move)
    requires Inv(w) && Enabled(w, m) && (m.ConfirmUnpaid? || m.OpenGate?)
    ensures Inv(Next(w, m))
  {
    StageMoveKeeps(w, Next(w, m));
  }

  /** A ledger step taken with the quotes untouched. */
  lemma LedgerMoveKeeps(w: World, t: L.Timed)
    requires Inv(w) && C.Respectful(w.ledger, t, WatchOf(w))
    requires forall q :: Lightning(q) in L.Names(t.action) ==> MintOf(w, q) == Issued && q in w.seen
    ensures Inv(Ledgered(w, t))
  {
    var w' := Ledgered(w, t);
    L.StepKeeps(w.ledger, t, Cashu(""));
    C.StepGood(w.ledger, t, WatchOf(w));
    assert Open(w') == Open(w);
    forall q | C.Known(w'.ledger, Lightning(q)) ensures MintOf(w', q) == Issued && q in w'.seen {
      if Lightning(q) !in L.Names(t.action) {
        C.StepInventsNothing(w.ledger, t, Lightning(q));
      }
    }
    forall p | p in w'.taken ensures SnapshotOk(w', p.1) { assert SnapshotOk(w, p.1); }
    forall k | k in w'.quotes ensures RecordOk(w', k, w'.quotes[k]) { assert RecordOk(w, k, w.quotes[k]); }
    forall k | k in w'.file ensures RecordOk(w', k, w'.file[k]) { assert RecordOk(w, k, w.file[k]); }
  }

  lemma AddFirstKeeps(w: World, q: string, now: nat)
    requires Inv(w) && Enabled(w, AddFirst(q, now))
    ensures Inv(Next(w, AddFirst(q, now)))
  {
    assert RecordOk(w, q, w.quotes[q]) && q in Open(w);
    LedgerMoveKeeps(w, AddStep(w, q, now));
  }

  /** A recreated session carries the quote, and is live exactly if the sum fits. */
  lemma RecreatedCarries(m: Memory, mac: Mac, metric: string, amount: nat, id: GrantId, now: nat)
    ensures var m' := GrantLedger.Recreated(m, mac, metric, amount, GRANT_SECS, id, true, now);
      && mac in m'.sessions && id in m'.sessions[mac].applied && m'.sessions[mac].expiry > now
      && (HasLiveGrant(m', mac, id, now) <==> Fits(m, mac, amount, now))
  {}

  lemma SavedSessions(l: Ledger, granted: Memory, mac: Mac, now: nat, fault: Fault)
    ensures var (l', ok) := SaveOrRollBack(l, granted, mac, now, fault);
      ok ==> l'.mem.sessions == granted.sessions
  {}

  lemma RecreateKeeps(w: World, q: string, now: nat, fault: Fault)
    requires Inv(w) && Enabled(w, Recreate(q, now, fault))
    ensures Inv(Next(w, Recreate(q, now, fault)))
  {
    var r, m := w.quotes[q], w.ledger.mem;
    assert RecordOk(w, q, r) && q in Open(w);
    var t := RecreateStep(w, q, now, fault);
    LedgerMoveKeeps(w, t);
    var metric, amount := Metric(w.cfg, r), Terms(w.cfg, r);
    var granted := GrantLedger.Recreated(m, r.mac, metric, amount, GRANT_SECS, Lightning(q), true, now);
    RecreatedCarries(m, r.mac, metric, amount, Lightning(q), now);
    SavedSessions(w.ledger, granted, r.mac, now, fault);
    StageMoveKeeps(Ledgered(w, t), Next(w, Recreate(q, now, fault)));
  }

  /** The mint only moves forward, and no withheld invoice is paid. */
  lemma MintMoveKeeps(w: World, m: Move)
    requires Inv(w) && Enabled(w, m) && (m.CustomerPays? || m.MintIssues?)
    ensures Inv(Next(w, m))
  {
    var w' := Next(w, m);
    assert forall k :: MintOf(w, k) == Issued ==> MintOf(w', k) == Issued;
    forall p | p in w'.taken ensures SnapshotOk(w', p.1) { assert SnapshotOk(w, p.1); }
    forall k | k in w'.quotes ensures RecordOk(w', k, w'.quotes[k]) { assert RecordOk(w, k, w.quotes[k]); }
    forall k | k in w'.file ensures RecordOk(w', k, w'.file[k]) { assert RecordOk(w, k, w.file[k]); }
  }

  lemma RestartKeeps(w: World)
    requires Inv(w)
    ensures Inv(Next(w, Restart))
  {
    var v := Ledgered(w, L.Timed(L.Crash, 0));
    LedgerMoveKeeps(w, L.Timed(L.Crash, 0));
    StoreMoveKeeps(v, Next(w, Restart));
  }

  lemma ForgetSettledKeeps(w: World, ids: set<string>)
    requires Inv(w) && Enabled(w, ForgetSettled(ids)) && ForgetsDurably(w, ForgetSettled(ids))
    ensures Inv(Next(w, ForgetSettled(ids)))
  {
    forall q | Lightning(q) in Ids(ids) ensures q !in Open(w) && MintOf(w, q) == Issued && q in w.seen {
      assert RecordOk(w, q, w.quotes[q]);
    }
    LedgerMoveKeeps(w, L.Timed(L.ForgetIds(Ids(ids)), 0));
  }

  lemma TakeSnapshotKeeps(w: World, mac: Mac)
    requires Inv(w) && Enabled(w, TakeSnapshot(mac))
    ensures Inv(Next(w, TakeSnapshot(mac)))
  {
    var w' := Next(w, TakeSnapshot(mac));
    assert Open(w') == Open(w);
    forall p | p in w'.taken ensures SnapshotOk(w', p.1) {
      if p in w.taken {
        assert SnapshotOk(w, p.1);
      } else if p.1.Some? {
        forall q | Lightning(q) in SessionIds(p.1.value) ensures MintOf(w, q) == Issued && q in w.seen {
          assert C.Known(w.ledger, Lightning(q));
        }
      }
    }
  }

  lemma RollBackLateKeeps(w: World, mac: Mac, snapshot: L.Taken)
    requires Inv(w) && Enabled(w, RollBackLate(mac, snapshot))
    ensures Inv(Next(w, RollBackLate(mac, snapshot)))
  {
    assert SnapshotOk(w, (mac, snapshot).1);
    LedgerMoveKeeps(w, L.Timed(L.RollBackLate(mac, snapshot), 0));
  }

  lemma OtherKeeps(w: World, t: L.Timed)
    requires Inv(w) && Enabled(w, Other(t))
    ensures Inv(Next(w, Other(t)))
  {
    var touched := L.Touched(t.action);
    if L.Credited(t.action).Some? {
      assert L.Credited(t.action).value in touched;
    }
    LedgerMoveKeeps(w, t);
  }

  lemma LedgerMovesKeep(w: World, m: Move)
    requires Inv(w) && Enabled(w, m) && ForgetsDurably(w, m)
    requires m.AddFirst? || m.Recreate? || m.ForgetSettled? || m.RollBackLate? || m.Other? || m.Restart?
    ensures Inv(Next(w, m))
  {
    match m {
      case AddFirst(q, now) => AddFirstKeeps(w, q, now);
      case Recreate(q, now, fault) => RecreateKeeps(w, q, now, fault);
      case ForgetSettled(ids) => ForgetSettledKeeps(w, ids);
      case RollBackLate(mac, snapshot) => RollBackLateKeeps(w, mac, snapshot);
      case Other(t) => OtherKeeps(w, t);
      case Restart => RestartKeeps(w);
    }
  }

  lemma StoreMovesKeep(w: World, m: Move)
    requires Inv(w) && Enabled(w, m)
    requires m.NewQuote? || m.MarkMinted? || m.MarkAdded? || m.MarkGranted? || m.Withhold? || m.DropUnpaid? || m.Sweep?
    ensures Inv(Next(w, m))
  {
    if m.NewQuote? {
      NewQuoteKeeps(w, m.quote, m.record, m.lost);
    } else if m.MarkMinted? || m.MarkAdded? || m.MarkGranted? {
      MarkKeeps(w, m);
    } else {
      DropKeeps(w, m);
    }
  }

  lemma NextKeeps(w: World, m: Move)
    requires Inv(w) && Enabled(w, m) && ForgetsDurably(w, m)
    ensures Inv(Next(w, m))
  {
    if m.CustomerPays? || m.MintIssues? {
      MintMoveKeeps(w, m);
    } else if m.ConfirmUnpaid? || m.OpenGate? {
      PassMoveKeeps(w, m);
    } else if m.TakeSnapshot? {
      TakeSnapshotKeeps(w, m.mac);
    } else if m.AddFirst? || m.Recreate? || m.ForgetSettled? || m.RollBackLate? || m.Other? || m.Restart? {
      LedgerMovesKeep(w, m);
    } else {
      StoreMovesKeep(w, m);
    }
  }

  lemma {:induction false} EveryRunKeeps(w: World, ms: seq<Move>)
    requires Inv(w) && Valid(w, ms) && Careful(w, ms)
    ensures Inv(Exec(w, ms))
  {
    if ms != [] {
      EveryRunKeeps(w, ms[..|ms| - 1]);
      NextKeeps(Exec(w, ms[..|ms| - 1]), ms[|ms| - 1]);
    }
  }

  // ---------------------------------------------------------------- what that means

  predicate Fresh(w: World) {
    && w.quotes == map[] && w.file == map[] && w.mint == map[] && w.at == Idle
    && w.withheld == {} && w.taken == {}
    && w.ledger == Ledger(Memory(map[], {}, None, false), Disk(map[], {}))
  }

  /** No session, in memory or on disk, is ever credited the same quote twice. */
  lemma CreditedAtMostOnce(w: World, ms: seq<Move>, v: World, mac: Mac, q: string)
    requires Fresh(w) && Runs(w, ms, v) && Careful(w, ms)
    ensures mac in v.ledger.mem.sessions ==> v.ledger.mem.sessions[mac].credits[Lightning(q)] <= 1
    ensures mac in v.ledger.disk.sessions ==> v.ledger.disk.sessions[mac].credits[Lightning(q)] <= 1
  {
    EveryRunKeeps(w, ms);
  }

  lemma FileStaysCurrent(v: World, m: Move)
    requires v.file == v.quotes && Enabled(v, m) && !Loses(m)
    ensures Next(v, m).file == Next(v, m).quotes && ForgetsDurably(v, m)
  {}

  /** When every store write completes (or the process dies), every run is careful. */
  lemma {:induction false} CompletedWritesAreCareful(w: World, ms: seq<Move>)
    requires Fresh(w) && Valid(w, ms) && forall m :: m in ms ==> !Loses(m)
    ensures Careful(w, ms) && Exec(w, ms).file == Exec(w, ms).quotes
  {
    if ms != [] {
      var prev := ms[..|ms| - 1];
      assert forall m :: m in prev ==> m in ms;
      CompletedWritesAreCareful(w, prev);
      FileStaysCurrent(Exec(w, prev), ms[|ms| - 1]);
    }
  }

  /** A session or tombstone naming `ln:q`, in memory or on disk, means that the mint has issued q;
      a quote marked granted had the gate opened for it. */
  lemma StageOrder(w: World, ms: seq<Move>, v: World, q: string)
    requires Fresh(w) && Runs(w, ms, v) && Careful(w, ms)
    ensures C.Known(v.ledger, Lightning(q)) ==> MintOf(v, q) == Issued
    ensures q in v.quotes && v.quotes[q].sessionGranted ==> q in v.served && MintOf(v, q) == Issued
  {
    EveryRunKeeps(w, ms);
    if q in v.quotes { assert RecordOk(v, q, v.quotes[q]); }
  }

  /** The gate opens only onto an unexpired session that carries the quote; the session is live unless the
      grant was recreated a moment before with an allotment that is zero or wraps. */
  lemma {:induction false} GateOpensOnCarrier(w: World, ms: seq<Move>, v: World, q: string, now: nat)
    requires Fresh(w) && Runs(w, ms, v) && Careful(w, ms) && Enabled(v, OpenGate(q, now))
    ensures q in v.quotes
    ensures var mac := v.quotes[q].mac;
      && mac in v.ledger.mem.sessions
      && Lightning(q) in v.ledger.mem.sessions[mac].applied && v.ledger.mem.sessions[mac].expiry > now
      && (HasLiveGrant(v.ledger.mem, mac, Lightning(q), now) <==> v.at != Recreated(q, now, false))
  {
    EveryRunKeeps(w, ms);
  }

  /** An allotment that is positive, and fits on top of a live sibling's, is live when it is recreated. */
  lemma PositiveFits(m: Memory, mac: Mac, amount: nat, now: nat)
    requires amount > 0
    requires IsActive(m, mac, now) ==> m.sessions[mac].allotment + amount < U64
    ensures Fits(m, mac, amount, now)
  {}

  lemma LeavesSettled(v: World, m: Move, q: string)
    requires StoresAgree(v) && StageOk(v) && Enabled(v, m) && q in v.quotes && q !in Next(v, m).quotes
    ensures v.quotes[q].sessionGranted || (q in v.withheld && MintOf(v, q) == Unpaid) ||
      (m.DropUnpaid? && v.at == ConfirmedUnpaid(q))
  {}

  /** Since the `n`-th move, where the mint called the quote unpaid and its time was over, nobody but the customer
      and the mint has moved it. */
  ghost predicate UnpaidSince(w: World, ms: seq<Move>, n: nat, q: string) {
    && n < |ms| && ms[n].ConfirmUnpaid? && ms[n].quote == q
    && Enabled(Exec(w, ms[..n]), ms[n])
    && forall j :: n < j < |ms| ==> ms[j].CustomerPays? || ms[j].MintIssues? || ms[j].TakeSnapshot?
  }

  /** A pass stands before a removal only by having asked the mint. */
  lemma StaysConfirmed(v: World, m: Move, q: string)
    requires Enabled(v, m) && Next(v, m).at == ConfirmedUnpaid(q)
    ensures m.ConfirmUnpaid? ==> m.quote == q
    ensures !m.ConfirmUnpaid? ==> v.at == ConfirmedUnpaid(q) && (m.CustomerPays? || m.MintIssues? || m.TakeSnapshot?)
  {}

  lemma UnpaidOneMore(w: World, prev: seq<Move>, n: nat, q: string, m: Move)
    requires UnpaidSince(w, prev, n, q) && (m.CustomerPays? || m.MintIssues? || m.TakeSnapshot?)
    ensures UnpaidSince(w, prev + [m], n, q)
  {
    assert (prev + [m])[..n] == prev[..n];
  }

  lemma {:induction false} ConfirmedWasUnpaid(w: World, ms: seq<Move>, q: string)
    requires Fresh(w) && Valid(w, ms) && Exec(w, ms).at == ConfirmedUnpaid(q)
    ensures exists n: nat :: UnpaidSince(w, ms, n, q)
  {
    var prev, m := ms[..|ms| - 1], ms[|ms| - 1];
    StaysConfirmed(Exec(w, prev), m, q);
    if m.ConfirmUnpaid? {
      assert UnpaidSince(w, ms, |ms| - 1, q);
    } else {
      ConfirmedWasUnpaid(w, prev, q);
      var n: nat :| UnpaidSince(w, prev, n, q);
      UnpaidOneMore(w, prev, n, q, m);
      assert prev + [m] == ms;
    }
  }

  /** A record leaves the store only when it is granted; or when its invoice was withheld and the mint still has
      it unpaid; or when the pass that drops it has asked the mint, which called the quote unpaid after its time. */
  lemma RecordsLeaveSettled(w: World, ms: seq<Move>, v: World, m: Move, v': World, q: string)
    requires Fresh(w) && Runs(w, ms, v) && Careful(w, ms) && Does(v, m, v') && q in v.quotes && q !in v'.quotes
    ensures
      || v.quotes[q].sessionGranted
      || (q in v.withheld && MintOf(v, q) == Unpaid)
      || exists n: nat :: UnpaidSince(w, ms, n, q)
  {
    EveryRunKeeps(w, ms);
    LeavesSettled(v, m, q);
    if v.at == ConfirmedUnpaid(q) {
      ConfirmedWasUnpaid(w, ms, q);
    }
  }
}
