/** Every run of journalled melts: payout tasks of different mints, crashes, failed appends, missing wallets,
    other users of the journal, and compaction at any moment. */
module PayoutRuns {
  import opened Options
  import opened Journals
  import opened PayoutJournal

  /** How far the task that works on an id has come; all of it dies with the process. */
  datatype Stage = Resting | Cleared | IntentWritten | Melted

  /** `history` is every row that ever landed and was not lost, compaction aside; the last `unsynced` rows of both
      may still vanish in a crash; `melts` counts the calls of `wallet.melt`. */
  datatype World = World(
    file: Journal,
    history: Journal,
    unsynced: nat,
    stages: map<EntryId, Stage>,
    melts: map<EntryId, nat>)

  function StageOf(w: World, id: EntryId): Stage {
    if id in w.stages then w.stages[id] else Resting
  }

  function Melts(w: World, id: EntryId): nat {
    if id in w.melts then w.melts[id] else 0
  }

  datatype Move =
    | Clear(id: EntryId, literalInvoice: bool, unresolvedSaga: bool)
    | WriteIntent(id: EntryId, entry: Entry, result: Append)
    | NoWallet(id: EntryId, entry: Entry, result: Append)
    | Melt(id: EntryId)
    | WriteOutcome(id: EntryId, entry: Entry, result: Append)
    | OtherRow(id: EntryId, entry: Entry, result: Append)
    | CompactFile
    | Crash(lost: nat)

  /** Only an ambiguity is ever resolved. */
  predicate Advances(w: World, id: EntryId, entry: Entry) {
    entry.phase == Resolved && LastFor(w.file, id) == Some(Ambiguous)
  }

  predicate Enabled(w: World, m: Move) {
    match m
    case Clear(id, literal, saga) =>
      id.MeltEntry? && StageOf(w, id) == Resting && Decide(LastFor(w.file, id), literal, saga).0 == Proceed
    case WriteIntent(id, entry, _) => StageOf(w, id) == Cleared && entry.phase == Intent
    case NoWallet(id, entry, _) => StageOf(w, id) == IntentWritten && entry.phase == Failed
    case Melt(id) => StageOf(w, id) == IntentWritten
    case WriteOutcome(id, entry, _) => StageOf(w, id) == Melted && (entry.phase == Paid || entry.phase == Ambiguous)
    // every row of a send operation, and the settled ambiguity of a melt advanced to Resolved
    case OtherRow(id, entry, _) => id.SendEntry? || Advances(w, id, entry)
    case CompactFile => true
    case Crash(_) => true
  }

  function Log(w: World, id: EntryId, entry: Entry, result: Append): World {
    if result.AppendLost? then w
    else
      w.(file := w.file + [Row(id, entry)], history := w.history + [Row(id, entry)],
         unsynced := if result.AppendOk? then 0 else w.unsynced + 1)
  }

  function At(w: World, id: EntryId, stage: Stage): World {
    w.(stages := w.stages[id := stage])
  }

  function Next(w: World, m: Move): World {
    match m
    case Clear(id, _, _) => At(w, id, Cleared)
    case WriteIntent(id, entry, result) =>
      At(Log(w, id, entry, result), id, if result.AppendOk? then IntentWritten else Resting)
    case NoWallet(id, entry, result) => At(Log(w, id, entry, result), id, Resting)
    case Melt(id) => At(w.(melts := w.melts[id := Melts(w, id) + 1]), id, Melted)
    case WriteOutcome(id, entry, result) => At(Log(w, id, entry, result), id, Resting)
    case OtherRow(id, entry, result) => Log(w, id, entry, result)
    case CompactFile => w.(file := Compact(w.file), unsynced := 0)
    case Crash(lost) =>
      var n := if lost < w.unsynced then lost else w.unsynced;
      World(Without(w.file, n), Without(w.history, n), 0, map[], w.melts)
  }

  predicate Does(w: World, m: Move, w': World) {
    Enabled(w, m) && w' == Next(w, m)
  }

  predicate Valid(w: World, ms: seq<Move>) {
    ms == [] || (Valid(w, ms[..|ms| - 1]) && Enabled(Exec(w, ms[..|ms| - 1]), ms[|ms| - 1]))
  }

  function Exec(w: World, ms: seq<Move>): World {
    if ms == [] then w else Next(Exec(w, ms[..|ms| - 1]), ms[|ms| - 1])
  }

  /** `ms` is a run from `w` to `w'`. */
  predicate Runs(w: World, ms: seq<Move>, w': World) {
    Valid(w, ms) && Exec(w, ms) == w'
  }

  lemma OneMore(w: World, ms: seq<Move>, v: World, m: Move, w': World)
    requires Runs(w, ms, v) && Does(v, m, w')
    ensures Runs(w, ms + [m], w')
  {}

  lemma Snoc(a: seq<Move>, b: seq<Move>)
    requires b != []
    ensures a + b == a + b[..|b| - 1] + [b[|b| - 1]]
  {}

  lemma LastMove(w: World, ms: seq<Move>, w': World)
    requires Runs(w, ms, w') && ms != []
    ensures var prev := ms[..|ms| - 1]; Runs(w, prev, Exec(w, prev)) && Does(Exec(w, prev), ms[|ms| - 1], w')
  {}

  lemma {:induction false} Chain(w: World, ms: seq<Move>, v: World, ms': seq<Move>, w': World)
    requires Runs(w, ms, v) && Runs(v, ms', w')
    ensures Runs(w, ms + ms', w')
  {
    if ms' == [] {
      assert ms + ms' == ms;
    } else {
      var prev, m := ms'[..|ms'| - 1], ms'[|ms'| - 1];
      LastMove(v, ms', w');
      Chain(w, ms, v, prev, Exec(v, prev));
      OneMore(w, ms + prev, Exec(v, prev), m, w');
      Snoc(ms, ms');
    }
  }

  // ---------------------------------------------------------------- the invariant

  predicate HasIntent(j: Journal, id: EntryId) {
    exists i :: 0 <= i < |j| && j[i].id == id && j[i].body.phase == Intent
  }

  /** Once melted, an id has an intent in its history and its last row is never again one that permits a melt; only a
      melt's id is ever worked on; and no row but an intent or a failure stands for an id that was not melted. */
  predicate IdOk(id: EntryId, melts: nat, last: Option<Phase>, stage: Stage, intent: bool) {
    && melts <= 1
    && (melts == 1 || stage == IntentWritten ==> last != None && last != Some(Failed) && intent)
    && (stage == Cleared || stage == IntentWritten ==> melts == 0)
    && (id.SendEntry? ==> melts == 0 && stage == Resting)
    && (stage == Melted || (id.MeltEntry? && last.Some? && SaysMelted(last.value)) ==> melts == 1)
    && (id.MeltEntry? && last.Some? ==> MeltPhase(last.value))
  }

  predicate SaysMelted(p: Phase) {
    p == Paid || p == Ambiguous || p == Resolved
  }

  predicate MeltPhase(p: Phase) {
    p == Intent || p == Failed || SaysMelted(p)
  }

  /** The id is in order once `n` of the unsynced rows are lost. */
  predicate IdInv(w: World, n: nat, id: EntryId) {
    IdOk(id, Melts(w, id), LastFor(Without(w.file, n), id), StageOf(w, id), HasIntent(Without(w.history, n), id))
  }

  predicate FoldInv(w: World, n: nat) {
    FoldLast(Without(w.file, n)) == FoldLast(Without(w.history, n))
  }

  ghost predicate Inv(w: World) {
    && (forall n: nat :: n <= w.unsynced ==> FoldInv(w, n))
    && (forall n: nat, id :: n <= w.unsynced ==> IdInv(w, n, id))
  }

  /** One more row, at the end of the file and of the history. */
  lemma LogFolds(file: Journal, history: Journal, id: EntryId, entry: Entry, k: EntryId)
    requires FoldLast(file) == FoldLast(history)
    ensures FoldLast(file + [Row(id, entry)]) == FoldLast(history + [Row(id, entry)])
    ensures LastFor(file + [Row(id, entry)], k) == if k == id then Some(entry.phase) else LastFor(file, k)
  {
    assert (file + [Row(id, entry)])[..|file|] == file;
    assert (history + [Row(id, entry)])[..|history|] == history;
  }

  lemma LogIntents(history: Journal, id: EntryId, entry: Entry, k: EntryId)
    ensures HasIntent(history, k) || (k == id && entry.phase == Intent) ==> HasIntent(history + [Row(id, entry)], k)
  {
    var j := history + [Row(id, entry)];
    if HasIntent(history, k) {
      var i :| 0 <= i < |history| && history[i].id == k && history[i].body.phase == Intent;
      assert j[i].id == k;
    } else if k == id && entry.phase == Intent {
      assert j[|history|].id == k;
    }
  }

  lemma LogKeepsFold(w: World, id: EntryId, entry: Entry, result: Append, n: nat)
    requires Inv(w) && n <= Log(w, id, entry, result).unsynced
    ensures FoldInv(Log(w, id, entry, result), n)
  {
    if result.AppendLost? {
      assert FoldInv(w, n);
    } else if n == 0 {
      assert FoldInv(w, 0);
      Whole(w.file);
      Whole(w.history);
      LogFolds(w.file, w.history, id, entry, id);
      WithoutLast(w.file, Row(id, entry), 0);
      WithoutLast(w.history, Row(id, entry), 0);
    } else {
      assert FoldInv(w, n - 1);
      WithoutLast(w.file, Row(id, entry), n);
      WithoutLast(w.history, Row(id, entry), n);
    }
  }

  lemma NextKeepsFold(w: World, m: Move, n: nat)
    requires Inv(w) && Enabled(w, m) && n <= Next(w, m).unsynced
    ensures FoldInv(Next(w, m), n)
  {
    match m {
      case WriteIntent(id, entry, result) => LogKeepsFold(w, id, entry, result, n);
      case NoWallet(id, entry, result) => LogKeepsFold(w, id, entry, result, n);
      case WriteOutcome(id, entry, result) => LogKeepsFold(w, id, entry, result, n);
      case OtherRow(id, entry, result) => LogKeepsFold(w, id, entry, result, n);
      case CompactFile =>
        assert FoldInv(w, 0);
        Whole(w.file);
        Whole(w.history);
        Whole(Compact(w.file));
        CompactKeepsFold(w.file);
      case Crash(lost) =>
        var k := if lost < w.unsynced then lost else w.unsynced;
        assert FoldInv(w, k);
        Whole(Without(w.file, k));
        Whole(Without(w.history, k));
      case Clear(_, _, _) => assert FoldInv(w, n);
      case Melt(_) => assert FoldInv(w, n);
    }
  }

  /** What a logged row may be, and how far the task of its id may get with it. */
  predicate MayLog(w: World, id: EntryId, entry: Entry, result: Append, stage: Stage) {
    && (id.MeltEntry? && entry.phase == Failed ==> StageOf(w, id) == IntentWritten)
    && (id.MeltEntry? ==> MeltPhase(entry.phase) && (SaysMelted(entry.phase) ==> StageOf(w, id) == Melted))
    && (stage == Resting ||
      (stage == IntentWritten && entry.phase == Intent && result.AppendOk? && StageOf(w, id) == Cleared))
  }

  lemma LastRowKeepsId(w: World, id: EntryId, entry: Entry, result: Append, stage: Stage, k: EntryId)
    requires Inv(w) && MayLog(w, id, entry, result, stage) && !result.AppendLost?
    ensures IdInv(At(Log(w, id, entry, result), id, stage), 0, k)
  {
    assert IdInv(w, 0, k) && IdInv(w, 0, id) && FoldInv(w, 0);
    Whole(w.file);
    Whole(w.history);
    LogFolds(w.file, w.history, id, entry, k);
    LogIntents(w.history, id, entry, k);
    WithoutLast(w.file, Row(id, entry), 0);
    WithoutLast(w.history, Row(id, entry), 0);
  }

  lemma EarlierRowsKeepId(w: World, id: EntryId, entry: Entry, result: Append, stage: Stage, n: nat, k: EntryId)
    requires Inv(w) && MayLog(w, id, entry, result, stage)
    requires n <= Log(w, id, entry, result).unsynced && (result.AppendLost? || n > 0)
    ensures IdInv(At(Log(w, id, entry, result), id, stage), n, k)
  {
    if result.AppendLost? {
      assert IdInv(w, n, k);
    } else {
      assert IdInv(w, n - 1, k);
      WithoutLast(w.file, Row(id, entry), n);
      WithoutLast(w.history, Row(id, entry), n);
    }
  }

  lemma LoggedKeepsId(w: World, id: EntryId, entry: Entry, result: Append, stage: Stage, n: nat, k: EntryId)
    requires Inv(w) && MayLog(w, id, entry, result, stage) && n <= Log(w, id, entry, result).unsynced
    ensures IdInv(At(Log(w, id, entry, result), id, stage), n, k)
  {
    if result.AppendLost? || n > 0 {
      EarlierRowsKeepId(w, id, entry, result, stage, n, k);
    } else {
      LastRowKeepsId(w, id, entry, result, stage, k);
    }
  }

  /** A row that belongs to no melt under way leaves every stage as it is. */
  lemma OtherRowKeepsId(w: World, id: EntryId, entry: Entry, result: Append, n: nat, k: EntryId)
    requires Inv(w) && (id.SendEntry? || Advances(w, id, entry)) && n <= Log(w, id, entry, result).unsynced
    ensures IdInv(Log(w, id, entry, result), n, k)
  {
    if result.AppendLost? {
      assert IdInv(w, n, k);
    } else if n == 0 {
      assert IdInv(w, 0, k) && IdInv(w, 0, id) && FoldInv(w, 0);
      Whole(w.file);
      Whole(w.history);
      LogFolds(w.file, w.history, id, entry, k);
      LogIntents(w.history, id, entry, k);
      WithoutLast(w.file, Row(id, entry), 0);
      WithoutLast(w.history, Row(id, entry), 0);
    } else {
      assert IdInv(w, n - 1, k);
      WithoutLast(w.file, Row(id, entry), n);
      WithoutLast(w.history, Row(id, entry), n);
    }
  }

  lemma CrashKeepsId(w: World, lost: nat, n: nat, k: EntryId)
    requires Inv(w) && n <= Next(w, Crash(lost)).unsynced
    ensures IdInv(Next(w, Crash(lost)), n, k)
  {
    var dropped := if lost < w.unsynced then lost else w.unsynced;
    assert IdInv(w, dropped, k);
    Whole(Without(w.file, dropped));
    Whole(Without(w.history, dropped));
  }

  lemma CompactKeepsId(w: World, n: nat, k: EntryId)
    requires Inv(w) && n <= Next(w, CompactFile).unsynced
    ensures IdInv(Next(w, CompactFile), n, k)
  {
    assert IdInv(w, 0, k);
    Whole(w.file);
    Whole(w.history);
    Whole(Compact(w.file));
    CompactKeepsFold(w.file);
  }

  lemma NextKeepsId(w: World, m: Move, n: nat, k: EntryId)
    requires Inv(w) && Enabled(w, m) && n <= Next(w, m).unsynced
    ensures IdInv(Next(w, m), n, k)
  {
    match m {
      case WriteIntent(id, entry, result) =>
        LoggedKeepsId(w, id, entry, result, if result.AppendOk? then IntentWritten else Resting, n, k);
      case NoWallet(id, entry, result) => LoggedKeepsId(w, id, entry, result, Resting, n, k);
      case WriteOutcome(id, entry, result) => LoggedKeepsId(w, id, entry, result, Resting, n, k);
      case OtherRow(id, entry, result) => OtherRowKeepsId(w, id, entry, result, n, k);
      case CompactFile => CompactKeepsId(w, n, k);
      case Crash(lost) => CrashKeepsId(w, lost, n, k);
      case Clear(id, literal, saga) => ClearKeepsId(w, id, literal, saga, n, k);
      case Melt(id) => assert IdInv(w, n, k) && IdInv(w, n, id);
    }
  }

  /** An id that the journal permits to melt was never melted. */
  lemma ClearKeepsId(w: World, id: EntryId, literal: bool, saga: bool, n: nat, k: EntryId)
    requires Inv(w) && Enabled(w, Clear(id, literal, saga)) && n <= w.unsynced
    ensures IdInv(Next(w, Clear(id, literal, saga)), n, k)
  {
    assert IdInv(w, n, k) && IdInv(w, 0, id);
    Whole(w.file);
  }

  lemma NextKeeps(w: World, m: Move)
    requires Inv(w) && Enabled(w, m)
    ensures Inv(Next(w, m))
  {
    forall n: nat | n <= Next(w, m).unsynced ensures FoldInv(Next(w, m), n) {
      NextKeepsFold(w, m, n);
    }
    forall n: nat, k | n <= Next(w, m).unsynced ensures IdInv(Next(w, m), n, k) {
      NextKeepsId(w, m, n, k);
    }
  }

  lemma {:induction false} EveryRunKeeps(w: World, ms: seq<Move>)
    requires Inv(w) && Valid(w, ms)
    ensures Inv(Exec(w, ms))
  {
    if ms != [] {
      EveryRunKeeps(w, ms[..|ms| - 1]);
      NextKeeps(Exec(w, ms[..|ms| - 1]), ms[|ms| - 1]);
    }
  }

  const EMPTY: World := World([], [], 0, map[], map[])

  lemma EmptyInv()
    ensures Inv(EMPTY)
  {
  }

  /** Over every run, no id is melted twice, and none without its intent in the journal first, whatever a crash
      may lose. */
  lemma MeltedAtMostOnce(ms: seq<Move>, w: World, id: EntryId)
    requires Runs(EMPTY, ms, w)
    ensures Melts(w, id) <= 1
    ensures Enabled(w, Melt(id)) ==>
      forall n: nat :: n <= w.unsynced ==>
        HasIntent(Without(w.history, n), id) && LastFor(Without(w.file, n), id) != None
    ensures Enabled(w, Melt(id)) ==> Melts(w, id) == 0
  {
    EmptyInv();
    EveryRunKeeps(EMPTY, ms);
    forall n: nat | n <= w.unsynced
      ensures Enabled(w, Melt(id)) ==> HasIntent(Without(w.history, n), id) && LastFor(Without(w.file, n), id) != None
    {
      assert IdInv(w, n, id);
    }
    assert IdInv(w, 0, id);
  }

  /** Over every run, a melt is called already done only when it was called, exactly once; and that of a literal
      invoice, for which no new one can be asked, only when its row says that it was paid. */
  lemma DoneMeansMelted(ms: seq<Move>, w: World, id: EntryId, literal: bool, unresolvedSaga: bool)
    requires Runs(EMPTY, ms, w) && id.MeltEntry?
    requires Decide(LastFor(w.file, id), literal, unresolvedSaga).0 == SkipDone
    ensures Melts(w, id) == 1
    ensures literal ==> LastFor(w.file, id) == Some(Paid)
  {
    EmptyInv();
    EveryRunKeeps(EMPTY, ms);
    assert IdInv(w, 0, id);
    Whole(w.file);
  }

  /** Under every interleaving of appends, compactions and crashes, the journal folds to what its whole history
      folds to. */
  lemma CompactionNeverLosesALastRow(ms: seq<Move>, w: World)
    requires Runs(EMPTY, ms, w)
    ensures FoldLast(w.file) == FoldLast(w.history)
    ensures forall identity: string :: UndeliveredTokens(w.file, identity) == UndeliveredTokens(w.history, identity)
  {
    EmptyInv();
    EveryRunKeeps(EMPTY, ms);
    assert FoldInv(w, 0);
    Whole(w.file);
    Whole(w.history);
  }
}
