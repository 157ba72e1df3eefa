/** The payout journal: what a melt may do given the last row of its id, and compaction to the last row per id. */
module PayoutJournal {
  import opened Options
  import opened Journals

  /** The journal key hashes mint, identity and invoice, or an operation's name for a send; it is treated as
      injective. */
  datatype EntryId =
    | MeltEntry(mint: string, identity: string, invoice: string)
    | SendEntry(mint: string, identity: string, operation: string)

  datatype Phase =
    | Intent
    | Paid
    | Ambiguous
    | Failed
    | TokenCreated
    | Delivered
    | DeliveryFailed
    | DeliveryAmbiguous
    | Resolved

  datatype Entry = Entry(amountSat: nat, literalInvoice: bool, token: Option<string>, phase: Phase)

  type Journal = seq<Row<EntryId, Entry>>

  datatype Decision = Proceed | SkipDone | SkipSurface

  /** The decision, and the phase to which an ambiguity that has settled is advanced first. */
  function Decide(last: Option<Phase>, literalInvoice: bool, unresolvedSaga: bool): (Decision, Option<Phase>) {
    match last
    case None => (if unresolvedSaga then SkipSurface else Proceed, None)
    case Some(Intent) => (SkipSurface, None)
    case Some(Paid) => (SkipDone, None)
    case Some(Resolved) => (if literalInvoice then SkipSurface else SkipDone, None)
    case Some(Failed) => (Proceed, None)
    case Some(Ambiguous) =>
      if unresolvedSaga then (SkipSurface, None)
      else (if literalInvoice then SkipSurface else SkipDone, Some(Resolved))
    case Some(_) => (SkipDone, None)
  }

  /** What a decision says about the last row.  Nothing is called done after a bare intent, and a literal invoice only
      after a payment; a melt proceeds only where none can have gone out. */
  lemma DecisionsMean(last: Option<Phase>, literalInvoice: bool, unresolvedSaga: bool)
    ensures var (decision, advance) := Decide(last, literalInvoice, unresolvedSaga);
      var settling := last == Some(Ambiguous) && !unresolvedSaga;
      && (decision == Proceed <==> last == Some(Failed) || (last == None && !unresolvedSaga))
      && (decision == SkipDone <==>
          (last.Some? && last.value in {Paid, TokenCreated, Delivered, DeliveryFailed, DeliveryAmbiguous}) ||
          (!literalInvoice && (last == Some(Resolved) || settling)))
      && advance == if settling then Some(Resolved) else None
  {}

  function LastFor(j: Journal, id: EntryId): Option<Phase> {
    if id in FoldLast(j) then Some(FoldLast(j)[id].phase) else None
  }

  /** A token that was created and is not provably delivered, or a send that may still create one. */
  predicate Undelivered(e: Entry) {
    (e.token.Some? && (e.phase.TokenCreated? || e.phase.DeliveryAmbiguous? || e.phase.DeliveryFailed?)) ||
      e.phase.Ambiguous?
  }

  /** The ids a new purchase for `identity` must wait for: decided by the last row of each. */
  function UndeliveredTokens(j: Journal, identity: string): set<EntryId> {
    set id | id in FoldLast(j) && id.identity == identity && Undelivered(FoldLast(j)[id])
  }

  // ---------------------------------------------------------------- compaction

  function Ids<K(==), V>(rows: seq<Row<K, V>>): set<K> {
    set i | 0 <= i < |rows| :: rows[i].id
  }

  /** The rows that no later row of the same id follows, in their order. */
  function Compact<K(==), V>(rows: seq<Row<K, V>>): seq<Row<K, V>> {
    if rows == [] then []
    else
      var tail := Compact(rows[1..]);
      if rows[0].id in Ids(rows[1..]) then tail else [rows[0]] + tail
  }

  /** Rewrite the journal once it is longer than the threshold: collect backwards the first row seen of each id,
      then reverse. */
  method CompactIfLarge<K(==), V>(rows: seq<Row<K, V>>, threshold: nat)
    returns (compacted: seq<Row<K, V>>, changed: bool)
    ensures changed == (|rows| > threshold)
    ensures compacted == if changed then Compact(rows) else rows
  {
    if |rows| <= threshold {
      return rows, false;
    }
    var ordered: seq<Row<K, V>> := [];
    var seen: set<K> := {};
    var i := |rows|;
    while i > 0
      invariant 0 <= i <= |rows|
      invariant seen == Ids(rows[i..])
      invariant Reversed(ordered) == Compact(rows[i..])
    {
      i := i - 1;
      var e := rows[i];
      assert rows[i..][1..] == rows[i + 1..];
      IdsCons(rows[i..]);
      if e.id !in seen {
        seen := seen + {e.id};
        ReversedSnoc(ordered, e);
        ordered := ordered + [e];
      }
    }
    assert rows[0..] == rows;
    compacted := Reverse(ordered);
    changed := true;
  }

  function Reversed<T>(s: seq<T>): seq<T> {
    if s == [] then [] else [s[|s| - 1]] + Reversed(s[..|s| - 1])
  }

  lemma ReversedSnoc<T>(s: seq<T>, x: T)
    ensures Reversed(s + [x]) == [x] + Reversed(s)
  {}

  method Reverse<T>(s: seq<T>) returns (r: seq<T>)
    ensures r == Reversed(s)
  {
    r := [];
    for i := 0 to |s|
      invariant r == Reversed(s[..i])
    {
      assert s[..i + 1][..i] == s[..i];
      r := [s[i]] + r;
    }
    assert s[..|s|] == s;
  }

  lemma IdsCons<K, V>(rows: seq<Row<K, V>>)
    requires rows != []
    ensures Ids(rows) == {rows[0].id} + Ids(rows[1..])
  {}

  /** Compaction keeps the last body of every id, and the ids. */
  lemma {:induction false} CompactKeepsFold<K, V>(rows: seq<Row<K, V>>)
    ensures FoldLast(Compact(rows)) == FoldLast(rows)
    ensures Ids(Compact(rows)) == Ids(rows)
  {
    if rows != [] {
      CompactKeepsFold(rows[1..]);
      IdsCons(rows);
      FoldConcat([rows[0]], rows[1..]);
      assert rows == [rows[0]] + rows[1..];
      assert FoldLast([rows[0]]) == map[rows[0].id := rows[0].body] by {
        assert [rows[0]][..0] == [];
      }
      if rows[0].id in Ids(rows[1..]) {
        FoldKeys(rows[1..]);
      } else {
        FoldConcat([rows[0]], Compact(rows[1..]));
        IdsCons([rows[0]] + Compact(rows[1..]));
        assert ([rows[0]] + Compact(rows[1..]))[1..] == Compact(rows[1..]);
      }
    }
  }

  lemma FoldKeys<K, V>(rows: seq<Row<K, V>>)
    ensures FoldLast(rows).Keys == Ids(rows)
  {}

  /** After compaction the ids are distinct. */
  lemma {:induction false} CompactDistinct<K, V>(rows: seq<Row<K, V>>)
    ensures forall i, j :: 0 <= i < j < |Compact(rows)| ==> Compact(rows)[i].id != Compact(rows)[j].id
  {
    if rows != [] {
      CompactDistinct(rows[1..]);
      CompactKeepsFold(rows[1..]);
      var tail := Compact(rows[1..]);
      if rows[0].id !in Ids(rows[1..]) {
        forall j | 0 <= j < |tail| ensures tail[j].id != rows[0].id {
          assert tail[j].id in Ids(tail);
        }
      }
    }
  }

  /** A journal of distinct ids is already compact; so compacting twice is compacting once. */
  lemma {:induction false} DistinctIsCompact<K, V>(rows: seq<Row<K, V>>)
    requires forall i, j :: 0 <= i < j < |rows| ==> rows[i].id != rows[j].id
    ensures Compact(rows) == rows
  {
    if rows != [] {
      forall i, j | 0 <= i < j < |rows[1..]| ensures rows[1..][i].id != rows[1..][j].id {
        assert rows[i + 1].id != rows[j + 1].id;
      }
      DistinctIsCompact(rows[1..]);
      forall i | 0 <= i < |rows[1..]| ensures rows[1..][i].id != rows[0].id {
        assert rows[1..][i] == rows[i + 1];
      }
      assert rows == [rows[0]] + rows[1..];
    }
  }

  lemma CompactIdempotent<K, V>(rows: seq<Row<K, V>>)
    ensures Compact(Compact(rows)) == Compact(rows)
  {
    CompactDistinct(rows);
    DistinctIsCompact(Compact(rows));
  }

  /** Where the last row of an id stands. */
  function LastIndex<K(==), V>(rows: seq<Row<K, V>>, id: K): (i: int)
    ensures -1 <= i < |rows|
    ensures i >= 0 ==> rows[i].id == id
    ensures forall j :: i < j < |rows| ==> rows[j].id != id
  {
    if rows == [] then -1
    else if rows[|rows| - 1].id == id then |rows| - 1
    else LastIndex(rows[..|rows| - 1], id)
  }

  /** The compacted rows stand in the order of their last occurrences. */
  lemma {:induction false} CompactInLastOrder<K, V>(rows: seq<Row<K, V>>, i: nat, j: nat)
    requires i < j < |Compact(rows)|
    ensures 0 <= LastIndex(rows, Compact(rows)[i].id) < LastIndex(rows, Compact(rows)[j].id)
    ensures rows[LastIndex(rows, Compact(rows)[i].id)] == Compact(rows)[i]
  {
    var tail := Compact(rows[1..]);
    CompactRowIsLast(rows, i);
    CompactRowIsLast(rows, j);
    if rows[0].id in Ids(rows[1..]) {
      CompactInLastOrder(rows[1..], i, j);
      LastIndexTail(rows, tail[i].id);
      LastIndexTail(rows, tail[j].id);
    } else if i > 0 {
      CompactInLastOrder(rows[1..], i - 1, j - 1);
      LastIndexTail(rows, tail[i - 1].id);
      LastIndexTail(rows, tail[j - 1].id);
    } else {
      CompactRowIsLast(rows[1..], j - 1);
      LastIndexTail(rows, tail[j - 1].id);
      HeadIsLast(rows);
    }
  }

  lemma {:induction false} CompactRowIsLast<K, V>(rows: seq<Row<K, V>>, i: nat)
    requires i < |Compact(rows)|
    ensures var k := LastIndex(rows, Compact(rows)[i].id); k >= 0 && rows[k] == Compact(rows)[i]
  {
    var tail := Compact(rows[1..]);
    if rows[0].id in Ids(rows[1..]) {
      CompactRowIsLast(rows[1..], i);
      LastIndexTail(rows, tail[i].id);
    } else if i > 0 {
      CompactRowIsLast(rows[1..], i - 1);
      LastIndexTail(rows, tail[i - 1].id);
    } else {
      HeadIsLast(rows);
    }
  }

  lemma HeadIsLast<K, V>(rows: seq<Row<K, V>>)
    requires rows != [] && rows[0].id !in Ids(rows[1..])
    ensures LastIndex(rows, rows[0].id) == 0
  {}

  lemma LastIndexTail<K, V>(rows: seq<Row<K, V>>, id: K)
    requires rows != [] && LastIndex(rows[1..], id) >= 0
    ensures LastIndex(rows, id) == LastIndex(rows[1..], id) + 1
  {}
}
