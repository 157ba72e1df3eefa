/** First-boot migration: what a pass does to the journal and to the wallet, over any number of boots, each cut
    off anywhere and each crash free to drop the rows that were not yet synced. */
module MigrationRuns {
  import opened Options
  import opened Journals

  datatype Outcome =
    | Imported(amountSat: nat)
    | Failed
    | Pending
    | Spent(amountSat: nat)
    | PartiallySpent(spentSat: nat, unspentSat: nat)
    | RemainderImported(parentSpentSat: nat, remainderSat: nat)

  type Journal = seq<Row<string, Outcome>>

  /** The mint's batched answer about a token, or the lack of one. */
  datatype Check =
    | AllSpent(amountSat: nat)
    | SomeSpent(spentSat: nat, unspentSat: nat)
    | Indeterminate
    | Unspent
    | CheckFailed

  /** Whether an earlier receive of the token is still in flight in the local wallet. */
  datatype Saga = NoReceive | ReceiveOpen | Unparseable | SagaUnknown

  datatype Receive = Received(amountSat: nat) | TimedOut | Rejected

  datatype Remainder = Recovered(sat: nat) | NothingLeft | RemainderFailed

  datatype Answers = Answers(check: Check, saga: Saga, receive: Receive, remainder: Remainder)

  predicate Terminal(o: Outcome) {
    o.Imported? || o.Spent? || o.PartiallySpent? || o.RemainderImported?
  }

  predicate Done(last: Option<Outcome>) {
    last.Some? && Terminal(last.value)
  }

  predicate Unresolved(s: Saga) {
    s.ReceiveOpen? || s.SagaUnknown?
  }

  /** An earlier attempt may still be in flight: neither resubmit nor decide. */
  predicate Untouchable(last: Option<Outcome>, a: Answers) {
    Unresolved(a.saga) || (last == Some(Pending) && a.check.CheckFailed?)
  }

  // ---------------------------------------------------------------- what a pass does

  datatype Event =
    | Append(token: string, outcome: Outcome)
    | Sync
    | CallReceive(token: string, result: Receive)
    | CallRemainder(token: string, answer: Remainder)

  function Attempt(t: string, r: Receive): seq<Event> {
    [Append(t, Pending), Sync, CallReceive(t, r)]
    + match r
      case Received(amount) => [Append(t, Imported(amount))]
      case TimedOut => []
      case Rejected => [Append(t, Failed)]
  }

  function Salvage(t: string, spent: nat, unspent: nat, r: Remainder): seq<Event> {
    var settled := if r.Recovered? then RemainderImported(spent, r.sat) else PartiallySpent(spent, unspent);
    [Append(t, PartiallySpent(spent, unspent)), Sync, Append(t, Pending), Sync, CallRemainder(t, r),
     Append(t, settled), Sync]
  }

  function TokenEvents(t: string, last: Option<Outcome>, a: Answers): seq<Event> {
    if Done(last) || Untouchable(last, a) then []
    else
      match a.check
      case AllSpent(amount) => [Append(t, Spent(amount)), Sync]
      case SomeSpent(spent, unspent) => Salvage(t, spent, unspent, a.remainder)
      case Indeterminate => []
      case Unspent => Attempt(t, a.receive)
      case CheckFailed => Attempt(t, a.receive)
  }

  function LastOf(folded: map<string, Outcome>, t: string): Option<Outcome> {
    if t in folded then Some(folded[t]) else None
  }

  /** `already` is what the journal folded to when the pass began. */
  function TokensEvents(tokens: seq<string>, already: map<string, Outcome>, answers: string -> Answers): seq<Event> {
    if tokens == [] then []
    else
      var t := tokens[|tokens| - 1];
      TokensEvents(tokens[..|tokens| - 1], already, answers) + TokenEvents(t, LastOf(already, t), answers(t))
  }

  function PassEvents(tokens: seq<string>, already: map<string, Outcome>, answers: string -> Answers): seq<Event> {
    TokensEvents(tokens, already, answers) + [Sync]
  }

  /** What was handed to receive: a whole token, or what the mint left of it. */
  datatype Call = Call(token: string, whole: bool, result: Receive)

  /** The recovery of a remainder ends in a receive, too, unless nothing is left to receive. */
  function AsReceive(r: Remainder): Receive {
    match r
    case Recovered(sat) => Received(sat)
    case NothingLeft => Rejected
    case RemainderFailed => TimedOut
  }

  /** `synced` rows survive any crash; `calls` are the receives handed to the wallet so far. */
  datatype World = World(rows: Journal, synced: nat, calls: seq<Call>)

  function Step(w: World, e: Event): World {
    match e
    case Append(t, o) => w.(rows := w.rows + [Row(t, o)])
    case Sync => w.(synced := |w.rows|)
    case CallReceive(t, r) => w.(calls := w.calls + [Call(t, true, r)])
    case CallRemainder(t, r) => w.(calls := w.calls + [Call(t, false, AsReceive(r))])
  }

  function Exec(w: World, es: seq<Event>): World {
    if es == [] then w else Step(Exec(w, es[..|es| - 1]), es[|es| - 1])
  }

  lemma {:induction false} ExecConcat(w: World, a: seq<Event>, b: seq<Event>)
    ensures Exec(w, a + b) == Exec(Exec(w, a), b)
  {
    if b == [] {
      assert a + b == a;
    } else {
      ExecConcat(w, a, b[..|b| - 1]);
      assert (a + b)[..|a + b| - 1] == a + b[..|b| - 1];
    }
  }

  // ---------------------------------------------------------------- a receive that may have landed leaves its mark

  /** The answer of the last receive of a token. */
  function LastCall(calls: seq<Call>, t: string): Option<Receive> {
    if |calls| == 0 then None
    else if calls[|calls| - 1].token == t then Some(calls[|calls| - 1].result)
    else LastCall(calls[..|calls| - 1], t)
  }

  /** The token's last receive answered Ok or did not answer: the mint may hold its value. */
  predicate MayHaveLanded(calls: seq<Call>, t: string) {
    var last := LastCall(calls, t);
    last.Some? && !last.value.Rejected?
  }

  /** Whatever a crash keeps, the token's last row exists and is not Failed. */
  predicate Guarded(w: World, t: string) {
    forall k :: w.synced <= k <= |w.rows| ==> t in FoldLast(w.rows[..k]) && FoldLast(w.rows[..k])[t] != Failed
  }

  ghost predicate Inv(w: World) {
    w.synced <= |w.rows| && forall t :: MayHaveLanded(w.calls, t) ==> Guarded(w, t)
  }

  /** A Failed row follows a refusal, a receive follows its synced intent. */
  predicate Allowed(w: World, e: Event) {
    match e
    case Append(t, o) => o.Failed? ==> LastCall(w.calls, t) == Some(Rejected)
    case CallReceive(t, _) => w.synced == |w.rows| > 0 && w.rows[|w.rows| - 1] == Row(t, Pending)
    case CallRemainder(t, _) => w.synced == |w.rows| > 0 && w.rows[|w.rows| - 1] == Row(t, Pending)
    case Sync => true
  }

  lemma AppendFolds(rows: Journal, row: Row<string, Outcome>, k: nat)
    requires k <= |rows| + 1
    ensures k <= |rows| ==> (rows + [row])[..k] == rows[..k]
    ensures k == |rows| + 1 ==> FoldLast((rows + [row])[..k]) == FoldLast(rows)[row.id := row.body]
  {
    if k == |rows| + 1 {
      assert (rows + [row])[..k] == rows + [row];
      assert (rows + [row])[..|rows|] == rows;
    }
  }

  lemma GuardedThrough(w: World, e: Event, t: string)
    requires w.synced <= |w.rows| && Guarded(w, t) && (e.Append? && e.outcome.Failed? ==> e.token != t)
    ensures Guarded(Step(w, e), t)
  {
    if e.Append? {
      var w' := Step(w, e);
      forall k | w'.synced <= k <= |w'.rows|
        ensures t in FoldLast(w'.rows[..k]) && FoldLast(w'.rows[..k])[t] != Failed
      {
        AppendFolds(w.rows, Row(e.token, e.outcome), k);
        assert w.rows[..|w.rows|] == w.rows;
      }
    }
  }

  lemma CalledLast(calls: seq<Call>, c: Call, u: string)
    ensures LastCall(calls + [c], u) == if u == c.token then Some(c.result) else LastCall(calls, u)
  {
    assert (calls + [c])[..|calls|] == calls;
  }

  function CallOf(e: Event): Option<Call> {
    match e
    case CallReceive(t, r) => Some(Call(t, true, r))
    case CallRemainder(t, r) => Some(Call(t, false, AsReceive(r)))
    case _ => None
  }

  lemma CallKeepsGuard(w: World, e: Event, u: string)
    requires Inv(w) && Allowed(w, e) && CallOf(e).Some? && MayHaveLanded(w.calls + [CallOf(e).value], u)
    ensures Guarded(Step(w, e), u)
  {
    var t := e.token;
    CalledLast(w.calls, CallOf(e).value, u);
    if u == t {
      assert w.rows[..|w.rows|] == w.rows;
      assert FoldLast(w.rows)[t] == Pending;
    } else {
      assert Guarded(w, u);
    }
  }

  lemma StepKeeps(w: World, e: Event)
    requires Inv(w) && Allowed(w, e)
    ensures Inv(Step(w, e))
  {
    var w' := Step(w, e);
    forall t | MayHaveLanded(w'.calls, t) ensures Guarded(w', t) {
      if CallOf(e).Some? {
        CallKeepsGuard(w, e, t);
      } else {
        GuardedThrough(w, e, t);
      }
    }
  }

  predicate AllowedSeq(w: World, es: seq<Event>) {
    es == [] || (AllowedSeq(w, es[..|es| - 1]) && Allowed(Exec(w, es[..|es| - 1]), es[|es| - 1]))
  }

  lemma {:induction false} AllowedKeeps(w: World, es: seq<Event>)
    requires Inv(w) && AllowedSeq(w, es)
    ensures Inv(Exec(w, es))
  {
    if es != [] {
      AllowedKeeps(w, es[..|es| - 1]);
      StepKeeps(Exec(w, es[..|es| - 1]), es[|es| - 1]);
    }
  }

  lemma {:induction false} AllowedPrefix(w: World, es: seq<Event>, n: nat)
    requires AllowedSeq(w, es) && n <= |es|
    ensures AllowedSeq(w, es[..n])
  {
    if n < |es| {
      AllowedPrefix(w, es[..|es| - 1], n);
      assert es[..|es| - 1][..n] == es[..n];
    } else {
      assert es[..n] == es;
    }
  }

  lemma {:induction false} AllowedConcat(w: World, a: seq<Event>, b: seq<Event>)
    requires AllowedSeq(w, a) && AllowedSeq(Exec(w, a), b)
    ensures AllowedSeq(w, a + b)
  {
    if b == [] {
      assert a + b == a;
    } else {
      AllowedConcat(w, a, b[..|b| - 1]);
      ExecConcat(w, a, b[..|b| - 1]);
      assert (a + b)[..|a + b| - 1] == a + b[..|b| - 1];
    }
  }

  /** Events that no state forbids. */
  predicate Harmless(e: Event) {
    e.Sync? || (e.Append? && !e.outcome.Failed?)
  }

  lemma {:induction false} HarmlessAllowed(w: World, es: seq<Event>)
    requires forall i :: 0 <= i < |es| ==> Harmless(es[i])
    ensures AllowedSeq(w, es) && Exec(w, es).calls == w.calls
  {
    if es != [] {
      HarmlessAllowed(w, es[..|es| - 1]);
    }
  }

  lemma AllowedSnoc(w: World, es: seq<Event>, e: Event)
    requires AllowedSeq(w, es) && Allowed(Exec(w, es), e)
    ensures AllowedSeq(w, es + [e]) && Exec(w, es + [e]) == Step(Exec(w, es), e)
  {}

  /** Intent, sync and receive. */
  lemma SubmitAllowed(w: World, t: string, r: Receive)
    ensures var es := [Append(t, Pending), Sync, CallReceive(t, r)];
      AllowedSeq(w, es) && Exec(w, es).calls == w.calls + [Call(t, true, r)]
  {
    var e1, e2, e3 := Append(t, Pending), Sync, CallReceive(t, r);
    AllowedSnoc(w, [], e1);
    AllowedSnoc(w, [e1], e2);
    AllowedSnoc(w, [e1, e2], e3);
    assert [] + [e1] == [e1] && [e1] + [e2] == [e1, e2] && [e1, e2] + [e3] == [e1, e2, e3];
  }

  lemma AttemptAllowed(w: World, t: string, r: Receive)
    ensures AllowedSeq(w, Attempt(t, r))
  {
    var start := [Append(t, Pending), Sync, CallReceive(t, r)];
    SubmitAllowed(w, t, r);
    CalledLast(w.calls, Call(t, true, r), t);
    match r
    case Received(amount) => AllowedSnoc(w, start, Append(t, Imported(amount)));
    case TimedOut => assert Attempt(t, r) == start;
    case Rejected => AllowedSnoc(w, start, Append(t, Failed));
  }

  lemma SalvageAllowed(w: World, t: string, spent: nat, unspent: nat, r: Remainder)
    ensures AllowedSeq(w, Salvage(t, spent, unspent, r))
  {
    var settled := if r.Recovered? then RemainderImported(spent, r.sat) else PartiallySpent(spent, unspent);
    var start := [Append(t, PartiallySpent(spent, unspent)), Sync, Append(t, Pending)];
    HarmlessAllowed(w, start);
    AllowedSnoc(w, start, Sync);
    var u := Exec(w, start + [Sync]);
    PendingIsLast(w, t, spent, unspent);
    AllowedSnoc(w, start + [Sync], CallRemainder(t, r));
    HarmlessAllowed(Step(u, CallRemainder(t, r)), [Append(t, settled), Sync]);
    AllowedConcat(w, start + [Sync] + [CallRemainder(t, r)], [Append(t, settled), Sync]);
    assert Salvage(t, spent, unspent, r) == start + [Sync] + [CallRemainder(t, r)] + [Append(t, settled), Sync];
  }

  lemma PendingIsLast(w: World, t: string, spent: nat, unspent: nat)
    ensures var u := Exec(w, [Append(t, PartiallySpent(spent, unspent)), Sync, Append(t, Pending)] + [Sync]);
      u.synced == |u.rows| > 0 && u.rows[|u.rows| - 1] == Row(t, Pending)
  {
    var e1, e3 := Append(t, PartiallySpent(spent, unspent)), Append(t, Pending);
    ExecSnoc(w, [e1, Sync, e3], Sync);
    ExecSnoc(w, [e1, Sync], e3);
    assert [e1, Sync] + [e3] == [e1, Sync, e3];
  }

  lemma ExecSnoc(w: World, es: seq<Event>, e: Event)
    ensures Exec(w, es + [e]) == Step(Exec(w, es), e)
  {}

  /** Whether the pass hands the token to receive. */
  predicate Submits(last: Option<Outcome>, a: Answers) {
    !Done(last) && !Unresolved(a.saga) && (a.check.Unspent? || (a.check.CheckFailed? && last != Some(Pending)))
  }

  /** Whether the pass recovers what the mint left of the token. */
  predicate Recovers(last: Option<Outcome>, a: Answers) {
    !Done(last) && !Unresolved(a.saga) && a.check.SomeSpent?
  }

  /** What the pass hands to receive: the token, its remainder, or nothing. */
  function Handed(t: string, last: Option<Outcome>, a: Answers): Option<Call> {
    if Submits(last, a) then Some(Call(t, true, a.receive))
    else if Recovers(last, a) then Some(Call(t, false, AsReceive(a.remainder)))
    else None
  }

  lemma TokenAllowed(w: World, t: string, last: Option<Outcome>, a: Answers)
    ensures AllowedSeq(w, TokenEvents(t, last, a))
  {
    if Submits(last, a) {
      AttemptAllowed(w, t, a.receive);
    } else if Recovers(last, a) {
      SalvageAllowed(w, t, a.check.spentSat, a.check.unspentSat, a.remainder);
    } else {
      HarmlessAllowed(w, TokenEvents(t, last, a));
    }
  }

  lemma {:induction false} TokensAllowed(w: World, tokens: seq<string>, already: map<string, Outcome>,
                                         answers: string -> Answers)
    ensures AllowedSeq(w, TokensEvents(tokens, already, answers))
  {
    if tokens != [] {
      var prev, t := tokens[..|tokens| - 1], tokens[|tokens| - 1];
      var es := TokensEvents(prev, already, answers);
      TokensAllowed(w, prev, already, answers);
      TokenAllowed(Exec(w, es), t, LastOf(already, t), answers(t));
      AllowedConcat(w, es, TokenEvents(t, LastOf(already, t), answers(t)));
    }
  }

  // ---------------------------------------------------------------- the receives of a pass

  /** The receives among events, in order. */
  function Calls(es: seq<Event>): seq<Call> {
    if |es| == 0 then []
    else
      var before, e := Calls(es[..|es| - 1]), es[|es| - 1];
      if CallOf(e).Some? then before + [CallOf(e).value] else before
  }

  lemma {:induction false} ExecCalls(w: World, es: seq<Event>)
    ensures Exec(w, es).calls == w.calls + Calls(es)
  {
    if es != [] {
      ExecCalls(w, es[..|es| - 1]);
    }
  }

  lemma {:induction false} CallsConcat(a: seq<Event>, b: seq<Event>)
    ensures Calls(a + b) == Calls(a) + Calls(b)
  {
    if b == [] {
      assert a + b == a;
    } else {
      CallsConcat(a, b[..|b| - 1]);
      assert (a + b)[..|a + b| - 1] == a + b[..|b| - 1];
    }
  }

  lemma CallsSnoc(es: seq<Event>, e: Event)
    ensures Calls(es + [e]) == if CallOf(e).Some? then Calls(es) + [CallOf(e).value] else Calls(es)
  {
    assert (es + [e])[..|es|] == es;
  }

  lemma AttemptCalls(t: string, r: Receive)
    ensures Calls(Attempt(t, r)) == [Call(t, true, r)]
  {
    var intent, call := [Append(t, Pending), Sync], CallReceive(t, r);
    HarmlessCalls(intent);
    CallsSnoc(intent, call);
    assert intent + [call] == [Append(t, Pending), Sync, call];
    match r
    case Received(amount) => CallsSnoc(intent + [call], Append(t, Imported(amount)));
    case TimedOut => assert Attempt(t, r) == intent + [call];
    case Rejected => CallsSnoc(intent + [call], Append(t, Failed));
  }

  lemma {:induction false} HarmlessCalls(es: seq<Event>)
    requires forall i :: 0 <= i < |es| ==> Harmless(es[i])
    ensures Calls(es) == []
  {
    if es != [] {
      HarmlessCalls(es[..|es| - 1]);
    }
  }

  lemma SalvageCalls(t: string, spent: nat, unspent: nat, r: Remainder)
    ensures Calls(Salvage(t, spent, unspent, r)) == [Call(t, false, AsReceive(r))]
  {
    var settled := if r.Recovered? then RemainderImported(spent, r.sat) else PartiallySpent(spent, unspent);
    var start, end :=
      [Append(t, PartiallySpent(spent, unspent)), Sync, Append(t, Pending), Sync], [Append(t, settled), Sync];
    HarmlessCalls(start);
    HarmlessCalls(end);
    CallsSnoc(start, CallRemainder(t, r));
    CallsConcat(start + [CallRemainder(t, r)], end);
    assert Salvage(t, spent, unspent, r) == start + [CallRemainder(t, r)] + end;
  }

  lemma TokenCalls(t: string, last: Option<Outcome>, a: Answers)
    ensures Calls(TokenEvents(t, last, a)) == if Handed(t, last, a).Some? then [Handed(t, last, a).value] else []
  {
    if Submits(last, a) {
      AttemptCalls(t, a.receive);
    } else if Recovers(last, a) {
      SalvageCalls(t, a.check.spentSat, a.check.unspentSat, a.remainder);
    } else {
      HarmlessCalls(TokenEvents(t, last, a));
    }
  }

  predicate Distinct(tokens: seq<string>) {
    forall i, j :: 0 <= i < j < |tokens| ==> tokens[i] != tokens[j]
  }

  /** What a pass hands to receive, in order. */
  function Submitted(tokens: seq<string>, already: map<string, Outcome>, answers: string -> Answers)
    : seq<Call>
  {
    if |tokens| == 0 then []
    else
      var before, t := Submitted(tokens[..|tokens| - 1], already, answers), tokens[|tokens| - 1];
      var handed := Handed(t, LastOf(already, t), answers(t));
      if handed.Some? then before + [handed.value] else before
  }

  /** A pass that is not cut off hands over exactly what it may, each with its answer. */
  lemma {:induction false} PassCalls(tokens: seq<string>, already: map<string, Outcome>, answers: string -> Answers)
    ensures Calls(TokensEvents(tokens, already, answers)) == Submitted(tokens, already, answers)
  {
    if tokens != [] {
      var prev, t := tokens[..|tokens| - 1], tokens[|tokens| - 1];
      PassCalls(prev, already, answers);
      TokenCalls(t, LastOf(already, t), answers(t));
      CallsConcat(TokensEvents(prev, already, answers), TokenEvents(t, LastOf(already, t), answers(t)));
    }
  }

  lemma {:induction false} SubmittedIs(tokens: seq<string>, already: map<string, Outcome>,
                                       answers: string -> Answers, c: Call)
    ensures c in Submitted(tokens, already, answers) <==>
      c.token in tokens && Handed(c.token, LastOf(already, c.token), answers(c.token)) == Some(c)
  {
    if tokens != [] {
      var prev, u := tokens[..|tokens| - 1], tokens[|tokens| - 1];
      SubmittedIs(prev, already, answers, c);
      assert c.token in tokens <==> c.token in prev || c.token == u;
    }
  }

  lemma {:induction false} SubmittedDistinct(tokens: seq<string>, already: map<string, Outcome>,
                                             answers: string -> Answers, i: nat, j: nat)
    requires Distinct(tokens) && i < j < |Submitted(tokens, already, answers)|
    ensures Submitted(tokens, already, answers)[i].token != Submitted(tokens, already, answers)[j].token
  {
    var prev, u := tokens[..|tokens| - 1], tokens[|tokens| - 1];
    var before := Submitted(prev, already, answers);
    if j < |before| {
      SubmittedDistinct(prev, already, answers, i, j);
    } else {
      SubmittedIs(prev, already, answers, before[i]);
      assert before[i] in before && u !in prev;
    }
  }

  /** A pass cut off anywhere makes a beginning of those calls. */
  lemma {:induction false} CallsGrow(es: seq<Event>, n: nat)
    requires n <= |es|
    ensures Calls(es[..n]) <= Calls(es)
  {
    if n < |es| {
      CallsGrow(es[..|es| - 1], n);
      assert es[..|es| - 1][..n] == es[..n];
    } else {
      assert es[..n] == es;
    }
  }

  // ---------------------------------------------------------------- boots

  /** One boot: a pass cut off after `cut` events, then a crash that keeps `keep` rows, at least the synced ones. */
  datatype Boot = Boot(tokens: seq<string>, answers: string -> Answers, cut: nat, keep: nat)

  function Cut(es: seq<Event>, n: nat): seq<Event> {
    if n <= |es| then es[..n] else es
  }

  function CrashKeeping(w: World, keep: nat): World
    requires w.synced <= |w.rows|
  {
    var k := if keep < w.synced then w.synced else if keep > |w.rows| then |w.rows| else keep;
    World(w.rows[..k], k, w.calls)
  }

  function Pass(w: World, b: Boot): World {
    Exec(w, Cut(PassEvents(b.tokens, FoldLast(w.rows), b.answers), b.cut))
  }

  lemma {:induction false} ExecSynced(w: World, es: seq<Event>)
    requires w.synced <= |w.rows|
    ensures Exec(w, es).synced <= |Exec(w, es).rows|
  {
    if es != [] {
      ExecSynced(w, es[..|es| - 1]);
    }
  }

  function RunBoots(w: World, bs: seq<Boot>): (w': World)
    requires w.synced <= |w.rows|
    ensures w'.synced <= |w'.rows|
  {
    if |bs| == 0 then w
    else
      var v, b := RunBoots(w, bs[..|bs| - 1]), bs[|bs| - 1];
      ExecSynced(v, Cut(PassEvents(b.tokens, FoldLast(v.rows), b.answers), b.cut));
      CrashKeeping(Pass(v, b), b.keep)
  }

  lemma CrashKeeps(w: World, keep: nat)
    requires Inv(w)
    ensures Inv(CrashKeeping(w, keep))
  {
    var w' := CrashKeeping(w, keep);
    forall t | MayHaveLanded(w'.calls, t) ensures Guarded(w', t) {
      assert Guarded(w, t);
      assert w'.rows[..|w'.rows|] == w.rows[..|w'.rows|];
    }
  }

  lemma BootKeeps(w: World, b: Boot)
    requires Inv(w)
    ensures Inv(Pass(w, b)) && Inv(CrashKeeping(Pass(w, b), b.keep))
  {
    var es := TokensEvents(b.tokens, FoldLast(w.rows), b.answers);
    TokensAllowed(w, b.tokens, FoldLast(w.rows), b.answers);
    HarmlessAllowed(Exec(w, es), [Sync]);
    AllowedConcat(w, es, [Sync]);
    var all := es + [Sync];
    AllowedPrefix(w, all, |Cut(all, b.cut)|);
    assert all[..|Cut(all, b.cut)|] == Cut(all, b.cut);
    AllowedKeeps(w, Cut(all, b.cut));
    CrashKeeps(Pass(w, b), b.keep);
  }

  const START: World := World([], 0, [])

  lemma {:induction false} BootsKeep(bs: seq<Boot>)
    ensures Inv(RunBoots(START, bs))
  {
    if |bs| != 0 {
      BootsKeep(bs[..|bs| - 1]);
      BootKeeps(RunBoots(START, bs[..|bs| - 1]), bs[|bs| - 1]);
    }
  }

  // ---------------------------------------------------------------- what is submitted, over all boots

  function Plan(v: World, b: Boot): seq<Event> {
    PassEvents(b.tokens, FoldLast(v.rows), b.answers)
  }

  /** The receives that one boot makes before it is cut off. */
  function NewCalls(v: World, b: Boot): seq<Call> {
    Calls(Cut(Plan(v, b), b.cut))
  }

  lemma BootCalls(v: World, b: Boot)
    ensures Pass(v, b).calls == v.calls + NewCalls(v, b)
    ensures NewCalls(v, b) <= Submitted(b.tokens, FoldLast(v.rows), b.answers)
    ensures b.cut >= |Plan(v, b)| ==> NewCalls(v, b) == Submitted(b.tokens, FoldLast(v.rows), b.answers)
  {
    var plan := Plan(v, b);
    ExecCalls(v, Cut(plan, b.cut));
    CallsSnoc(TokensEvents(b.tokens, FoldLast(v.rows), b.answers), Sync);
    PassCalls(b.tokens, FoldLast(v.rows), b.answers);
    CallsGrow(plan, |Cut(plan, b.cut)|);
    assert plan[..|Cut(plan, b.cut)|] == Cut(plan, b.cut);
    assert plan[..|plan|] == plan;
  }

  /** Over any boots, each cut off anywhere and each losing any unsynced rows: a boot hands a token to receive only
      if its file lists it, the journal at boot does not have it done, no earlier receive is in flight, and the mint
      says Unspent, or cannot say and the last row is not Pending; and it recovers a remainder only if the mint says
      that the token is partly spent. */
  lemma SubmittedOnlyWhen(bs: seq<Boot>, b: Boot, v: World, c: Call)
    requires v == RunBoots(START, bs) && c in NewCalls(v, b)
    ensures var last, a := LastOf(FoldLast(v.rows), c.token), b.answers(c.token);
      && c.token in b.tokens
      && (if c.whole then Submits(last, a) && c.result == a.receive
          else Recovers(last, a) && c.result == AsReceive(a.remainder))
  {
    BootCalls(v, b);
    SubmittedIs(b.tokens, FoldLast(v.rows), b.answers, c);
    var calls := Submitted(b.tokens, FoldLast(v.rows), b.answers);
    var i :| 0 <= i < |NewCalls(v, b)| && NewCalls(v, b)[i] == c;
    assert calls[i] == c;
  }

  /** A token last seen Pending, or whose last receive answered Ok or did not answer, is submitted again only after
      an Unspent answer of that very boot, and its remainder recovered only after a partly spent one, with no receive
      of it in flight. */
  lemma ResubmittedOnlyWhenUnspent(bs: seq<Boot>, b: Boot, v: World, c: Call)
    requires v == RunBoots(START, bs) && c in NewCalls(v, b)
    requires LastOf(FoldLast(v.rows), c.token) == Some(Pending) || MayHaveLanded(v.calls, c.token)
    ensures var a := b.answers(c.token);
      !Unresolved(a.saga) && if c.whole then a.check.Unspent? else a.check.SomeSpent?
  {
    SubmittedOnlyWhen(bs, b, v, c);
    BootsKeep(bs);
    if MayHaveLanded(v.calls, c.token) {
      assert Guarded(v, c.token) && v.rows[..|v.rows|] == v.rows;
    }
  }

  /** A boot that is not cut off hands over everything that it may. */
  lemma SubmittedWhenever(v: World, b: Boot, t: string)
    requires b.cut >= |Plan(v, b)| && t in b.tokens && Handed(t, LastOf(FoldLast(v.rows), t), b.answers(t)).Some?
    ensures Handed(t, LastOf(FoldLast(v.rows), t), b.answers(t)).value in NewCalls(v, b)
  {
    BootCalls(v, b);
    SubmittedIs(b.tokens, FoldLast(v.rows), b.answers, Handed(t, LastOf(FoldLast(v.rows), t), b.answers(t)).value);
  }

  /** The token is not settled: it was never tried, or its last outcome was a refusal or is unknown. */
  predicate Unsettled(last: Option<Outcome>) {
    last == None || last == Some(Pending) || last == Some(Failed)
  }

  /** Exactly when a boot that is not cut off hands in a token, and when it recovers a remainder: the token is in the
      file and unsettled, no receive of it is in flight, and the mint calls it unspent, or is silent about a token that
      is not pending; or, for a remainder, partly spent. */
  lemma HandedInExactlyWhen(v: World, b: Boot, t: string)
    requires b.cut >= |Plan(v, b)|
    ensures var last, a := LastOf(FoldLast(v.rows), t), b.answers(t);
      var free := t in b.tokens && Unsettled(last) && (a.saga == NoReceive || a.saga == Unparseable);
      && (Call(t, true, a.receive) in NewCalls(v, b) <==>
            free && (a.check == Unspent || (a.check == CheckFailed && last != Some(Pending))))
      && (Call(t, false, AsReceive(a.remainder)) in NewCalls(v, b) <==> free && a.check.SomeSpent?)
  {
    var a := b.answers(t);
    BootCalls(v, b);
    SubmittedIs(b.tokens, FoldLast(v.rows), b.answers, Call(t, true, a.receive));
    SubmittedIs(b.tokens, FoldLast(v.rows), b.answers, Call(t, false, AsReceive(a.remainder)));
  }

  // ---------------------------------------------------------------- a received token is never submitted again

  predicate Accepted(calls: seq<Call>, t: string) {
    exists i :: 0 <= i < |calls| && calls[i].token == t && calls[i].result.Received?
  }

  /** No call, for the token or for its remainder, follows a call for the same token that answered Ok. */
  predicate NoResubmission(calls: seq<Call>) {
    forall i, j :: 0 <= i < j < |calls| && calls[i].result.Received? ==> calls[j].token != calls[i].token
  }

  /** The mint tells the truth: what it accepted, in whole or what was left of it, it calls neither unspent nor partly
      spent. */
  ghost predicate Truthful(w: World, tokens: seq<string>, answers: string -> Answers) {
    forall t :: t in tokens && Accepted(w.calls, t) ==> !answers(t).check.Unspent? && !answers(t).check.SomeSpent?
  }

  ghost predicate TruthfulBoots(bs: seq<Boot>) {
    |bs| == 0 || (
      TruthfulBoots(bs[..|bs| - 1]) &&
      var b := bs[|bs| - 1];
      Distinct(b.tokens) && Truthful(RunBoots(START, bs[..|bs| - 1]), b.tokens, b.answers))
  }

  lemma {:induction false} AcceptedIsLast(calls: seq<Call>, t: string)
    requires NoResubmission(calls) && Accepted(calls, t)
    ensures MayHaveLanded(calls, t)
  {
    var n := |calls| - 1;
    if calls[n].token != t {
      var i :| 0 <= i < |calls| && calls[i].token == t && calls[i].result.Received?;
      assert calls[..n][i] == calls[i];
      AcceptedIsLast(calls[..n], t);
    } else {
      var i :| 0 <= i < |calls| && calls[i].token == t && calls[i].result.Received?;
    }
  }

  /** A boot of a truthful mint submits nothing that was accepted. */
  lemma AcceptedIsNotCalled(bs: seq<Boot>, b: Boot, v: World, c: Call)
    requires v == RunBoots(START, bs) && NoResubmission(v.calls) && Truthful(v, b.tokens, b.answers)
    requires c in NewCalls(v, b)
    ensures !Accepted(v.calls, c.token)
  {
    if Accepted(v.calls, c.token) {
      AcceptedIsLast(v.calls, c.token);
      SubmittedOnlyWhen(bs, b, v, c);
      ResubmittedOnlyWhenUnspent(bs, b, v, c);
    }
  }

  lemma NewCallsDistinct(v: World, b: Boot, i: nat, j: nat)
    requires Distinct(b.tokens) && i < j < |NewCalls(v, b)|
    ensures NewCalls(v, b)[i].token != NewCalls(v, b)[j].token
  {
    BootCalls(v, b);
    SubmittedDistinct(b.tokens, FoldLast(v.rows), b.answers, i, j);
  }

  lemma NothingResubmitted(calls: seq<Call>, more: seq<Call>)
    requires NoResubmission(calls)
    requires forall i, j :: 0 <= i < j < |more| ==> more[i].token != more[j].token
    requires forall j :: 0 <= j < |more| ==> !Accepted(calls, more[j].token)
    ensures NoResubmission(calls + more)
  {}

  lemma BootResubmitsNothing(bs: seq<Boot>, b: Boot, v: World)
    requires v == RunBoots(START, bs) && NoResubmission(v.calls)
    requires Distinct(b.tokens) && Truthful(v, b.tokens, b.answers)
    ensures NoResubmission(v.calls + NewCalls(v, b))
  {
    var more := NewCalls(v, b);
    forall i, j | 0 <= i < j < |more| ensures more[i].token != more[j].token {
      NewCallsDistinct(v, b, i, j);
    }
    forall j | 0 <= j < |more| ensures !Accepted(v.calls, more[j].token) {
      AcceptedIsNotCalled(bs, b, v, more[j]);
    }
    NothingResubmitted(v.calls, more);
  }

  lemma {:induction false} BootsResubmitNothing(bs: seq<Boot>)
    requires TruthfulBoots(bs)
    ensures NoResubmission(RunBoots(START, bs).calls)
  {
    if |bs| != 0 {
      var prev, b := bs[..|bs| - 1], bs[|bs| - 1];
      var v := RunBoots(START, prev);
      BootsResubmitNothing(prev);
      BootResubmitsNothing(prev, b, v);
      BootCalls(v, b);
    }
  }

  /** Over any boots of a truthful mint, each cut off anywhere and each losing any unsynced rows, a token whose
      receive answered Ok, or whose remainder was recovered, is never handed to receive again, nor its remainder
      recovered again. */
  lemma ReceivedNeverResubmitted(bs: seq<Boot>, w: World)
    requires TruthfulBoots(bs) && w == RunBoots(START, bs)
    ensures NoResubmission(w.calls)
  {
    BootsResubmitNothing(bs);
  }
}
