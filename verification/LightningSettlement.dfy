/** The quote store and the settlement monitor, statement by statement.  Every pass is proved to be a run of
    the moves in LightningRuns, so a crash inside it is a prefix of that run followed by Restart. */
module LightningSettlement {
  import opened Options
  import opened GrantLedger
  import opened SessionManagers
  import opened LightningRuns
  import L = LedgerRuns
  import C = LedgerCredits

  class QuoteStore {
    var quotes: map<string, Quote>
    var file: map<string, Quote>

    /** Insert or update, then rewrite the file.  When the write fails, memory keeps the new record. */
    method Upsert(q: string, r: Quote, lost: bool) returns (ok: bool)
      modifies this
      ensures quotes == old(quotes)[q := r] && ok == !lost
      ensures file == if lost then old(file) else quotes
    {
      quotes := quotes[q := r];
      if lost {
        return false;
      }
      file := quotes;
      ok := true;
    }

    /** Removing an absent record writes nothing. */
    method Remove(q: string, lost: bool)
      modifies this
      ensures quotes == old(quotes) - {q}
      ensures file == if lost || q !in old(quotes) then old(file) else quotes
    {
      if q !in quotes {
        assert quotes - {q} == quotes;
        return;
      }
      quotes := quotes - {q};
      if !lost {
        file := quotes;
      }
    }

    /** The quotes with the given granted mark, in some order, each once. */
    method WithMark(granted: bool) returns (qs: seq<string>)
      ensures forall q :: q in qs <==> q in quotes && quotes[q].sessionGranted == granted
      ensures forall i, j :: 0 <= i < j < |qs| ==> qs[i] != qs[j]
    {
      qs := [];
      var todo := quotes.Keys;
      while todo != {}
        invariant todo <= quotes.Keys
        invariant forall q :: q in qs <==> q in quotes && q !in todo && quotes[q].sessionGranted == granted
        invariant forall i, j :: 0 <= i < j < |qs| ==> qs[i] != qs[j]
      {
        var q :| q in todo;
        if quotes[q].sessionGranted == granted {
          qs := qs + [q];
        }
        todo := todo - {q};
      }
    }

    /** Drop settled records that are expired or stale; an unchanged store is not written. */
    method Sweep(now: nat, lost: bool)
      modifies this
      ensures quotes == Swept(old(quotes), now)
      ensures file == if lost || quotes == old(quotes) then old(file) else quotes
    {
      var kept := map q | q in quotes && (!Over(quotes[q], now) || !quotes[q].sessionGranted) :: quotes[q];
      if kept == quotes {
        return;
      }
      quotes := kept;
      if !lost {
        file := quotes;
      }
    }
  }

  /** The records of all quotes but one. */
  function Others(quotes: map<string, Quote>, q: string): map<string, Quote> {
    quotes - {q}
  }

  datatype Outcome = StillUnpaid | ExpiredUnpaid | Granted(allotment: nat) | GrantFailed | Failed

  datatype MintAnswer = MintOk | MintErrIssued | MintErrUntouched

  /** What the mint, the disk and the portal answer during one pass. */
  datatype Answers = Answers(
    checkReached: bool,
    mint: MintAnswer,
    recheckReached: bool,
    writeLost: bool,
    firstSave: Fault,
    recreateSave: Fault,
    lastSave: Fault,
    gateOpens: bool)

  /** Nothing fails during the pass. */
  predicate Smooth(a: Answers) {
    a.checkReached && a.mint == MintOk && !a.writeLost && a.firstSave.NoFault? && a.recreateSave.NoFault? && a.gateOpens
  }

  /** A pass over one quote makes no other moves: its own, and saves.  It opens the gate, marks the record granted and
      forgets the id only when the portal lets it. */
  predicate Own(m: Move, q: string, now: nat, a: Answers) {
    match m
    case MintIssues(k) => k == q
    case MarkMinted(k, lost) => k == q && lost == a.writeLost
    case ConfirmUnpaid(k, t) => k == q && t == now
    case DropUnpaid(k, lost) => k == q && lost == a.writeLost
    case AddFirst(k, t) => k == q && t == now
    case MarkAdded(k, lost) => k == q && lost == a.writeLost
    case Recreate(k, t, fault) => k == q && t == now && fault == a.recreateSave
    case OpenGate(k, t) => k == q && t == now && a.gateOpens
    case MarkGranted(k, lost) => k == q && lost == a.writeLost && a.gateOpens
    case ForgetSettled(ids) => ids == {q} && a.gateOpens
    case Other(t) => t.action.SaveAll? && t.now == now
    case _ => false
  }

  predicate OwnMoves(ms: seq<Move>, q: string, now: nat, a: Answers) {
    forall m :: m in ms ==> Own(m, q, now, a)
  }

  function GrantMoves(q: string, now: nat, fault: Fault, tagged: bool): seq<Move> {
    if tagged then [] else [AddFirst(q, now), Other(L.Timed(L.SaveAll(fault), now))]
  }

  function AddMoves(q: string, now: nat, a: Answers, tagged: bool, saved: bool): seq<Move> {
    GrantMoves(q, now, a.firstSave, tagged) + if saved then [MarkAdded(q, a.writeLost)] else []
  }

  lemma AddIsOwn(ms: seq<Move>, q: string, now: nat, a: Answers, tagged: bool, saved: bool)
    requires ms == AddMoves(q, now, a, tagged, saved)
    ensures OwnMoves(ms, q, now, a)
  {}

  function EndMoves(q: string, now: nat, a: Answers, ok: bool): seq<Move> {
    [MarkGranted(q, a.writeLost)] +
    if ok then [ForgetSettled({q}), Other(L.Timed(L.SaveAll(a.lastSave), now))] else []
  }

  lemma EndIsOwn(ms: seq<Move>, q: string, now: nat, a: Answers, ok: bool)
    requires ms == EndMoves(q, now, a, ok) && a.gateOpens
    ensures OwnMoves(ms, q, now, a)
  {}

  /** Only the marks of a record ever change, and none is taken back. */
  predicate Marked(r: Quote, r': Quote) {
    && r' == r.(minted := r'.minted, allotmentAdded := r'.allotmentAdded, sessionGranted := r'.sessionGranted)
    && (r.minted ==> r'.minted) && (r.allotmentAdded ==> r'.allotmentAdded) && (r.sessionGranted ==> r'.sessionGranted)
  }

  /** The mint has issued the tokens, as its answer or a second look at the quote shows. */
  predicate KnownIssued(before: MintState, a: Answers) {
    a.mint == MintOk || (a.recheckReached && (a.mint == MintErrIssued || before == Issued))
  }

  class Settlement {
    const cfg: Config
    const store: QuoteStore
    const manager: SessionManager
    const dir: StateDir
    ghost var at: Stage
    ghost var withheld: set<string>
    ghost var taken: set<(Mac, L.Taken)>
    var mint: map<string, MintState>  // the mint itself, as it answers this wallet
    ghost var seen: set<string>
    ghost var served: set<string>

    constructor (cfg: Config, store: QuoteStore, manager: SessionManager, dir: StateDir)
      ensures this.cfg == cfg && this.store == store && this.manager == manager && this.dir == dir
      ensures at == Idle && withheld == {} && taken == {} && mint == map[] && seen == {} && served == {}
    {
      this.cfg, this.store, this.manager, this.dir := cfg, store, manager, dir;
      at, withheld, taken, mint, seen, served := Idle, {}, {}, map[], {}, {};
    }

    ghost function State(): World
      reads this, store, manager, dir
    {
      World(cfg, Ledger(manager.Mem(), dir.Files()), store.quotes, store.file, at, withheld, taken, mint, seen, served)
    }

    function MintAnswers(q: string): MintState
      reads this
    {
      if q in mint then mint[q] else Unpaid
    }

    // -------------------------------------------------------------- single steps, each of them one move

    method CallMint(q: string, answer: MintAnswer) returns (ghost trace: seq<Move>)
      requires MintAnswers(q) != Unpaid
      modifies this`mint
      ensures Runs(old(State()), trace, State())
      ensures forall m :: m in trace ==> m == MintIssues(q)
      ensures forall k :: k != q ==> MintAnswers(k) == old(MintAnswers(k))
      ensures MintAnswers(q) == if answer == MintErrUntouched then old(MintAnswers(q)) else Issued
    {
      ghost var w := State();
      NoMoves(w);
      trace := [];
      if answer != MintErrUntouched && MintAnswers(q) == Paid {
        mint := mint[q := Issued];
        OneMore(w, [], w, MintIssues(q), State());
        trace := [] + [MintIssues(q)];
      }
    }

    method SetMinted(q: string, lost: bool) returns (ok: bool)
      requires Pending(State(), q) && !store.quotes[q].minted && MintAnswers(q) == Issued
      modifies this`at, store
      ensures Does(old(State()), MarkMinted(q, lost), State()) && ok == !lost
      ensures Pending(State(), q) && store.quotes[q] == old(store.quotes[q]).(minted := true)
      ensures Others(store.quotes, q) == Others(old(store.quotes), q)
    {
      at := Idle;
      ok := store.Upsert(q, store.quotes[q].(minted := true), lost);
    }

    method SetAdded(q: string, lost: bool) returns (ok: bool)
      requires Pending(State(), q) && store.quotes[q].minted && !store.quotes[q].allotmentAdded
      requires HasGrant(manager.Mem(), store.quotes[q].mac, Lightning(q))
      modifies this`at, store
      ensures Does(old(State()), MarkAdded(q, lost), State()) && ok == !lost
      ensures Pending(State(), q) && store.quotes[q] == old(store.quotes[q]).(allotmentAdded := true)
      ensures Others(store.quotes, q) == Others(old(store.quotes), q)
    {
      at := Idle;
      ok := store.Upsert(q, store.quotes[q].(allotmentAdded := true), lost);
    }

    method SetGranted(q: string, lost: bool) returns (ok: bool)
      requires Pending(State(), q) && at == Gated(q)
      modifies this`at, store
      ensures Does(old(State()), MarkGranted(q, lost), State()) && ok == !lost
      ensures q in store.quotes && store.quotes[q] == old(store.quotes[q]).(sessionGranted := true)
      ensures Others(store.quotes, q) == Others(old(store.quotes), q)
    {
      at := Idle;
      ok := store.Upsert(q, store.quotes[q].(sessionGranted := true), lost);
    }

    method AddAllotment(q: string, now: nat)
      requires Pending(State(), q) && store.quotes[q].minted && !store.quotes[q].allotmentAdded
      requires !HasGrant(manager.Mem(), store.quotes[q].mac, Lightning(q))
      modifies this`at, manager
      ensures Does(old(State()), AddFirst(q, now), State())
      ensures HasGrant(manager.Mem(), store.quotes[q].mac, Lightning(q))
    {
      var r := store.quotes[q];
      at := Idle;
      AddedHasGrant(manager.Mem(), r.mac, Metric(cfg, r), Terms(cfg, r), Lightning(q), now);
      var _ := manager.AddAllotment(r.mac, Metric(cfg, r), Terms(cfg, r), GRANT_SECS, Some(Lightning(q)), now);
    }

    ghost predicate IsTagged(q: string)
      requires q in store.quotes
      reads this, store, manager
    {
      HasGrant(manager.Mem(), store.quotes[q].mac, Lightning(q))
    }

    ghost predicate IsCarried(q: string, now: nat)
      requires q in store.quotes
      reads this, store, manager
    {
      HasLiveGrant(manager.Mem(), store.quotes[q].mac, Lightning(q), now)
    }

    /** A durable save; a session that had a grant in memory still has it. */
    method SaveSessions(now: nat, fault: Fault) returns (ok: bool)
      modifies this`at, manager, dir
      ensures Does(old(State()), Other(L.Timed(L.SaveAll(fault), now)), State())
      ensures manager.sessions == old(manager.sessions) && old(manager.grantTombstones) <= manager.grantTombstones
      ensures forall id :: Held(manager.Mem(), id) ==> old(Held(manager.Mem(), id))
      ensures manager.dirty == !ok && (fault.NoFault? ==> ok)
    {
      ghost var w := State();
      at := Idle;
      ok := manager.SaveNow(dir, now, fault);
      SaveMove(w, now, fault);
    }

    method RecreateGrant(q: string, now: nat, fault: Fault) returns (ok: bool)
      requires Pending(State(), q) && store.quotes[q].allotmentAdded
      requires !HasLiveGrant(manager.Mem(), store.quotes[q].mac, Lightning(q), now)
      modifies this`at, manager, dir
      ensures Does(old(State()), Recreate(q, now, fault), State())
      ensures ok ==> at.Recreated? && at.quote == q && at.now == now
      ensures fault.NoFault? ==> ok
    {
      var r := store.quotes[q];
      ghost var w := State();
      ok := manager.RecreateOrRollBack(dir, r.mac, Metric(cfg, r), Terms(cfg, r), GRANT_SECS, Lightning(q), true, now,
                                       fault);
      at := if ok then Recreated(q, now, Fits(w.ledger.mem, r.mac, Terms(cfg, r), now)) else Idle;
      RecreateMove(w, q, now, fault, State().ledger, ok);
    }

    method GrantAccess(q: string, now: nat)
      requires Enabled(State(), OpenGate(q, now))
      modifies this`at, this`served
      ensures Does(old(State()), OpenGate(q, now), State())
      ensures at == Gated(q) && q in served
    {
      served := served + {q};
      at := Gated(q);
    }

    method Forget(qs: seq<string>, ghost settled: set<string>) returns (changed: bool)
      requires settled == (set q | q in qs) && settled <= GrantedOf(store.quotes)
      modifies this`at, manager
      ensures Does(old(State()), ForgetSettled(settled), State())
      ensures forall q :: q in settled ==> !Held(manager.Mem(), Lightning(q))
      ensures changed == HeldAny(old(manager.Mem()), settled)
    {
      at := Idle;
      ghost var m := manager.Mem();
      var ids := seq(|qs|, i requires 0 <= i < |qs| => Lightning(qs[i]));
      changed := manager.ForgetGrants(ids);
      assert Elements(ids) == Ids(settled) by {
        assert forall q :: q in qs ==> exists i :: 0 <= i < |qs| && qs[i] == q && ids[i] == Lightning(q);
      }
      forall q | q in settled ensures !Held(manager.Mem(), Lightning(q)) {
        C.ForgottenIsNotHeld(m, Ids(settled), Lightning(q));
      }
      HeldAnyOf(m, ids, settled);
    }

    // -------------------------------------------------------------- a new quote

    /** The invoice is shown only when its record is durable; otherwise the record is taken back, which may fail too. */
    method OfferInvoice(q: string, r: Quote, lost: bool, removalLost: bool)
      returns (shown: bool, ghost trace: seq<Move>)
      requires Enabled(State(), NewQuote(q, r, lost))
      modifies this`at, this`seen, this`withheld, store
      ensures Runs(old(State()), trace, State())
      ensures shown == !lost
      ensures shown ==>
        withheld == old(withheld) && q in store.quotes && store.file == store.quotes && store.quotes[q] == r
      ensures !shown ==> q in withheld && store.quotes == old(store.quotes) - {q}
      ensures Others(store.quotes, q) == Others(old(store.quotes), q)
    {
      ghost var w0 := State();
      NoMoves(w0);
      at, seen := Idle, seen + {q};
      shown := store.Upsert(q, r, lost);
      withheld := if lost then withheld + {q} else withheld;
      ghost var w1 := State();
      OneMore(w0, [], w0, NewQuote(q, r, lost), w1);
      trace := [] + [NewQuote(q, r, lost)];
      if !shown {
        store.Remove(q, removalLost);
        OneMore(w0, trace, w1, Withhold(q, removalLost), State());
        trace := trace + [Withhold(q, removalLost)];
      }
    }

    // -------------------------------------------------------------- one settle pass

    /** There is something to settle: the quote is minted, or the mint has been paid. */
    predicate Ready(q: string)
      reads this, store
    {
      q in store.quotes && (store.quotes[q].minted || MintAnswers(q) != Unpaid)
    }

    /** The mint is asked, and calls the quote unpaid. */
    predicate SeenUnpaid(q: string, a: Answers)
      requires q in store.quotes
      reads this, store
    {
      !store.quotes[q].minted && a.checkReached && MintAnswers(q) == Unpaid
    }

    predicate OutOfTime(q: string, now: nat)
      requires q in store.quotes
      reads this, store
    {
      Over(store.quotes[q], now)
    }

    /** Ask the mint, mint once, mark the record; an error from minting is settled by asking again. */
    method MintPhase(q: string, now: nat, a: Answers) returns (done: Option<Outcome>, ghost trace: seq<Move>)
      requires Pending(State(), q)
      modifies this, store
      ensures Runs(old(State()), trace, State())
      ensures Pending(State(), q) && Marked(old(store.quotes[q]), store.quotes[q])
      ensures done == None ==> store.quotes[q] == old(store.quotes[q]).(minted := true)
      ensures old(store.quotes[q].minted) ==> done == None && trace == []
      ensures done == Some(ExpiredUnpaid) ==> at == ConfirmedUnpaid(q)
      ensures done == Some(ExpiredUnpaid) <==> old(SeenUnpaid(q, a) && OutOfTime(q, now))
      ensures done == Some(StillUnpaid) <==> old(SeenUnpaid(q, a) && !OutOfTime(q, now))
      ensures done == None <==> old(store.quotes[q].minted ||
        (a.checkReached && MintAnswers(q) != Unpaid && KnownIssued(MintAnswers(q), a) && !a.writeLost))
      ensures done.Some? ==> !done.value.Granted? && !done.value.GrantFailed?
      ensures OwnMoves(trace, q, now, a)
      ensures (forall k :: k != q ==> MintAnswers(k) == old(MintAnswers(k))) && served == old(served)
      ensures Others(store.quotes, q) == Others(old(store.quotes), q)
    {
      ghost var w0 := State();
      NoMoves(w0);
      trace := [];
      var r := store.quotes[q];
      if r.minted {
        return None, trace;
      }
      if !a.checkReached {
        return Some(Failed), trace;
      }
      if MintAnswers(q) == Unpaid {
        if Over(r, now) {
          at := ConfirmedUnpaid(q);
          OneMore(w0, [], w0, ConfirmUnpaid(q, now), State());
          return Some(ExpiredUnpaid), [] + [ConfirmUnpaid(q, now)];
        }
        return Some(StillUnpaid), trace;
      }
      var ok;
      ok, trace := MintAndMark(q, now, a);
      done := if ok then None else Some(Failed);
    }

    /** The mint has been paid: mint, and mark the record when the tokens are known to be issued. */
    method MintAndMark(q: string, now: nat, a: Answers) returns (ok: bool, ghost trace: seq<Move>)
      requires Pending(State(), q) && !store.quotes[q].minted && MintAnswers(q) != Unpaid
      modifies this, store
      ensures Runs(old(State()), trace, State()) && OwnMoves(trace, q, now, a)
      ensures ok <==> old(KnownIssued(MintAnswers(q), a)) && !a.writeLost
      ensures Pending(State(), q) && Marked(old(store.quotes[q]), store.quotes[q])
      ensures ok ==> store.quotes[q] == old(store.quotes[q]).(minted := true)
      ensures (forall k :: k != q ==> MintAnswers(k) == old(MintAnswers(k))) && served == old(served)
      ensures Others(store.quotes, q) == Others(old(store.quotes), q)
    {
      ghost var w0 := State();
      trace := CallMint(q, a.mint);
      if a.mint != MintOk && (!a.recheckReached || MintAnswers(q) != Issued) {
        return false, trace;
      }
      ghost var w1 := State();
      ok := SetMinted(q, a.writeLost);
      OneMore(w0, trace, w1, MarkMinted(q, a.writeLost), State());
      trace := trace + [MarkMinted(q, a.writeLost)];
    }

    method AddAndSave(q: string, now: nat, fault: Fault) returns (ok: bool, ghost trace: seq<Move>)
      requires Pending(State(), q) && store.quotes[q].minted && !store.quotes[q].allotmentAdded
      requires !HasGrant(manager.Mem(), store.quotes[q].mac, Lightning(q))
      modifies this`at, manager, dir
      ensures Runs(old(State()), trace, State())
      ensures HasGrant(manager.Mem(), store.quotes[q].mac, Lightning(q)) && (fault.NoFault? ==> ok)
      ensures manager.dirty == !ok
      ensures trace == [AddFirst(q, now), Other(L.Timed(L.SaveAll(fault), now))]
    {
      ghost var w0, save := State(), Other(L.Timed(L.SaveAll(fault), now));
      NoMoves(w0);
      AddAllotment(q, now);
      ghost var w1 := State();
      OneMore(w0, [], w0, AddFirst(q, now), w1);
      ok := SaveSessions(now, fault);
      OneMore(w0, [] + [AddFirst(q, now)], w1, save, State());
      trace := [] + [AddFirst(q, now)] + [save];
    }

    method AddUnlessTagged(q: string, now: nat, fault: Fault) returns (ok: bool, ghost trace: seq<Move>)
      requires Pending(State(), q) && store.quotes[q].minted && !store.quotes[q].allotmentAdded
      modifies this`at, manager, dir
      ensures Runs(old(State()), trace, State())
      ensures HasGrant(manager.Mem(), store.quotes[q].mac, Lightning(q)) && (fault.NoFault? ==> ok)
      ensures !ok <==> !old(IsTagged(q)) && manager.dirty
      ensures trace == GrantMoves(q, now, fault, old(IsTagged(q)))
    {
      NoMoves(State());
      ok, trace := true, [];
      if !HasGrant(manager.Mem(), store.quotes[q].mac, Lightning(q)) {
        ok, trace := AddAndSave(q, now, fault);
      }
    }

    /** Apply the allotment unless an id proves that it was, then mark the record.  After a failed save the
        grant stays in memory, so the next pass finds the id and goes straight to the mark. */
    method AllotmentPhase(q: string, now: nat, a: Answers) returns (done: Option<Outcome>, ghost trace: seq<Move>)
      requires Pending(State(), q) && store.quotes[q].minted
      modifies this, store, manager, dir
      ensures Runs(old(State()), trace, State())
      ensures Pending(State(), q) && Marked(old(store.quotes[q]), store.quotes[q])
      ensures done == None ==> store.quotes[q] == old(store.quotes[q]).(allotmentAdded := true)
      ensures done == Some(GrantFailed) <==> old(!store.quotes[q].allotmentAdded && !IsTagged(q)) && manager.dirty
      ensures done == None <==> old(store.quotes[q].allotmentAdded) || (done != Some(GrantFailed) && !a.writeLost)
      ensures done.Some? ==> done.value == GrantFailed || done.value == Failed
      ensures Smooth(a) ==> done == None
      ensures OwnMoves(trace, q, now, a)
      ensures mint == old(mint) && served == old(served)
      ensures Others(store.quotes, q) == Others(old(store.quotes), q)
    {
      NoMoves(State());
      if store.quotes[q].allotmentAdded {
        return None, [];
      }
      done, trace := AddAndMark(q, now, a);
      AddIsOwn(trace, q, now, a, old(IsTagged(q)), done != Some(GrantFailed));
    }

    method AddAndMark(q: string, now: nat, a: Answers) returns (done: Option<Outcome>, ghost trace: seq<Move>)
      requires Pending(State(), q) && store.quotes[q].minted && !store.quotes[q].allotmentAdded
      modifies this, store, manager, dir
      ensures Runs(old(State()), trace, State())
      ensures trace == AddMoves(q, now, a, old(IsTagged(q)), done != Some(GrantFailed))
      ensures Pending(State(), q)
      ensures store.quotes[q] ==
        if done == Some(GrantFailed) then old(store.quotes[q]) else old(store.quotes[q]).(allotmentAdded := true)
      ensures done ==
        if !old(IsTagged(q)) && manager.dirty then Some(GrantFailed) else if a.writeLost then Some(Failed) else None
      ensures a.firstSave.NoFault? ==> done != Some(GrantFailed)
      ensures mint == old(mint) && served == old(served)
      ensures Others(store.quotes, q) == Others(old(store.quotes), q)
    {
      ghost var w0 := State();
      var saved;
      saved, trace := AddUnlessTagged(q, now, a.firstSave);
      if !saved {
        return Some(GrantFailed), trace;
      }
      ghost var w1 := State();
      var ok := SetAdded(q, a.writeLost);
      OneMore(w0, trace, w1, MarkAdded(q, a.writeLost), State());
      trace := trace + [MarkAdded(q, a.writeLost)];
      done := if ok then None else Some(Failed);
    }

    /** Recreate a grant that no live session carries, and open the gate. */
    method GatePhase(q: string, now: nat, a: Answers) returns (ok: bool, ghost trace: seq<Move>)
      requires Pending(State(), q) && store.quotes[q].minted && store.quotes[q].allotmentAdded
      modifies this, manager, dir
      ensures Runs(old(State()), trace, State())
      ensures !a.gateOpens ==> !ok
      ensures a.gateOpens && (a.recreateSave.NoFault? || old(IsCarried(q, now))) ==> ok
      ensures ok ==> at == Gated(q)
      ensures served == if ok then old(served) + {q} else old(served)
      ensures Smooth(a) ==> ok
      ensures OwnMoves(trace, q, now, a) && mint == old(mint)
    {
      ghost var w0 := State();
      NoMoves(w0);
      trace := [];
      if !HasLiveGrant(manager.Mem(), store.quotes[q].mac, Lightning(q), now) {
        ok := RecreateGrant(q, now, a.recreateSave);
        OneMore(w0, [], w0, Recreate(q, now, a.recreateSave), State());
        trace := [] + [Recreate(q, now, a.recreateSave)];
        if !ok {
          return;
        }
      }
      if !a.gateOpens {
        return false, trace;
      }
      ghost var w1 := State();
      GrantAccess(q, now);
      OneMore(w0, trace, w1, OpenGate(q, now), State());
      trace := trace + [OpenGate(q, now)];
      ok := true;
    }

    method ForgetAndSave(q: string, now: nat, fault: Fault) returns (ghost trace: seq<Move>)
      requires q in store.quotes && store.quotes[q].sessionGranted
      modifies this`at, manager, dir
      ensures Runs(old(State()), trace, State())
      ensures !Held(manager.Mem(), Lightning(q))
      ensures trace == [ForgetSettled({q}), Other(L.Timed(L.SaveAll(fault), now))]
    {
      ghost var w0, save := State(), Other(L.Timed(L.SaveAll(fault), now));
      NoMoves(w0);
      assert (set k | k in [q]) == {q};
      var _ := Forget([q], {q});
      ghost var w1 := State();
      OneMore(w0, [], w0, ForgetSettled({q}), w1);
      var _ := SaveSessions(now, fault);
      OneMore(w0, [] + [ForgetSettled({q})], w1, save, State());
      trace := [] + [ForgetSettled({q})] + [save];
    }

    /** Mark the record granted, and only when that is durable forget the id. */
    method TerminalPhase(q: string, now: nat, a: Answers) returns (ok: bool, ghost trace: seq<Move>)
      requires Pending(State(), q) && at == Gated(q)
      modifies this, store, manager, dir
      ensures Runs(old(State()), trace, State())
      ensures ok == !a.writeLost
      ensures q in store.quotes && store.quotes[q] == old(store.quotes[q]).(sessionGranted := true)
      ensures trace == EndMoves(q, now, a, ok)
      ensures !ok ==> manager.Mem() == old(manager.Mem())
      ensures served == old(served) && mint == old(mint)
      ensures ok ==> !Held(manager.Mem(), Lightning(q))
      ensures Others(store.quotes, q) == Others(old(store.quotes), q)
    {
      ghost var w0 := State();
      NoMoves(w0);
      ok := SetGranted(q, a.writeLost);
      ghost var w1 := State();
      OneMore(w0, [], w0, MarkGranted(q, a.writeLost), w1);
      trace := [] + [MarkGranted(q, a.writeLost)];
      if ok {
        ghost var t := ForgetAndSave(q, now, a.lastSave);
        Chain(w0, trace, w1, t, State());
        trace := trace + t;
      }
    }

    /** Mint and allotment. */
    method PreparePhase(q: string, now: nat, a: Answers) returns (done: Option<Outcome>, ghost trace: seq<Move>)
      requires Pending(State(), q)
      modifies this, store, manager, dir
      ensures Runs(old(State()), trace, State())
      ensures Pending(State(), q) && Marked(old(store.quotes[q]), store.quotes[q])
      ensures done == None ==> store.quotes[q] == old(store.quotes[q]).(minted := true, allotmentAdded := true)
      ensures done.Some? ==> !done.value.Granted?
      ensures old(!Ready(q)) ==> done.Some?
      ensures OwnMoves(trace, q, now, a)
      ensures done == Some(ExpiredUnpaid) ==> at == ConfirmedUnpaid(q)
      ensures done == Some(ExpiredUnpaid) <==> old(SeenUnpaid(q, a) && OutOfTime(q, now))
      ensures done == Some(StillUnpaid) <==> old(SeenUnpaid(q, a) && !OutOfTime(q, now))
      ensures Smooth(a) && old(Ready(q)) ==> done == None
      ensures (forall k :: k != q ==> MintAnswers(k) == old(MintAnswers(k))) && served == old(served)
      ensures Others(store.quotes, q) == Others(old(store.quotes), q)
    {
      ghost var w0 := State();
      done, trace := MintPhase(q, now, a);
      if done.Some? {
        return;
      }
      ghost var w1 := State();
      ghost var t;
      done, t := AllotmentPhase(q, now, a);
      Chain(w0, trace, w1, t, State());
      trace := trace + t;
    }

    /** The gate and the end. */
    method FinishPhase(q: string, now: nat, a: Answers) returns (outcome: Outcome, ghost trace: seq<Move>)
      requires Pending(State(), q) && store.quotes[q].minted && store.quotes[q].allotmentAdded
      modifies this, store, manager, dir
      ensures Runs(old(State()), trace, State())
      ensures outcome == GrantFailed || outcome == Failed || outcome == Granted(Terms(cfg, old(store.quotes[q])))
      ensures !a.gateOpens ==> outcome == GrantFailed
      ensures a.gateOpens && (a.recreateSave.NoFault? || old(IsCarried(q, now))) ==> outcome != GrantFailed
      ensures outcome.Granted? <==> outcome != GrantFailed && !a.writeLost
      ensures served == if outcome == GrantFailed then old(served) else old(served) + {q}
      ensures q in store.quotes
      ensures store.quotes[q] == old(store.quotes[q]).(sessionGranted := outcome != GrantFailed)
      ensures outcome.Granted? ==> !Held(manager.Mem(), Lightning(q))
      ensures Smooth(a) ==> outcome.Granted?
      ensures OwnMoves(trace, q, now, a) && mint == old(mint)
      ensures Others(store.quotes, q) == Others(old(store.quotes), q)
    {
      ghost var w0 := State();
      var allotment := Terms(cfg, store.quotes[q]);
      var ok;
      ok, trace := GatePhase(q, now, a);
      if !ok {
        return GrantFailed, trace;
      }
      ghost var w1 := State();
      ghost var t;
      ok, t := TerminalPhase(q, now, a);
      Chain(w0, trace, w1, t, State());
      EndIsOwn(t, q, now, a, ok);
      trace := trace + t;
      outcome := if ok then Granted(allotment) else Failed;
    }

    /** One settle pass is a run of the quote's own moves.  It answers Granted only when the gate opened, the granted
        mark is durable and the id is gone; it answers Granted whenever the quote was paid and nothing failed.  A pass
        that the portal refuses serves nobody and leaves the record ungranted. */
    method SettleQuote(q: string, now: nat, a: Answers) returns (outcome: Outcome, ghost trace: seq<Move>)
      requires Pending(State(), q)
      modifies this, store, manager, dir
      ensures Runs(old(State()), trace, State())
      ensures outcome.Granted? ==>
        q in served && q in store.quotes && store.quotes[q].sessionGranted && !Held(manager.Mem(), Lightning(q))
      ensures outcome.Granted? ==> outcome.allotment == Terms(cfg, old(store.quotes[q]))
      ensures q in store.quotes && Marked(old(store.quotes[q]), store.quotes[q])
      ensures store.quotes[q].sessionGranted ==> a.gateOpens && old(Ready(q)) && q in served
      ensures outcome.Granted? ==> a.gateOpens && !a.writeLost && old(Ready(q))
      ensures served == if store.quotes[q].sessionGranted then old(served) + {q} else old(served)
      ensures OwnMoves(trace, q, now, a)
      ensures outcome == ExpiredUnpaid ==> at == ConfirmedUnpaid(q) && Pending(State(), q)
      ensures outcome == ExpiredUnpaid <==> old(SeenUnpaid(q, a) && OutOfTime(q, now))
      ensures outcome == StillUnpaid <==> old(SeenUnpaid(q, a) && !OutOfTime(q, now))
      ensures Smooth(a) && old(Ready(q)) ==> outcome.Granted?
      ensures forall k :: k != q ==> MintAnswers(k) == old(MintAnswers(k))
      ensures Others(store.quotes, q) == Others(old(store.quotes), q)
    {
      ghost var w0 := State();
      var done;
      done, trace := PreparePhase(q, now, a);
      if done.Some? {
        return done.value, trace;
      }
      ghost var w1 := State();
      ghost var t;
      outcome, t := FinishPhase(q, now, a);
      Chain(w0, trace, w1, t, State());
      trace := trace + t;
    }

    // -------------------------------------------------------------- one tick of the monitor

    /** Forget the ids of settled quotes, and save only when that changed something. */
    method SweepIds(now: nat, fault: Fault) returns (ghost trace: seq<Move>)
      modifies this`at, manager, dir
      ensures Runs(old(State()), trace, State())
      ensures forall q :: q in GrantedOf(store.quotes) ==> !Held(manager.Mem(), Lightning(q))
      ensures trace == SweepMoves(GrantedOf(store.quotes), old(manager.Mem()), now, fault)
    {
      ghost var w0 := State();
      NoMoves(w0);
      trace := [];
      var settled := store.WithMark(true);
      ghost var granted := GrantedOf(store.quotes);
      SettledAre(settled, store.quotes);
      if settled != [] {
        var changed := Forget(settled, granted);
        ghost var forget := ForgetSettled(granted);
        ghost var w1 := State();
        OneMore(w0, [], w0, forget, w1);
        trace := [] + [forget];
        if changed {
          ghost var t := SaveAfter(now, fault);
          Chain(w0, trace, w1, t, State());
          trace := trace + t;
        }
      }
    }

    method SaveAfter(now: nat, fault: Fault) returns (ghost trace: seq<Move>)
      modifies this`at, manager, dir
      ensures Runs(old(State()), trace, State()) && trace == [Other(L.Timed(L.SaveAll(fault), now))]
      ensures forall id :: Held(manager.Mem(), id) ==> old(Held(manager.Mem(), id))
    {
      ghost var w0, save := State(), Other(L.Timed(L.SaveAll(fault), now));
      NoMoves(w0);
      var _ := SaveSessions(now, fault);
      OneMore(w0, [], w0, save, State());
      trace := [] + [save];
    }

    method RemoveUnpaid(q: string, lost: bool)
      requires Pending(State(), q) && at == ConfirmedUnpaid(q)
      modifies this`at, store
      ensures Does(old(State()), DropUnpaid(q, lost), State())
      ensures q !in store.quotes
      ensures Others(store.quotes, q) == Others(old(store.quotes), q)
    {
      at := Idle;
      store.Remove(q, lost);
    }

    method SweepStore(now: nat, lost: bool) returns (ghost trace: seq<Move>)
      modifies this`at, store
      ensures Runs(old(State()), trace, State()) && SweptQuotes(old(State()), State(), now)
      ensures forall m :: m in trace ==> m == Sweep(now, lost)
    {
      ghost var w0 := State();
      NoMoves(w0);
      trace := [];
      store.Sweep(now, lost);
      if store.quotes != w0.quotes {
        at := Idle;
        OneMore(w0, [], w0, Sweep(now, lost), State());
        trace := [] + [Sweep(now, lost)];
      }
    }

    /** Settle one quote, and drop it when the mint calls it unpaid and its time is over. */
    method SettleOrDrop(q: string, now: nat, a: Answers) returns (ghost trace: seq<Move>)
      requires Pending(State(), q)
      modifies this, store, manager, dir
      ensures Runs(old(State()), trace, State())
      ensures PassLeaves(old(State()), State(), q, now, a) && OnlyQuote(old(State()), State(), q)
      ensures OwnMoves(trace, q, now, a)
    {
      ghost var w0 := State();
      var outcome;
      outcome, trace := SettleQuote(q, now, a);
      forall k | k != q ensures MintOf(State(), k) == MintOf(w0, k) {
        assert MintAnswers(k) == old(MintAnswers(k));
      }
      if outcome == ExpiredUnpaid {
        ghost var u := State();
        RemoveUnpaid(q, a.writeLost);
        OneMore(w0, trace, u, DropUnpaid(q, a.writeLost), State());
        trace := trace + [DropUnpaid(q, a.writeLost)];
      }
      OthersAreSame(w0, State(), q);
    }

    /** Settle every quote that was ungranted when the tick began; each is still as it was when its turn comes. */
    method SettleAll(records: seq<string>, now: nat, answers: string -> Answers) returns (ghost trace: seq<Move>)
      requires forall q :: q in records ==> Ungranted(store.quotes, q)
      requires forall i, j :: 0 <= i < j < |records| ==> records[i] != records[j]
      modifies this, store, manager, dir
      ensures Runs(old(State()), trace, State()) && TickMoves(trace, now, answers)
      ensures Progress(old(State()), State(), records, |records|, now, answers)
    {
      ghost var w0 := State();
      NoMoves(w0);
      trace := [];
      for i := 0 to |records|
        invariant Runs(w0, trace, State()) && TickMoves(trace, now, answers)
        invariant Progress(w0, State(), records, i, now, answers)
      {
        var q := records[i];
        ghost var v := State();
        assert q in records && SameQuote(w0, v, q);
        ghost var t := SettleOrDrop(q, now, answers(q));
        Chain(w0, trace, v, t, State());
        OwnInTick(t, q, now, answers);
        trace := trace + t;
        ProgressOneMore(w0, v, State(), records, i, now, answers);
      }
    }

    /** A whole tick is a run of such moves, whatever the mint, the disk and the portal answer.  A quote that was paid
        when the tick began is settled when it ends, unless something failed; a quote that was not paid, or that the
        portal refuses, is not served and not marked; and settled and unknown quotes are not served again. */
    method Tick(now: nat, wallet: bool, answers: string -> Answers, sweepSave: Fault, sweepLost: bool)
      returns (ghost trace: seq<Move>)
      modifies this, store, manager, dir
      ensures Runs(old(State()), trace, State()) && TickMoves(trace, now, answers)
      ensures SweepMoves(GrantedOf(old(store.quotes)), old(manager.Mem()), now, sweepSave) <= trace
      ensures wallet || !AnyUngranted(old(store.quotes)) ==> RecordsLeft(old(State()), State(), now, answers)
      ensures !wallet && AnyUngranted(old(store.quotes)) ==>
        store.quotes == old(store.quotes) && store.file == old(store.file) && served == old(served)
    {
      ghost var w0 := State();
      trace := SweepIds(now, sweepSave);
      ghost var w1 := State();
      ghost var t := SettleUngranted(now, wallet, answers, sweepLost);
      Chain(w0, trace, w1, t, State());
      SweptFirst(trace, GrantedOf(w0.quotes), w0.ledger.mem, now, sweepSave, t, answers);
      if wallet || !AnyUngranted(w1.quotes) {
        AllLeft(w0, w1, State(), now, answers);
      }
      trace := trace + t;
    }

    /** Without a wallet, nothing is done while there is a quote to settle. */
    method SettleUngranted(now: nat, wallet: bool, answers: string -> Answers, sweepLost: bool)
      returns (ghost trace: seq<Move>)
      modifies this, store, manager, dir
      ensures Runs(old(State()), trace, State()) && TickMoves(trace, now, answers)
      ensures wallet || !AnyUngranted(old(store.quotes)) ==> RecordsLeft(old(State()), State(), now, answers)
      ensures !wallet && AnyUngranted(old(store.quotes)) ==> State() == old(State())
    {
      NoMoves(State());
      trace := [];
      var records := store.WithMark(false);
      SomeUngranted(store.quotes, records);
      if records == [] || wallet {
        trace := SettleAndSweep(records, now, answers, sweepLost);
      }
    }

    method SettleAndSweep(records: seq<string>, now: nat, answers: string -> Answers, sweepLost: bool)
      returns (ghost trace: seq<Move>)
      requires forall q :: q in records <==> Ungranted(store.quotes, q)
      requires forall i, j :: 0 <= i < j < |records| ==> records[i] != records[j]
      modifies this, store, manager, dir
      ensures Runs(old(State()), trace, State()) && TickMoves(trace, now, answers)
      ensures RecordsLeft(old(State()), State(), now, answers)
    {
      ghost var w0 := State();
      trace := SettleAll(records, now, answers);
      ghost var w1 := State();
      ghost var t := SweepStore(now, sweepLost);
      Chain(w0, trace, w1, t, State());
      trace := trace + t;
      RecordsAreLeft(w0, w1, State(), records, now, answers);
    }
  }

  /** The mint is asked about the quote and calls it unpaid, and its time is over. */
  predicate OverUnpaid(w: World, q: string, now: nat, a: Answers)
    requires q in w.quotes
  {
    !w.quotes[q].minted && a.checkReached && MintOf(w, q) == Unpaid && Over(w.quotes[q], now)
  }

  /** The mint has been paid for the quote. */
  predicate WasPaid(w: World, q: string)
    requires q in w.quotes
  {
    w.quotes[q].minted || MintOf(w, q) != Unpaid
  }

  /** What one pass leaves of its quote: it is dropped exactly when it is over unpaid; it is served exactly when it is
      marked as granted, which takes payment and the portal, and which follows when nothing fails. */
  predicate PassLeaves(w: World, w': World, q: string, now: nat, a: Answers)
    requires q in w.quotes
  {
    var granted := q in w'.quotes && w'.quotes[q].sessionGranted;
    && (q !in w'.quotes <==> OverUnpaid(w, q, now, a))
    && (q in w'.quotes ==> Marked(w.quotes[q], w'.quotes[q]))
    && (granted ==> a.gateOpens && WasPaid(w, q))
    && (Smooth(a) && WasPaid(w, q) ==> granted)
    && (q in w'.served <==> q in w.served || granted)
  }

  /** The quote, its payment and its service are the same. */
  predicate SameQuote(w: World, w': World, q: string) {
    && (q in w'.quotes <==> q in w.quotes) && (q in w.quotes ==> w'.quotes[q] == w.quotes[q])
    && MintOf(w', q) == MintOf(w, q) && (q in w'.served <==> q in w.served)
  }

  ghost predicate OnlyQuote(w: World, w': World, q: string) {
    forall k :: k != q ==> SameQuote(w, w', k)
  }

  lemma OthersAreSame(w: World, w': World, q: string)
    requires Others(w.quotes, q) == Others(w'.quotes, q) && (w'.served == w.served || w'.served == w.served + {q})
    requires forall k :: k != q ==> MintOf(w', k) == MintOf(w, k)
    ensures OnlyQuote(w, w', q)
  {
    forall k | k != q ensures SameQuote(w, w', k) {
      assert k in w.quotes <==> k in Others(w.quotes, q);
      assert k in w'.quotes <==> k in Others(w'.quotes, q);
      assert k in w.quotes ==> Others(w.quotes, q)[k] == Others(w'.quotes, q)[k];
    }
  }

  /** The first `n` quotes have had their pass, and no other has changed. */
  ghost predicate Progress(w: World, w': World, records: seq<string>, n: nat, now: nat, answers: string -> Answers)
    requires n <= |records|
  {
    && (forall i :: 0 <= i < n ==>
          records[i] in w.quotes && PassLeaves(w, w', records[i], now, answers(records[i])))
    && forall q :: q !in records[..n] ==> SameQuote(w, w', q)
  }

  lemma PassWasNext(w: World, v: World, w': World, q: string, now: nat, a: Answers)
    requires q in v.quotes && SameQuote(w, v, q) && PassLeaves(v, w', q, now, a)
    ensures PassLeaves(w, w', q, now, a)
  {}

  lemma PassStays(w: World, v: World, w': World, q: string, now: nat, a: Answers)
    requires q in w.quotes && PassLeaves(w, v, q, now, a) && SameQuote(v, w', q)
    ensures PassLeaves(w, w', q, now, a)
  {}

  lemma ProgressOneMore(w: World, v: World, w': World, records: seq<string>, n: nat, now: nat,
                        answers: string -> Answers)
    requires n < |records| && records[n] in w.quotes
    requires forall i, j :: 0 <= i < j < |records| ==> records[i] != records[j]
    requires Progress(w, v, records, n, now, answers) && records[n] in v.quotes
    requires PassLeaves(v, w', records[n], now, answers(records[n])) && OnlyQuote(v, w', records[n])
    ensures Progress(w, w', records, n + 1, now, answers)
  {
    var q := records[n];
    assert q !in records[..n] && SameQuote(w, v, q);
    PassWasNext(w, v, w', q, now, answers(q));
    forall i | 0 <= i < n
      ensures records[i] in w.quotes && PassLeaves(w, w', records[i], now, answers(records[i]))
    {
      assert records[i] != q;
      PassStays(w, v, w', records[i], now, answers(records[i]));
    }
    forall k | k !in records[..n + 1] ensures SameQuote(w, w', k) {
      assert records[..n + 1] == records[..n] + [q];
      assert SameQuote(w, v, k) && SameQuote(v, w', k);
    }
  }

  /** What a tick leaves of a quote that it found ungranted. */
  predicate TickLeaves(w: World, w': World, q: string, now: nat, a: Answers)
    requires q in w.quotes
  {
    var servable := a.gateOpens && WasPaid(w, q);
    && (q in w'.quotes ==> Marked(w.quotes[q], w'.quotes[q]))
    && (q in w'.quotes && w'.quotes[q].sessionGranted ==> q in w'.served && !Over(w.quotes[q], now))
    && (!servable ==> (q in w'.served <==> q in w.served) && (q in w'.quotes ==> !w'.quotes[q].sessionGranted))
    && (Smooth(a) && WasPaid(w, q) ==> q in w'.served && !Ungranted(w'.quotes, q))
    && (q !in w'.quotes ==> OverUnpaid(w, q, now, a) || (servable && q in w'.served && Over(w.quotes[q], now)))
    && (OverUnpaid(w, q, now, a) ==> q !in w'.quotes)
  }

  /** A quote that the tick did not find ungranted: its record goes exactly when it is expired or stale. */
  predicate NotServedAgain(w: World, w': World, q: string, now: nat) {
    && (q in w'.served <==> q in w.served)
    && (q in w'.quotes <==> q in w.quotes && !Over(w.quotes[q], now))
    && (q in w'.quotes ==> w'.quotes[q] == w.quotes[q])
  }

  /** What the sweep of the store leaves. */
  ghost predicate SweptQuotes(w: World, w': World, now: nat) {
    && w'.served == w.served
    && (forall q :: q in w.quotes ==> (q in w'.quotes <==> !(Over(w.quotes[q], now) && w.quotes[q].sessionGranted)))
    && forall q :: q in w'.quotes ==> q in w.quotes && w'.quotes[q] == w.quotes[q]
  }

  lemma SweptPass(w: World, v: World, w': World, q: string, now: nat, a: Answers)
    requires Ungranted(w.quotes, q) && PassLeaves(w, v, q, now, a) && SweptQuotes(v, w', now)
    ensures TickLeaves(w, w', q, now, a)
  {}

  ghost predicate RecordsLeft(w: World, w': World, now: nat, answers: string -> Answers) {
    && (forall q :: Ungranted(w.quotes, q) ==> TickLeaves(w, w', q, now, answers(q)))
    && (forall q :: !Ungranted(w.quotes, q) ==> NotServedAgain(w, w', q, now))
  }

  lemma AllLeft(w: World, v: World, w': World, now: nat, answers: string -> Answers)
    requires RecordsLeft(v, w', now, answers) && v.quotes == w.quotes && v.served == w.served && v.mint == w.mint
    ensures RecordsLeft(w, w', now, answers)
  {
    forall q | Ungranted(w.quotes, q) ensures TickLeaves(w, w', q, now, answers(q)) {
      assert TickLeaves(v, w', q, now, answers(q));
    }
    forall q | !Ungranted(w.quotes, q) ensures NotServedAgain(w, w', q, now) {
      assert NotServedAgain(v, w', q, now);
    }
  }

  lemma RecordsAreLeft(w: World, v: World, w': World, records: seq<string>, now: nat, answers: string -> Answers)
    requires forall q :: q in records <==> Ungranted(w.quotes, q)
    requires SweptQuotes(v, w', now) && Progress(w, v, records, |records|, now, answers)
    ensures RecordsLeft(w, w', now, answers)
  {
    forall q | Ungranted(w.quotes, q) ensures TickLeaves(w, w', q, now, answers(q)) {
      assert q in records;
      var i :| 0 <= i < |records| && records[i] == q;
      SweptPass(w, v, w', q, now, answers(q));
    }
    forall q | !Ungranted(w.quotes, q) ensures NotServedAgain(w, w', q, now) {
      assert q !in records && records[..|records|] == records;
      assert SameQuote(w, v, q);
    }
  }

  ghost predicate AnyUngranted(quotes: map<string, Quote>) {
    exists q :: Ungranted(quotes, q)
  }

  lemma SomeUngranted(quotes: map<string, Quote>, records: seq<string>)
    requires forall q :: q in records <==> q in quotes && quotes[q].sessionGranted == false
    ensures records != [] <==> AnyUngranted(quotes)
    ensures forall q :: q in records <==> Ungranted(quotes, q)
  {
    if records != [] {
      assert records[0] in records && Ungranted(quotes, records[0]);
    }
  }

  function GrantedOf(quotes: map<string, Quote>): set<string> {
    set q | q in quotes && quotes[q].sessionGranted
  }

  lemma SettledAre(settled: seq<string>, quotes: map<string, Quote>)
    requires forall q :: q in settled <==> q in quotes && quotes[q].sessionGranted == true
    ensures (set q | q in settled) == GrantedOf(quotes) && (settled == [] <==> GrantedOf(quotes) == {})
  {
    assert (set q | q in settled) == GrantedOf(quotes);
    if settled != [] {
      assert settled[0] in GrantedOf(quotes);
    }
  }

  predicate HeldAny(m: Memory, qs: set<string>) {
    exists q :: q in qs && Held(m, Lightning(q))
  }

  lemma HeldAnyOf(m: Memory, ids: seq<GrantId>, qs: set<string>)
    requires Elements(ids) == Ids(qs)
    ensures HeldAny(m, qs) <==> exists id :: id in ids && Held(m, id)
  {
    if id :| id in ids && Held(m, id) {
      assert id in Elements(ids);
      var q :| q in qs && Lightning(q) == id;
    }
    if q :| q in qs && Held(m, Lightning(q)) {
      assert Lightning(q) in Elements(ids);
    }
  }

  /** The ids of all granted quotes are forgotten, when there are any, and saved, when one of them was held. */
  function SweepMoves(granted: set<string>, m: Memory, now: nat, fault: Fault): seq<Move> {
    if granted == {} then []
    else if HeldAny(m, granted) then [ForgetSettled(granted), Other(L.Timed(L.SaveAll(fault), now))]
    else [ForgetSettled(granted)]
  }

  lemma SweptFirst(sweep: seq<Move>, granted: set<string>, m: Memory, now: nat, fault: Fault, ms: seq<Move>,
                   answers: string -> Answers)
    requires sweep == SweepMoves(granted, m, now, fault) && TickMoves(ms, now, answers)
    ensures TickMoves(sweep + ms, now, answers)
  {}

  predicate SavesAt(m: Move, now: nat) {
    m.Other? && m.step.action.SaveAll? && m.step.now == now
  }

  /** The moves of a tick: those of the quotes' own passes, the two sweeps, and saves. */
  predicate TickMove(m: Move, now: nat, answers: string -> Answers) {
    match m
    case ForgetSettled(_) => true
    case Sweep(t, _) => t == now
    case Other(_) => SavesAt(m, now)
    case MintIssues(q) => true
    case MarkMinted(q, _) => Own(m, q, now, answers(q))
    case ConfirmUnpaid(q, _) => Own(m, q, now, answers(q))
    case DropUnpaid(q, _) => Own(m, q, now, answers(q))
    case AddFirst(q, _) => Own(m, q, now, answers(q))
    case MarkAdded(q, _) => Own(m, q, now, answers(q))
    case Recreate(q, _, _) => Own(m, q, now, answers(q))
    case OpenGate(q, _) => Own(m, q, now, answers(q))
    case MarkGranted(q, _) => Own(m, q, now, answers(q))
    case _ => false
  }

  predicate TickMoves(ms: seq<Move>, now: nat, answers: string -> Answers) {
    forall m :: m in ms ==> TickMove(m, now, answers)
  }

  lemma OwnInTick(ms: seq<Move>, q: string, now: nat, answers: string -> Answers)
    requires OwnMoves(ms, q, now, answers(q))
    ensures TickMoves(ms, now, answers)
  {
    forall m | m in ms ensures TickMove(m, now, answers) {
      assert Own(m, q, now, answers(q));
    }
  }

  lemma SaveMove(w: World, now: nat, fault: Fault)
    ensures var (l, ok) := Save(w.ledger, now, fault);
      && Does(w, Other(L.Timed(L.SaveAll(fault), now)), w.(ledger := l, at := Idle))
      && l.mem.sessions == w.ledger.mem.sessions && w.ledger.mem.tombs <= l.mem.tombs
      && (fault.NoFault? ==> ok)
      && forall id :: Held(l.mem, id) ==> Held(w.ledger.mem, id)
  {
    var l := Save(w.ledger, now, fault).0;
    forall id | Held(l.mem, id) ensures Held(w.ledger.mem, id) {
      C.SaveInventsNothing(w.ledger, now, fault, id);
    }
  }

  lemma RecreateMove(w: World, q: string, now: nat, fault: Fault, l: Ledger, ok: bool)
    requires Enabled(w, Recreate(q, now, fault))
    requires var r := w.quotes[q];
      (l, ok) == RecreateDurably(w.ledger, r.mac, Metric(w.cfg, r), Terms(w.cfg, r), GRANT_SECS, Lightning(q), true,
                                 now, fault)
    ensures var r := w.quotes[q];
      var stage := if ok then Recreated(q, now, Fits(w.ledger.mem, r.mac, Terms(w.cfg, r), now)) else Idle;
      Does(w, Recreate(q, now, fault), w.(ledger := l, at := stage))
  {}

  lemma AddedHasGrant(m: Memory, mac: Mac, metric: string, amount: nat, id: GrantId, now: nat)
    ensures HasGrant(GrantLedger.AddAllotment(m, mac, metric, amount, GRANT_SECS, Some(id), now), mac, id)
  {}
}
