/** When the sweep of settled quotes is not careful: the guard of CreditedAtMostOnce is exact, and a run from a fresh
    router breaks it. */
module LightningSweep {
  import opened Options
  import opened GrantLedger
  import opened LightningRuns
  import L = LedgerRuns
  import C = LedgerCredits

  lemma Three(w: World, m1: Move, w1: World, m2: Move, w2: World, m3: Move, w3: World)
    requires Does(w, m1, w1) && Does(w1, m2, w2) && Does(w2, m3, w3)
    ensures Runs(w, [] + [m1] + [m2] + [m3], w3)
  {
    OneMore(w, [], w, m1, w1);
    OneMore(w, [] + [m1], w1, m2, w2);
    OneMore(w, [] + [m1] + [m2], w2, m3, w3);
  }

  lemma Four(w: World, m1: Move, w1: World, m2: Move, w2: World, m3: Move, w3: World, m4: Move, w4: World)
    requires Does(w, m1, w1) && Does(w1, m2, w2) && Does(w2, m3, w3) && Does(w3, m4, w4)
    ensures Runs(w, [] + [m1] + [m2] + [m3] + [m4], w4)
  {
    Three(w, m1, w1, m2, w2, m3, w3);
    OneMore(w, [] + [m1] + [m2] + [m3], w3, m4, w4);
  }

  lemma ForgetStrips(w: World, q: string, mac: Mac)
    requires Enabled(w, ForgetSettled({q})) && mac in w.ledger.mem.sessions && L.Sound(w.ledger)
    ensures var v := Next(w, ForgetSettled({q}));
      && v.file == w.file && v.cfg == w.cfg && v.mint == w.mint && L.Sound(v.ledger)
      && mac in v.ledger.mem.sessions && !Held(v.ledger.mem, Lightning(q))
      && var s, s' := w.ledger.mem.sessions[mac], v.ledger.mem.sessions[mac];
      && s'.credits == s.credits && s'.expiry == s.expiry && s'.used == s.used && s'.allotment == s.allotment
  {
    L.ForgetKeeps(w.ledger, Ids({q}), Cashu(""));
    assert Lightning(q) in Ids({q});
    C.ForgottenIsNotHeld(w.ledger.mem, Ids({q}), Lightning(q));
  }

  lemma SavedSession(l: Ledger, mac: Mac, now: nat)
    requires mac in l.mem.sessions && l.mem.sessions[mac].expiry > now
    ensures var d := Save(l, now, NoFault).0.disk;
      mac in d.sessions && d.sessions[mac] == l.mem.sessions[mac]
  {}

  /** Saving and reloading bring a session back as it was, and no id that was not held. */
  lemma SavedAndReloaded(l: Ledger, mac: Mac, id: GrantId, now: nat)
    requires L.Sound(l) && IsActive(l.mem, mac, now) && !Held(l.mem, id)
    ensures var m := Load(Save(l, now, NoFault).0.disk);
      IsActive(m, mac, now) && !Held(m, id) && m.sessions[mac].credits == l.mem.sessions[mac].credits
  {
    SavedSession(l, mac, now);
    C.SavedForgets(l, now, id);
  }

  /** The ids of a settled quote are swept, the sessions are saved, and the router restarts. */
  function SweptAndRestarted(q: string, now: nat): seq<Move> {
    [] + [ForgetSettled({q})] + [Saving(now)] + [Restart]
  }

  lemma ForgottenTooSoon(w: World, q: string, now: nat)
    requires Enabled(w, ForgetSettled({q})) && L.Sound(w.ledger) && IsActive(w.ledger.mem, w.quotes[q].mac, now)
    ensures
      var mac, v := w.quotes[q].mac, Exec(w, SweptAndRestarted(q, now));
      && Valid(w, SweptAndRestarted(q, now))
      && v.quotes == w.file && v.file == w.file && v.cfg == w.cfg && v.mint == w.mint
      && IsActive(v.ledger.mem, mac, now) && !Held(v.ledger.mem, Lightning(q))
      && v.ledger.mem.sessions[mac].credits == w.ledger.mem.sessions[mac].credits
  {
    var m1 := ForgetSettled({q});
    var w1 := Next(w, m1);
    ForgetStrips(w, q, w.quotes[q].mac);
    SavedAndReloaded(w1.ledger, w.quotes[q].mac, Lightning(q), now);
    SavingAndRestarting(w1, now);
    Three(w, m1, w1, Saving(now), Saved(w1, now), Restart, Reloaded(w1, now));
  }

  function Saving(now: nat): Move {
    Other(L.Timed(L.SaveAll(NoFault), now))
  }

  function Saved(w: World, now: nat): World {
    w.(ledger := Save(w.ledger, now, NoFault).0, at := Idle)
  }

  function Reloaded(w: World, now: nat): World {
    var saved := Saved(w, now);
    saved.(ledger := Reload(saved.ledger), quotes := w.file, taken := {})
  }

  lemma SavingAndRestarting(w: World, now: nat)
    ensures Does(w, Saving(now), Saved(w, now))
    ensures Does(Saved(w, now), Restart, Reloaded(w, now))
  {}

  /** How a pass goes on from the record that the file has. */
  function Resettled(r: Quote, q: string, now: nat): seq<Move> {
    if r.allotmentAdded then [] + [Recreate(q, now, NoFault)]
    else if r.minted then [] + [AddFirst(q, now)]
    else [] + [MarkMinted(q, false)] + [AddFirst(q, now)]
  }

  lemma RecreatedCredits(l: Ledger, mac: Mac, metric: string, amount: nat, id: GrantId, now: nat)
    requires IsActive(l.mem, mac, now)
    ensures var l' := RecreateDurably(l, mac, metric, amount, GRANT_SECS, id, true, now, NoFault).0;
      mac in l'.mem.sessions && l'.mem.sessions[mac].credits[id] == l.mem.sessions[mac].credits[id] + 1
  {}

  lemma ExtendedCredits(l: Ledger, mac: Mac, metric: string, amount: nat, id: GrantId, now: nat)
    requires mac in l.mem.sessions
    ensures var m := GrantLedger.AddAllotment(l.mem, mac, metric, amount, GRANT_SECS, Some(id), now);
      mac in m.sessions && m.sessions[mac].credits[id] == l.mem.sessions[mac].credits[id] + 1
  {}

  /** The live session of `mac` is unaware that it was credited `q`. */
  predicate Unaware(w: World, q: string, now: nat) {
    Pending(w, q) && IsActive(w.ledger.mem, w.quotes[q].mac, now) && !Held(w.ledger.mem, Lightning(q))
  }

  function CreditsOf(w: World, q: string): nat
    requires q in w.quotes && w.quotes[q].mac in w.ledger.mem.sessions
  {
    w.ledger.mem.sessions[w.quotes[q].mac].credits[Lightning(q)]
  }

  predicate CreditedOnceMore(v: World, v': World, q: string, mac: Mac)
    requires q in v.quotes && v.quotes[q].mac in v.ledger.mem.sessions
  {
    mac in v'.ledger.mem.sessions && v'.ledger.mem.sessions[mac].credits[Lightning(q)] == CreditsOf(v, q) + 1
  }

  lemma RecreatingDoes(v: World, q: string, now: nat, metric: string, amount: nat) returns (v': World)
    requires Unaware(v, q, now) && v.quotes[q].allotmentAdded
    requires metric == Metric(v.cfg, v.quotes[q]) && amount == Terms(v.cfg, v.quotes[q])
    ensures Does(v, Recreate(q, now, NoFault), v')
    ensures v'.ledger ==
      RecreateDurably(v.ledger, v.quotes[q].mac, metric, amount, GRANT_SECS, Lightning(q), true, now, NoFault).0
  {
    v' := Next(v, Recreate(q, now, NoFault));
  }

  lemma RecreateCreditsAgain(v: World, q: string, now: nat)
    requires Unaware(v, q, now) && v.quotes[q].allotmentAdded
    ensures var ms := [] + [Recreate(q, now, NoFault)];
      Valid(v, ms) && CreditedOnceMore(v, Exec(v, ms), q, v.quotes[q].mac)
  {
    var r := v.quotes[q];
    var metric, amount := Metric(v.cfg, r), Terms(v.cfg, r);
    var v' := RecreatingDoes(v, q, now, metric, amount);
    OneMore(v, [], v, Recreate(q, now, NoFault), v');
    RecreatedCredits(v.ledger, r.mac, metric, amount, Lightning(q), now);
  }

  lemma AddCreditsAgain(v: World, q: string, now: nat)
    requires Unaware(v, q, now) && v.quotes[q].minted && !v.quotes[q].allotmentAdded
    ensures Does(v, AddFirst(q, now), Next(v, AddFirst(q, now)))
    ensures CreditedOnceMore(v, Next(v, AddFirst(q, now)), q, v.quotes[q].mac)
  {
    var r := v.quotes[q];
    ExtendedCredits(v.ledger, r.mac, Metric(v.cfg, r), Terms(v.cfg, r), Lightning(q), now);
  }

  lemma MintCreditsAgain(v: World, q: string, now: nat)
    requires Unaware(v, q, now) && !v.quotes[q].minted && !v.quotes[q].allotmentAdded && MintOf(v, q) == Issued
    ensures var ms := [] + [MarkMinted(q, false)] + [AddFirst(q, now)];
      Valid(v, ms) && CreditedOnceMore(v, Exec(v, ms), q, v.quotes[q].mac)
  {
    var m := MarkMinted(q, false);
    var v1 := Next(v, m);
    AddCreditsAgain(v1, q, now);
    OneMore(v, [], v, m, v1);
    OneMore(v, [] + [m], v1, AddFirst(q, now), Next(v1, AddFirst(q, now)));
  }

  lemma ResettlingCreditsAgain(v: World, q: string, now: nat)
    requires Unaware(v, q, now) && MintOf(v, q) == Issued && (v.quotes[q].allotmentAdded ==> v.quotes[q].minted)
    ensures var ms := Resettled(v.quotes[q], q, now);
      Valid(v, ms) && CreditedOnceMore(v, Exec(v, ms), q, v.quotes[q].mac)
  {
    if v.quotes[q].allotmentAdded {
      RecreateCreditsAgain(v, q, now);
    } else if v.quotes[q].minted {
      AddCreditsAgain(v, q, now);
      OneMore(v, [], v, AddFirst(q, now), Next(v, AddFirst(q, now)));
    } else {
      MintCreditsAgain(v, q, now);
    }
  }

  lemma ForgettingTooSoonCreditsAgain(v: World, q: string, now: nat)
    requires Inv(v) && Enabled(v, ForgetSettled({q})) && !ForgetsDurably(v, ForgetSettled({q}))
    requires IsActive(v.ledger.mem, v.quotes[q].mac, now)
    ensures var ms := SweptAndRestarted(q, now) + Resettled(v.file[q], q, now);
      Valid(v, ms) && CreditedOnceMore(v, Exec(v, ms), q, v.quotes[q].mac)
  {
    var first, rest := SweptAndRestarted(q, now), Resettled(v.file[q], q, now);
    ForgottenTooSoon(v, q, now);
    var u := Exec(v, first);
    assert RecordOk(v, q, v.quotes[q]) && RecordOk(v, q, v.file[q]);
    ResettlingCreditsAgain(u, q, now);
    Chain(v, first, u, rest, Exec(u, rest));
  }

  lemma Continued(w: World, ms: seq<Move>, v: World, more: seq<Move>)
    requires Runs(w, ms, v) && Valid(v, more)
    ensures Runs(w, ms + more, Exec(v, more))
  {
    Chain(w, ms, v, more, Exec(v, more));
  }

  /** The guard is exact.  Whatever careful run went before, to forget a quote that the file still calls ungranted,
      while the session that it was credited to is live, is all it takes: a save, a restart and the next pass
      credit that session a second time. */
  lemma CarelessForgetCreditsTwice(w: World, ms: seq<Move>, v: World, q: string, now: nat)
    requires Fresh(w) && Runs(w, ms, v) && Careful(w, ms)
    requires Enabled(v, ForgetSettled({q})) && !ForgetsDurably(v, ForgetSettled({q}))
    requires IsActive(v.ledger.mem, v.quotes[q].mac, now) && CreditsOf(v, q) == 1
    ensures
      var mac, all := v.quotes[q].mac, ms + (SweptAndRestarted(q, now) + Resettled(v.file[q], q, now));
      && Valid(w, all) && mac in Exec(w, all).ledger.mem.sessions
      && Exec(w, all).ledger.mem.sessions[mac].credits[Lightning(q)] == 2
  {
    EveryRunKeeps(w, ms);
    CreditsAgainAfter(w, ms, v, q, now);
  }

  lemma CreditsAgainAfter(w: World, ms: seq<Move>, v: World, q: string, now: nat)
    requires Runs(w, ms, v) && Inv(v)
    requires Enabled(v, ForgetSettled({q})) && !ForgetsDurably(v, ForgetSettled({q}))
    requires IsActive(v.ledger.mem, v.quotes[q].mac, now)
    ensures var all := ms + (SweptAndRestarted(q, now) + Resettled(v.file[q], q, now));
      Valid(w, all) && CreditedOnceMore(v, Exec(w, all), q, v.quotes[q].mac)
  {
    ForgettingTooSoonCreditsAgain(v, q, now);
    Continued(w, ms, v, SweptAndRestarted(q, now) + Resettled(v.file[q], q, now));
  }

  // ---------------------------------------------------------------- such a run exists

  lemma {:induction false} WithoutForgettingIsCareful(w: World, ms: seq<Move>)
    requires forall m :: m in ms ==> !m.ForgetSettled?
    ensures Careful(w, ms)
  {
    if ms != [] {
      var prev := ms[..|ms| - 1];
      assert forall m :: m in prev ==> m in ms;
      WithoutForgettingIsCareful(w, prev);
      assert ms[|ms| - 1] in ms;
    }
  }

  /** The quote is paid, issued and marked minted. */
  function Bought(w: World, q: string, r: Quote): World {
    var quotes := map[q := r.(minted := true)];
    w.(quotes := quotes, file := quotes, at := Idle, mint := map[q := Issued], seen := w.seen + {q})
  }

  function Buying(q: string, r: Quote): seq<Move> {
    [] + [NewQuote(q, r, false)] + [CustomerPays(q)] + [MintIssues(q)] + [MarkMinted(q, false)]
  }

  lemma BuyingRuns(w: World, q: string, r: Quote)
    requires Fresh(w) && Enabled(w, NewQuote(q, r, false))
    ensures Runs(w, Buying(q, r), Bought(w, q, r))
  {
    var m1, m2, m3, m4 := NewQuote(q, r, false), CustomerPays(q), MintIssues(q), MarkMinted(q, false);
    var w1 := w.(quotes := map[q := r], file := map[q := r], seen := w.seen + {q});
    var w2, w3 := w1.(mint := map[q := Paid]), w1.(mint := map[q := Issued]);
    assert Does(w, m1, w1);
    assert Does(w1, m2, w2);
    assert Does(w2, m3, w3);
    assert Does(w3, m4, Bought(w, q, r));
    Four(w, m1, w1, m2, w2, m3, w3, m4, Bought(w, q, r));
  }

  function Added(u: World, q: string, now: nat): Ledger
    requires q in u.quotes
  {
    L.Step(u.ledger, AddStep(u, q, now)).0
  }

  /** The session of a new customer, made of one credit. */
  lemma FirstAllotment(u: World, q: string, now: nat)
    requires Pending(u, q) && Terms(u.cfg, u.quotes[q]) > 0
    requires u.ledger == Ledger(Memory(map[], {}, None, false), Disk(map[], {}))
    ensures var mac, l := u.quotes[q].mac, Added(u, q, now);
      && IsActive(l.mem, mac, now) && Lightning(q) in l.mem.sessions[mac].applied
      && l.mem.sessions[mac].credits[Lightning(q)] == 1
  {}

  lemma SavingKeepsSessions(l: Ledger, now: nat)
    ensures Save(l, now, NoFault).0.mem.sessions == l.mem.sessions
  {}

  /** The allotment is added and saved, the record says so, and the gate is open. */
  function Opened(u: World, q: string, now: nat): World
    requires q in u.quotes
  {
    var quotes := u.quotes[q := u.quotes[q].(allotmentAdded := true)];
    u.(ledger := Save(Added(u, q, now), now, NoFault).0, quotes := quotes, file := quotes,
       at := Gated(q), served := u.served + {q})
  }

  lemma AddingDoes(u: World, q: string, now: nat)
    requires Pending(u, q) && AwaitsAllotment(u, q) && !Tagged(u, q) && u.at == Idle
    ensures Does(u, AddFirst(q, now), u.(ledger := Added(u, q, now)))
  {}

  /** What a live session that carries the quote allows the pass to do. */
  lemma MarkingAndOpening(u: World, q: string, now: nat)
    requires Pending(u, q) && AwaitsAllotment(u, q) && CarriedLive(u, q, now) && u.at == Idle
    ensures var quotes := u.quotes[q := u.quotes[q].(allotmentAdded := true)];
      var v := u.(quotes := quotes, file := quotes);
      && Does(u, MarkAdded(q, false), v)
      && Does(v, OpenGate(q, now), v.(at := Gated(q), served := u.served + {q}))
  {}

  function ToTheGate(q: string, now: nat): seq<Move> {
    [] + [AddFirst(q, now)] + [Saving(now)] + [MarkAdded(q, false)] + [OpenGate(q, now)]
  }

  lemma OpeningRuns(u: World, q: string, now: nat)
    requires Pending(u, q) && AwaitsAllotment(u, q) && u.at == Idle && Terms(u.cfg, u.quotes[q]) > 0
    requires u.ledger == Ledger(Memory(map[], {}, None, false), Disk(map[], {}))
    ensures Runs(u, ToTheGate(q, now), Opened(u, q, now))
    ensures var mac, v := u.quotes[q].mac, Opened(u, q, now);
      IsActive(v.ledger.mem, mac, now) && v.ledger.mem.sessions[mac].credits[Lightning(q)] == 1
  {
    var quotes := u.quotes[q := u.quotes[q].(allotmentAdded := true)];
    var u1 := u.(ledger := Added(u, q, now));
    var u2 := Saved(u1, now);
    FirstAllotment(u, q, now);
    SavingKeepsSessions(Added(u, q, now), now);
    AddingDoes(u, q, now);
    SavingAndRestarting(u1, now);
    MarkingAndOpening(u2, q, now);
    Four(u, AddFirst(q, now), u1, Saving(now), u2, MarkAdded(q, false), u2.(quotes := quotes, file := quotes),
         OpenGate(q, now), Opened(u, q, now));
  }

  /** A new quote is paid, minted, added, saved and let through the gate; the write of its granted mark fails and is
      survived. */
  function Settling(q: string, r: Quote, now: nat): seq<Move> {
    Buying(q, r) + ToTheGate(q, now) + [MarkGranted(q, true)]
  }

  /** Memory says granted, the file does not. */
  function Unmarked(v: World, q: string): World
    requires q in v.quotes
  {
    v.(quotes := v.quotes[q := v.quotes[q].(sessionGranted := true)], at := Idle)
  }

  lemma LosingTheMark(v: World, q: string)
    requires Pending(v, q) && v.at == Gated(q)
    ensures Does(v, MarkGranted(q, true), Unmarked(v, q)) && Enabled(Unmarked(v, q), ForgetSettled({q}))
  {}

  lemma SettlingRuns(w: World, q: string, r: Quote, now: nat)
    requires Fresh(w) && Enabled(w, NewQuote(q, r, false)) && Terms(w.cfg, r) > 0
    ensures var v := Opened(Bought(w, q, r), q, now);
      Runs(w, Settling(q, r, now), Unmarked(v, q)) && Enabled(Unmarked(v, q), ForgetSettled({q}))
  {
    var u := Bought(w, q, r);
    BuyingRuns(w, q, r);
    OpeningRuns(u, q, now);
    var v := Opened(u, q, now);
    Chain(w, Buying(q, r), u, ToTheGate(q, now), v);
    LosingTheMark(v, q);
    OneMore(w, Buying(q, r) + ToTheGate(q, now), v, MarkGranted(q, true), Unmarked(v, q));
  }

  lemma SettlingIsCareful(w: World, q: string, r: Quote, now: nat)
    ensures Careful(w, Settling(q, r, now))
  {
    WithoutForgettingIsCareful(w, Settling(q, r, now));
  }

  lemma SettledWorld(w: World, q: string, r: Quote, now: nat)
    requires Fresh(w) && Enabled(w, NewQuote(q, r, false)) && Terms(w.cfg, r) > 0
    ensures var v := Unmarked(Opened(Bought(w, q, r), q, now), q);
      && Ungranted(v.file, q) && v.file[q].allotmentAdded && q in v.quotes && v.quotes[q].mac == r.mac
      && IsActive(v.ledger.mem, r.mac, now) && CreditsOf(v, q) == 1
  {
    OpeningRuns(Bought(w, q, r), q, now);
  }

  /** From a fresh router, one write that fails and is survived is enough: the sweep forgets the id of a quote that
      the file still calls ungranted, and the next restart credits the live session a second time. */
  lemma SweepAfterLostWriteCreditsTwice(w: World, q: string, r: Quote, now: nat)
    requires Fresh(w) && Enabled(w, NewQuote(q, r, false)) && Terms(w.cfg, r) > 0
    ensures
      var ms := Settling(q, r, now) + (SweptAndRestarted(q, now) + ([] + [Recreate(q, now, NoFault)]));
      && Valid(w, ms) && r.mac in Exec(w, ms).ledger.mem.sessions
      && Exec(w, ms).ledger.mem.sessions[r.mac].credits[Lightning(q)] == 2
  {
    var v := Unmarked(Opened(Bought(w, q, r), q, now), q);
    SettlingRuns(w, q, r, now);
    SettlingIsCareful(w, q, r, now);
    SettledWorld(w, q, r, now);
    CarelessForgetCreditsTwice(w, Settling(q, r, now), v, q, now);
  }
}
