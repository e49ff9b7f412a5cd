/** Expired rounds are closed: however other requests come in between, a few sweeps are enough. */
module TangoSweep {
  import Bip69
  import opened Results
  import opened TangoRounds
  import opened TangoSafety
  import opened TangoHistory

  /** The unfinished rounds whose time was up at t. */
  ghost function Overdue(w: World, t: nat): set<RoundId> {
    set id | id in w.rounds && Unfinished(w.rounds[id]) && w.rounds[id].expiresAt <= t
  }

  ghost function Elements(s: seq<RoundId>): set<RoundId> {
    set i | 0 <= i < |s| :: s[i]
  }

  /** Overdue, and not on the sweeper's list. */
  ghost function Waiting(w: World, t: nat): set<RoundId> {
    Overdue(w, t) - Elements(w.listed)
  }

  /** How many listings a run contains. */
  ghost function Listings(events: seq<Event>): nat {
    if events == [] then 0
    else Listings(events[..|events| - 1]) + (if events[|events| - 1].DoList? then 1 else 0)
  }

  // ----- nothing becomes overdue at t after t -----

  lemma ProposeIds(w: World, uid: User, walletId: WalletId, partner: User, denom: int, rate: real, pieces: int,
                   rows: seq<Bip69.Coin>, spendable: bool, routes: Option<string>)
    ensures var w' := Propose(w, uid, walletId, partner, denom, rate, pieces, rows, spendable, routes).0;
      forall id :: id in w'.rounds && id !in w.rounds ==> w'.rounds[id].expiresAt > w.clock
  {
  }

  lemma AcceptIds(w: World, uid: User, id: RoundId, d: AcceptData, env: AcceptEnv)
    ensures Accept(w, uid, id, d, env).0.rounds.Keys == w.rounds.Keys
  {
    if id in w.rounds {
      var r' := AcceptOutcome(w, uid, id, d, env);
    }
  }

  lemma SignIds(w: World, uid: User, id: RoundId, d: SignData, env: SignEnv)
    ensures Sign(w, uid, id, d, env).0.rounds.Keys == w.rounds.Keys
  {
  }

  lemma NewRows(w: World, e: Event)
    ensures forall id :: id in Step(w, e).rounds && id !in w.rounds ==> Step(w, e).rounds[id].expiresAt > w.clock
  {
    match e
    case DoPropose(uid, walletId, partner, denom, rate, pieces, rows, spendable, routes) =>
      ProposeIds(w, uid, walletId, partner, denom, rate, pieces, rows, spendable, routes);
    case DoAccept(uid, id, d, env) => AcceptIds(w, uid, id, d, env);
    case DoSign(uid, id, d, env) => SignIds(w, uid, id, d, env);
    case _ =>
  }

  lemma MovesKeepsExpiry(r: Round, r': Round)
    requires Moves(r, r') && Unfinished(r')
    ensures Unfinished(r) && r'.expiresAt == r.expiresAt
  {
  }

  lemma OverdueShrinks(w: World, e: Event, t: nat)
    requires Inv(w) && t <= w.clock
    ensures Overdue(Step(w, e), t) <= Overdue(w, t)
  {
    var w' := Step(w, e);
    NewRows(w, e);
    forall id | id in Overdue(w', t) ensures id in Overdue(w, t) {
      assert id in w.rounds;
      StepMoves(w, e, id);
      MovesKeepsExpiry(w.rounds[id], w'.rounds[id]);
    }
  }

  // ----- closing and listing -----

  lemma ElementsTail(s: seq<RoundId>)
    requires s != []
    ensures Elements(s) == Elements(s[1..]) + {s[0]}
  {
    forall x | x in Elements(s) ensures x == s[0] || x in Elements(s[1..]) {
      var i :| 0 <= i < |s| && s[i] == x;
      if i > 0 {
        assert s[1..][i - 1] == x;
      }
    }
    forall x | x in Elements(s[1..]) ensures x in Elements(s) {
      var i :| 0 <= i < |s[1..]| && s[1..][i] == x;
      assert s[i + 1] == x;
    }
  }

  lemma {:induction false} ElementsCount(s: seq<RoundId>)
    requires forall i, j :: 0 <= i < j < |s| ==> s[i] != s[j]
    ensures |Elements(s)| == |s|
  {
    if s == [] {
      assert Elements(s) == {};
    } else {
      ElementsCount(s[1..]);
      ElementsTail(s);
      forall x | x in Elements(s[1..]) ensures x != s[0] {
        var i :| 0 <= i < |s[1..]| && s[1..][i] == x;
        assert s[0] != s[i + 1];
      }
    }
  }

  lemma CloseShrinks(w: World, t: nat)
    requires Inv(w) && t <= w.clock
    ensures Waiting(CloseNext(w), t) <= Waiting(w, t)
  {
    OverdueShrinks(w, DoClose, t);
    if w.listed != [] {
      ElementsTail(w.listed);
      assert w.listed[0] !in Overdue(CloseNext(w), t);
    }
  }

  /** A listing takes the two hundred oldest, so of those overdue at t it takes two hundred or all. */
  lemma ListTakes(w: World, ids: seq<RoundId>, t: nat)
    requires t <= w.clock && IsListing(w, ids)
    ensures |Overdue(w, t) - Elements(ids)| <= if |Overdue(w, t)| <= SWEEP_LIMIT then 0 else |Overdue(w, t)| - SWEEP_LIMIT
  {
    var o, s := Overdue(w, t), Elements(ids);
    if o <= s {
      assert o - s == {};
    } else {
      var id :| id in o && id !in s;
      assert Due(w, id) && id !in ids;
      forall x | x in s ensures x in o {
        var i :| 0 <= i < |ids| && ids[i] == x;
        assert Due(w, ids[i]) && w.rounds[ids[i]].expiresAt <= w.rounds[id].expiresAt;
      }
      ElementsCount(ids);
      assert o == s + (o - s) && |s + (o - s)| == |s| + |o - s|;
    }
  }

  lemma SubsetCount(a: set<RoundId>, b: set<RoundId>)
    requires a <= b
    ensures |a| <= |b|
  {
    assert b == a + (b - a);
  }

  lemma OthersKeepList(w: World, e: Event)
    requires !e.DoList? && !e.DoClose?
    ensures Step(w, e).listed == w.listed
  {
  }

  lemma ListWaiting(w: World, ids: seq<RoundId>, t: nat)
    requires w.listed == [] && IsListing(w, ids) && t <= w.clock
    ensures |Waiting(w.(listed := ids), t)| <= if |Waiting(w, t)| <= SWEEP_LIMIT then 0 else |Waiting(w, t)| - SWEEP_LIMIT
  {
    ListTakes(w, ids, t);
    assert Elements([]) == {} && Waiting(w, t) == Overdue(w, t);
    assert Overdue(w.(listed := ids), t) == Overdue(w, t);
  }

  /** No step makes more overdue rounds wait, and a listing makes two hundred fewer wait, or none. */
  lemma StepWaiting(w: World, e: Event, t: nat)
    requires Inv(w) && Enabled(w, e) && t <= w.clock
    ensures |Waiting(Step(w, e), t)| <= |Waiting(w, t)|
    ensures e.DoList? ==> |Waiting(Step(w, e), t)| <= if |Waiting(w, t)| <= SWEEP_LIMIT then 0 else |Waiting(w, t)| - SWEEP_LIMIT
  {
    match e
    case DoClose =>
      CloseShrinks(w, t);
      SubsetCount(Waiting(CloseNext(w), t), Waiting(w, t));
    case DoList(ids) => ListWaiting(w, ids, t);
    case _ => OthersWaiting(w, e, t);
  }

  lemma OthersWaiting(w: World, e: Event, t: nat)
    requires Inv(w) && t <= w.clock && !e.DoList? && !e.DoClose?
    ensures |Waiting(Step(w, e), t)| <= |Waiting(w, t)|
  {
    OverdueShrinks(w, e, t);
    OthersKeepList(w, e);
    SubsetCount(Waiting(Step(w, e), t), Waiting(w, t));
  }

  lemma OthersKeepClock(w: World, e: Event)
    requires Enabled(w, e)
    ensures w.clock <= Step(w, e).clock
  {
  }

  lemma {:induction false} RunClock(w: World, events: seq<Event>)
    requires Runs(w, events)
    ensures w.clock <= After(w, events).clock
  {
    if events != [] {
      var n := |events| - 1;
      RunClock(w, events[..n]);
      OthersKeepClock(After(w, events[..n]), events[n]);
    }
  }

  lemma {:induction false} RunWaiting(w: World, events: seq<Event>, t: nat)
    requires Inv(w) && Runs(w, events) && t <= w.clock
    ensures |Waiting(After(w, events), t)| <= |Overdue(w, t)|
    ensures |Waiting(After(w, events), t)| + SWEEP_LIMIT * Listings(events) <= |Overdue(w, t)|
         || |Waiting(After(w, events), t)| == 0
  {
    if events == [] {
      SubsetCount(Waiting(w, t), Overdue(w, t));
    } else {
      var n := |events| - 1;
      RunWaiting(w, events[..n], t);
      RunKeeps(w, events[..n]);
      RunClock(w, events[..n]);
      StepWaiting(After(w, events[..n]), events[n], t);
    }
  }

  /** Liveness: of n rounds overdue now, none is left unfinished after k listings have been worked off,
      once 200 * k >= n, whatever else happens in between. */
  lemma SweepsClose(w: World, events: seq<Event>)
    requires Inv(w) && Runs(w, events) && SWEEP_LIMIT * Listings(events) >= |Overdue(w, w.clock)|
    requires After(w, events).listed == []
    ensures Overdue(After(w, events), w.clock) == {}
  {
    RunWaiting(w, events, w.clock);
    assert Elements([]) == {};
    assert Waiting(After(w, events), w.clock) == Overdue(After(w, events), w.clock);
  }

  // ----- the sweep as the code runs it -----

  /** `run_tango_sweep` with nothing in between: close everything listed. */
  ghost function CloseAll(w: World): World
    decreases |w.listed|
  {
    if w.listed == [] then w else CloseAll(CloseNext(w))
  }

  lemma {:induction false} CloseAllKeeps(w: World)
    requires Inv(w)
    ensures Inv(CloseAll(w)) && CloseAll(w).listed == [] && CloseAll(w).clock == w.clock && CloseAll(w).chain == w.chain
    decreases |w.listed|
  {
    if w.listed != [] {
      CloseNextKeeps(w);
      CloseAllKeeps(CloseNext(w));
    }
  }
}
