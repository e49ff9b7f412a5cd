/** A whole pass over the listing, and what a retry is worth while one is running. */
module PayoutPass {
  import opened PayoutPolicy
  import opened Payouts

  /** What one pass reports. */
  datatype Counts = Counts(paid: nat, retrying: nat, stopped: nat, deferred: nat) {
    function Total(): nat {
      paid + retrying + stopped + deferred
    }

    function Add(o: Outcome): Counts {
      match o
      case Deferred => this.(deferred := deferred + 1)
      case Became(Paid) => this.(paid := paid + 1)
      case Became(Pending) => this.(retrying := retrying + 1)
      case _ => this.(stopped := stopped + 1)
    }
  }

  /** A pass worked off with nothing in between: one attempt per listed row, in order. */
  function WorkOff(l: Ledger, env: nat -> AttemptEnv, c: Counts): (Ledger, Counts)
    decreases |l.due|
  {
    if l.due == [] then (l, c)
    else
      var (next, o) := Attempt(l, env(|l.due|));
      WorkOff(next, env, c.Add(o))
  }

  lemma OneMore(l: Ledger, env: nat -> AttemptEnv, c: Counts)
    requires l.due != []
    ensures var (next, o) := Attempt(l, env(|l.due|));
      WorkOff(l, env, c) == WorkOff(next, env, c.Add(o))
  {
  }

  /** Every listed row is counted once, and the paid ones are the payments that went out. */
  lemma {:induction false} WorkedOff(l: Ledger, env: nat -> AttemptEnv, c: Counts)
    requires Inv(l)
    ensures var (l', c') := WorkOff(l, env, c);
      && Inv(l') && l'.due == [] && c'.Total() == c.Total() + |l.due|
      && |l'.sent| - |l.sent| == c'.paid - c.paid && l'.rows.Keys == l.rows.Keys
    decreases |l.due|
  {
    if l.due != [] {
      AttemptKeeps(l, env(|l.due|));
      AttemptCounts(l, env(|l.due|));
      var (next, o) := Attempt(l, env(|l.due|));
      CountedOnce(c, o);
      WorkedOff(next, env, c.Add(o));
    }
  }

  lemma AttemptCounts(l: Ledger, env: AttemptEnv)
    requires Inv(l) && l.due != []
    ensures var (next, o) := Attempt(l, env);
      && next.due == l.due[1..] && next.rows.Keys == l.rows.Keys
      && |next.sent| == |l.sent| + (if o == Became(Paid) then 1 else 0)
  {
    HeadFacts(l);
  }

  lemma CountedOnce(c: Counts, o: Outcome)
    ensures c.Add(o).Total() == c.Total() + 1
    ensures c.Add(o).paid == c.paid + (if o == Became(Paid) then 1 else 0)
  {
  }

  // ----- a retry while the pass is running -----

  /** The ledger after the first n attempts of the rest of a pass. */
  function Tried(l: Ledger, env: nat -> AttemptEnv, n: nat): Ledger
    requires n <= |l.due|
    decreases n
  {
    if n == 0 then l else Tried(Attempt(l, env(|l.due|)).0, env, n - 1)
  }

  lemma {:induction false} WorkOffTries(l: Ledger, env: nat -> AttemptEnv, c: Counts)
    ensures WorkOff(l, env, c).0 == Tried(l, env, |l.due|)
    decreases |l.due|
  {
    if l.due != [] {
      var (next, o) := Attempt(l, env(|l.due|));
      WorkOffTries(next, env, c.Add(o));
    }
  }

  /** What a pass has left to spend depends on its listing and on the answers it gets, not on the table. */
  lemma {:induction false} SameBalances(l: Ledger, l': Ledger, env: nat -> AttemptEnv, n: nat)
    requires n <= |l.due| && l'.due == l.due && l'.balances == l.balances && l'.clock == l.clock
    ensures Tried(l', env, n).balances == Tried(l, env, n).balances && Tried(l', env, n).clock == Tried(l, env, n).clock
    decreases n
  {
    if n > 0 {
      SameBalances(Attempt(l, env(|l.due|)).0, Attempt(l', env(|l.due|)).0, env, n - 1);
    }
  }

  lemma {:induction false} NotListed(l: Ledger, env: nat -> AttemptEnv, n: nat, k: Key)
    requires n <= |l.due| && k in l.rows && forall i :: 0 <= i < |l.due| ==> l.due[i].0 != k
    ensures k in Tried(l, env, n).rows && Tried(l, env, n).rows[k] == l.rows[k]
    decreases n
  {
    if n > 0 {
      var next := Attempt(l, env(|l.due|)).0;
      assert next.due == l.due[1..];
      NotListed(next, env, n - 1, k);
    }
  }

  /** Wherever the row is still listed, the attempt on it is held back. */
  ghost predicate Spared(l: Ledger, env: nat -> AttemptEnv, k: Key) {
    forall i :: 0 <= i < |l.due| && l.due[i].0 == k ==> HeldBack(Tried(l, env, i), l.due[i].1)
  }

  lemma SparedNext(l: Ledger, env: nat -> AttemptEnv, k: Key)
    requires l.due != [] && l.due[0].0 != k
    ensures Spared(l, env, k) <==> Spared(Attempt(l, env(|l.due|)).0, env, k)
  {
    var next := Attempt(l, env(|l.due|)).0;
    assert next.due == l.due[1..];
    forall i | 0 <= i < |next.due| ensures next.due[i] == l.due[i + 1] && Tried(next, env, i) == Tried(l, env, i + 1) {
    }
    if Spared(next, env, k) {
      forall i | 0 <= i < |l.due| && l.due[i].0 == k ensures HeldBack(Tried(l, env, i), l.due[i].1) {
        assert next.due[i - 1] == l.due[i];
      }
    }
  }

  /** A count that stands at zero is still zero when the pass has been worked off exactly if the row was not
      tried in it; otherwise it has been counted on from the listing. */
  lemma {:induction false} ZeroStays(l: Ledger, env: nat -> AttemptEnv, k: Key)
    requires Inv(l) && k in l.rows && l.rows[k].attempts == 0
    ensures k in Tried(l, env, |l.due|).rows
    ensures Tried(l, env, |l.due|).rows[k].attempts == 0 <==> Spared(l, env, k)
    ensures forall i :: 0 <= i < |l.due| && l.due[i].0 == k && !Spared(l, env, k) ==>
      Tried(l, env, |l.due|).rows[k].attempts == l.due[i].1.attempts + 1
    decreases |l.due|
  {
    if l.due != [] {
      var next := Attempt(l, env(|l.due|)).0;
      AttemptKeeps(l, env(|l.due|));
      HeadFacts(l);
      assert next.due == l.due[1..];
      if l.due[0].0 == k {
        assert Tried(l, env, 0) == l;
        NotListed(next, env, |next.due|, k);
      } else {
        ZeroStays(next, env, k);
        SparedNext(l, env, k);
        forall i | 0 <= i < |l.due| && l.due[i].0 == k ensures l.due[i] == next.due[i - 1] {
        }
      }
    }
  }

  lemma SparedAlike(l: Ledger, l': Ledger, env: nat -> AttemptEnv, k: Key)
    requires l'.due == l.due && l'.balances == l.balances && l'.clock == l.clock
    ensures Spared(l', env, k) <==> Spared(l, env, k)
  {
    forall i | 0 <= i < |l.due| ensures HeldBack(Tried(l', env, i), l.due[i].1) <==> HeldBack(Tried(l, env, i), l.due[i].1) {
      SameBalances(l, l', env, i);
    }
  }

  /** A retry starts the attempts of an unpaid row over. What the running pass still does to the row, it counts
      on from its listing: the fresh start lasts exactly if the pass would have spared the row anyway, because
      the row is not on the rest of the listing or is held back when its turn comes. */
  lemma RetryLasts(l: Ledger, k: Key, saved: string, env: nat -> AttemptEnv)
    requires Inv(l) && k in l.rows && !l.rows[k].status.Paid?
    ensures var l' := Retry(l, k, saved).0;
      && l'.due == l.due && k in l'.rows && l'.rows[k].attempts == 0
      && k in Tried(l', env, |l.due|).rows
      && (Tried(l', env, |l.due|).rows[k].attempts == 0 <==> Spared(l, env, k))
  {
    var l' := Retry(l, k, saved).0;
    RetryKeeps(l, k, saved);
    ZeroStays(l', env, k);
    SparedAlike(l, l', env, k);
  }

  /** And one attempt at a time: the next one leaves the fresh start alone exactly if it is on another row or
      held back. */
  lemma RetryThenAttempt(l: Ledger, k: Key, saved: string, env: AttemptEnv)
    requires Inv(l) && l.due != [] && k in l.rows && !l.rows[k].status.Paid?
    ensures k in Attempt(Retry(l, k, saved).0, env).0.rows
    ensures Attempt(Retry(l, k, saved).0, env).0.rows[k].attempts == 0 <==> l.due[0].0 != k || HeldBack(l, l.due[0].1)
  {
    HeadFacts(l);
  }

  // ----- in a run -----

  ghost predicate Arises(l: Ledger) {
    exists events :: Runs(EMPTY, events) && After(EMPTY, events) == l
  }

  lemma Onward(l: Ledger, e: Event, l': Ledger)
    requires Arises(l) && Enabled(l, e) && Step(l, e) == l'
    ensures Arises(l')
  {
    var events :| Runs(EMPTY, events) && After(EMPTY, events) == l;
    var longer := events + [e];
    assert longer[..|longer| - 1] == events;
    assert Runs(EMPTY, longer) && After(EMPTY, longer) == l';
  }

  const KEY: Key := Key("txid", 0)

  function Fresh(): Payout {
    Payout(0, "alice", "net", "alice@example.com", 1000, 0, 1000, Pending, 0, 0, 0, false)
  }

  /** No payout wallet is set, so every attempt fails for now. */
  const UNSET: AttemptEnv := AttemptEnv(false, Resolved, false, 0)

  /** Only the one row, due, and nothing listed. */
  ghost predicate Waiting(l: Ledger, n: nat) {
    && l.rows.Keys == {KEY} && l.due == [] && l.rows[KEY].attempts == n && l.rows[KEY].address != ""
    && IsDue(l.rows[KEY], l.clock)
  }

  function Listed(l: Ledger): Ledger
    requires KEY in l.rows
  {
    l.(due := [(KEY, l.rows[KEY])], balances := map[])
  }

  lemma ListedArises(l: Ledger, n: nat)
    requires Arises(l) && Waiting(l, n)
    ensures Arises(Listed(l))
  {
    var due := [(KEY, l.rows[KEY])];
    assert due[0].0 == KEY;
    assert IsListing(l, due);
    Onward(l, DoStart(due, map[]), Listed(l));
  }

  /** A row that has failed n times. */
  lemma {:induction false} Worn(n: nat) returns (l: Ledger)
    requires n < MAX_ATTEMPTS
    ensures Arises(l) && Waiting(l, n)
  {
    if n == 0 {
      assert Runs(EMPTY, []) && After(EMPTY, []) == EMPTY;
      l := EMPTY.(rows := map[KEY := Fresh()]);
      Onward(EMPTY, DoCreate(KEY, Fresh()), l);
    } else {
      var before := Worn(n - 1);
      ListedArises(before, n - 1);
      var failed := Attempt(Listed(before), UNSET).0;
      Onward(Listed(before), DoAttempt(UNSET), failed);
      l := failed.(clock := failed.clock + BackoffFor(n));
      Onward(failed, DoTick(l.clock), l);
    }
  }

  /** A run in which a row is listed for its last attempt and then put back: the console says that it starts
      over, and the very next attempt stops it. */
  lemma ListedRetryIsLost() returns (l: Ledger)
    ensures Arises(l) && KEY in l.rows && l.rows[KEY].status.Pending?
    ensures var l' := Retry(l, KEY, "").0;
      && Retry(l, KEY, "").1 == Done && l'.due != [] && l'.rows[KEY].attempts == 0
      && KEY in Attempt(l', UNSET).0.rows && Attempt(l', UNSET).0.rows[KEY].status.Failed?
  {
    var worn := Worn(MAX_ATTEMPTS - 1);
    l := Listed(worn);
    ListedArises(worn, MAX_ATTEMPTS - 1);
  }
}
