/** The payout table as the handlers and the loop rewrite it. */
module PayoutServer {
  import opened Results
  import opened PayoutPolicy
  import opened Payouts
  import opened PayoutPass
  import Q = PayoutQueue
  import T = TangoRounds

  lemma NoneFailed(l: Ledger, net: Network, failed: set<Key>)
    requires failed == set k | k in l.rows && l.rows[k].network == net && l.rows[k].status.Failed?
    requires failed == {}
    ensures RequeueFailed(l, net) == l
  {
    forall k | k in l.rows ensures RequeueFailed(l, net).rows[k] == l.rows[k] {
      assert k !in failed;
    }
    assert RequeueFailed(l, net).rows == l.rows;
  }

  /** An entry of a listing under way. */
  ghost predicate Taken(rows: map<Key, Payout>, clock: nat, taken: set<Key>, e: (Key, Payout)) {
    match e
    case (k, p) => k in taken && k in rows && rows[k] == p && IsDue(p, clock)
  }

  /** Nothing that is due and not yet taken is older. */
  ghost predicate Older(rows: map<Key, Payout>, clock: nat, taken: set<Key>, e: (Key, Payout)) {
    forall k :: k in rows && IsDue(rows[k], clock) && k !in taken ==> e.1.createdAt <= rows[k].createdAt
  }

  class PayoutTable {
    var rows: map<Key, Payout>
    var due: seq<(Key, Payout)>
    var balances: map<Network, int>
    var sent: seq<Key>
    var wallet: int
    var clock: nat

    ghost function State(): Ledger
      reads this
    {
      Ledger(rows, due, balances, sent, wallet, clock)
    }

    ghost predicate Valid()
      reads this
    {
      match State()
      case l => Inv(l)
    }

    constructor ()
      ensures Valid() && State() == EMPTY
    {
      rows, due, balances, sent, wallet, clock := map[], [], map[], [], 0, 0;
    }

    method CreatePayout(k: Key, p: Payout) returns (made: bool)
      requires Valid() && IsFresh(p)
      modifies this`rows
      ensures (State(), made) == Create(old(State()), k, p)
      ensures Valid()
    {
      CreateKeeps(State(), k, p);
      if k in rows {
        return false;
      }
      rows := rows[k := p];
      made := true;
    }

    /** The oldest due row that is not yet taken. */
    method OldestDue(taken: set<Key>) returns (found: Option<Key>)
      ensures found.Some? ==> found.value in rows && IsDue(rows[found.value], clock) && found.value !in taken
      ensures found.Some? ==>
        forall k :: k in rows && IsDue(rows[k], clock) && k !in taken ==> rows[found.value].createdAt <= rows[k].createdAt
      ensures found.None? ==> forall k :: k in rows && IsDue(rows[k], clock) ==> k in taken
    {
      found := None;
      var left := rows.Keys;
      while left != {}
        invariant left <= rows.Keys
        invariant found.Some? ==> found.value in rows && IsDue(rows[found.value], clock) && found.value !in taken
        invariant found.Some? ==>
          forall k :: k in rows && IsDue(rows[k], clock) && k !in taken && k !in left ==> rows[found.value].createdAt <= rows[k].createdAt
        invariant found.None? ==> forall k :: k in rows && IsDue(rows[k], clock) && k !in left ==> k in taken
        decreases |left|
      {
        var k :| k in left;
        if IsDue(rows[k], clock) && k !in taken {
          if found.None? || rows[k].createdAt < rows[found.value].createdAt {
            found := Some(k);
          }
        }
        left := left - {k};
      }
    }

    /** `list_due_tango_payouts` */
    method ListDue() returns (listing: seq<(Key, Payout)>)
      ensures IsListing(State(), listing)
    {
      listing := [];
      var taken: set<Key> := {};
      ghost var place: map<Key, nat> := map[];
      while |listing| < LIST_LIMIT
        invariant |listing| <= LIST_LIMIT && place.Keys == taken
        invariant forall i :: 0 <= i < |listing| ==> Taken(rows, clock, taken, listing[i]) && Older(rows, clock, taken, listing[i])
        invariant forall i, j :: 0 <= i < j < |listing| ==> listing[i].0 != listing[j].0 && listing[i].1.createdAt <= listing[j].1.createdAt
        invariant forall k :: k in taken ==> place[k] < |listing| && listing[place[k]].0 == k
      {
        var next := OldestDue(taken);
        if next.None? {
          return;
        }
        place := place[next.value := |listing|];
        listing := listing + [(next.value, rows[next.value])];
        taken := taken + {next.value};
      }
    }

    /** `_attempt_tango_payout` for the next listed row. */
    method AttemptNext(env: AttemptEnv) returns (o: Outcome)
      requires Valid() && due != []
      modifies this`rows, this`due, this`balances, this`sent, this`wallet
      ensures (State(), o) == Attempt(old(State()), env)
      ensures Valid()
    {
      AttemptKeeps(State(), env);
      HeadFacts(State());
      var (k, row) := due[0];
      var balance := if row.network in balances then Some(balances[row.network]) else None;
      due := due[1..];
      if row.address != "" && ShouldDefer(balance, row.net, Age(row, clock)) {
        rows := rows[k := rows[k].(nextAttempt := clock + DEFER_SECONDS)];
        return Deferred;
      }
      var attempts, permanent, failed := row.attempts + 1, false, false;
      if row.address == "" {
        permanent, failed := true, true;
      } else if !env.walletSet {
        failed := true;
      } else if env.resolution.Temporary? {
        failed := true;
      } else if env.resolution.Permanent? {
        permanent, failed := true, true;
      }
      if !failed && env.pays {
        wallet := wallet - row.net - env.routingFee;
        sent := sent + [k];
        rows := rows[k := rows[k].(status := Paid, attempts := attempts)];
        if row.network in balances {
          balances := balances[row.network :=
            if balances[row.network] - row.net > 0 then balances[row.network] - row.net else 0];
        }
        return Became(Paid);
      }
      RecordFailure(k, row, permanent, env);
      o := Became(StatusAfter(attempts, permanent));
    }

    /** Try again later, or stop and say so once. */
    method RecordFailure(k: Key, row: Payout, permanent: bool, ghost env: AttemptEnv)
      requires k in rows && permanent == IsPermanent(row, env)
      modifies this`rows
      ensures rows == old(rows)[k := AfterFailure(old(rows)[k], row, env, clock)]
    {
      var attempts := row.attempts + 1;
      var status := StatusAfter(attempts, permanent);
      var told := rows[k].(status := status, attempts := attempts);
      if status.Pending? {
        told := told.(nextAttempt := clock + BackoffFor(attempts));
      } else if !row.notified {
        told := told.(notified := true);
      }
      rows := rows[k := told];
    }

    /** `run_tango_payouts`: list once, then attempt one by one. */
    method RunPass(known: map<Network, int>, env: nat -> AttemptEnv) returns (c: Counts, ghost listing: seq<(Key, Payout)>)
      requires Valid() && due == []
      modifies this`rows, this`due, this`balances, this`sent, this`wallet
      ensures IsListing(old(State()), listing)
      ensures (State(), c) == WorkOff(old(State()).(due := listing, balances := known), env, Counts(0, 0, 0, 0))
      ensures Valid() && c.Total() == |listing| && |sent| == |old(sent)| + c.paid
    {
      Start(known);
      listing := due;
      WorkedOff(State(), env, Counts(0, 0, 0, 0));
      c := AttemptAll(env);
    }

    method Start(known: map<Network, int>)
      requires Valid() && due == []
      modifies this`due, this`balances
      ensures IsListing(old(State()), due)
      ensures State() == old(State()).(due := due, balances := known)
      ensures Valid()
    {
      var listing := ListDue();
      StartKeeps(State(), listing, known);
      due, balances := listing, known;
    }

    method AttemptAll(env: nat -> AttemptEnv) returns (c: Counts)
      requires Valid()
      modifies this`rows, this`due, this`balances, this`sent, this`wallet
      ensures (State(), c) == WorkOff(old(State()), env, Counts(0, 0, 0, 0))
      ensures Valid()
    {
      c := Counts(0, 0, 0, 0);
      ghost var all := WorkOff(State(), env, c);
      while due != []
        invariant Valid() && WorkOff(State(), env, c) == all
        decreases |due|
      {
        OneMore(State(), env, c);
        AttemptCounts(State(), env(|due|));
        var o := AttemptNext(env(|due|));
        c := c.Add(o);
      }
    }

    method RetryPayout(k: Key, saved: string) returns (reply: Reply)
      requires Valid()
      modifies this`rows
      ensures (State(), reply) == Retry(old(State()), k, saved)
      ensures Valid()
    {
      RetryKeeps(State(), k, saved);
      if k !in rows {
        return NotFound;
      }
      if rows[k].status.Paid? {
        return Conflict;
      }
      rows := rows[k := rows[k].(status := Pending, attempts := 0, nextAttempt := clock, notified := false,
                                 address := if saved != "" then saved else rows[k].address)];
      reply := Done;
    }

    /** `requeue_failed_tango_payouts`: how many rows moved. */
    method RequeueFailedPayouts(net: Network) returns (n: nat)
      requires Valid()
      modifies this`rows
      ensures State() == RequeueFailed(old(State()), net)
      ensures n == |set k | k in old(rows) && old(rows)[k].network == net && old(rows)[k].status.Failed?|
      ensures Valid()
    {
      RequeueFailedKeeps(State(), net);
      n := CountFailed(net);
      if n == 0 {
        return;
      }
      rows := map k | k in rows ::
        if rows[k].network == net && rows[k].status.Failed?
        then rows[k].(status := Pending, attempts := 0, nextAttempt := clock)
        else rows[k];
    }

    method CountFailed(net: Network) returns (n: nat)
      ensures n == |set k | k in rows && rows[k].network == net && rows[k].status.Failed?|
      ensures n == 0 ==> State() == RequeueFailed(State(), net)
    {
      n := 0;
      ghost var counted: set<Key> := {};
      var left := rows.Keys;
      while left != {}
        invariant left <= rows.Keys && n == |counted|
        invariant counted == set k | k in rows && k !in left && rows[k].network == net && rows[k].status.Failed?
        decreases |left|
      {
        var k :| k in left;
        if rows[k].network == net && rows[k].status.Failed? {
          n := n + 1;
          counted := counted + {k};
        }
        left := left - {k};
      }
      assert counted == set k | k in rows && rows[k].network == net && rows[k].status.Failed?;
      if n == 0 {
        NoneFailed(State(), net, counted);
      }
    }

    /** `enqueue_tango_payouts`: how many obligations are new. */
    method EnqueuePayouts(rounds: seq<(T.RoundId, T.Round)>, env: Q.Env) returns (made: nat)
      requires Valid()
      modifies this`rows
      ensures State() == Q.Enqueue(old(State()), rounds, env)
      ensures made == |rows.Keys - old(rows.Keys)|
      ensures (forall i :: 0 <= i < |rounds| ==> Q.Sane(rounds[i].1)) ==> Valid()
    {
      made := 0;
      ghost var start := State();
      for i := 0 to |rounds|
        invariant State() == Q.Enqueue(start, rounds[..i], env)
        invariant start.rows.Keys <= rows.Keys && made == |rows.Keys - start.rows.Keys|
      {
        assert rounds[..i + 1][..i] == rounds[..i];
        var (id, r) := rounds[i];
        if Q.Confirmed(r, env) {
          var a := RecordOwed(Q.OwedA(id, r, env, clock), start.rows.Keys);
          var b := RecordOwed(Q.OwedB(id, r, env, clock), start.rows.Keys);
          made := made + a + b;
        }
      }
      assert rounds[..|rounds|] == rounds;
      if forall i :: 0 <= i < |rounds| ==> Q.Sane(rounds[i].1) {
        Q.EnqueueKeeps(start, rounds, env);
      }
    }

    method RecordOwed(owed: Option<(Key, Payout)>, ghost first: set<Key>) returns (n: nat)
      requires first <= rows.Keys
      modifies this`rows
      ensures State() == Q.Record(old(State()), owed)
      ensures first <= rows.Keys && |rows.Keys - first| == |old(rows.Keys) - first| + n
    {
      n := 0;
      if owed.Some? && owed.value.0 !in rows {
        ghost var was := rows.Keys;
        rows := rows[owed.value.0 := owed.value.1];
        assert rows.Keys - first == (was - first) + {owed.value.0};
        n := 1;
      }
    }
  }
}
