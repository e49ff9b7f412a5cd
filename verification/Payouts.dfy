/** The payout ledger of crud.py and views_api.py: obligations keyed by the output that created them, and
    the one loop that delivers them from a listing that grows stale while it works. Whether an address
    resolves, whether a payment goes through and what the wallet holds come in as arguments. */
module Payouts {
  import opened Results
  import opened PayoutPolicy

  type Network = string

  datatype Key = Key(txid: string, vout: nat)

  datatype Payout = Payout(
    roundId: nat, user: string, network: Network, address: string, gross: int, fee: int, net: int,
    status: PayStatus, attempts: nat, nextAttempt: int, createdAt: nat, notified: bool)

  /** `due` is the rest of the running pass's listing, `balances` the figure the pass judges by, `sent` the
      payments that went through, in order, and `wallet` what the payout wallet really holds. */
  datatype Ledger = Ledger(rows: map<Key, Payout>, due: seq<(Key, Payout)>, balances: map<Network, int>,
                           sent: seq<Key>, wallet: int, clock: nat)

  const EMPTY: Ledger := Ledger(map[], [], map[], [], 0, 0)

  const LIST_LIMIT: nat := 25

  // ----- recording obligations -----

  /** `create_tango_payout`: false when there is a row for the output. */
  function Create(l: Ledger, k: Key, p: Payout): (Ledger, bool) {
    if k in l.rows then (l, false) else (l.(rows := l.rows[k := p]), true)
  }

  /** A fresh obligation: the amounts add up, and nothing has been tried. */
  predicate IsFresh(p: Payout) {
    p.gross == p.fee + p.net && p.fee >= 0 && p.net >= 0 && p.status.Pending? && p.attempts == 0 && !p.notified
  }

  // ----- the pass -----

  predicate IsDue(p: Payout, now: int) {
    p.status.Pending? && p.nextAttempt <= now
  }

  /** `list_due_tango_payouts`: pending rows whose time has come, the oldest first, at most the limit. */
  ghost predicate IsListing(l: Ledger, due: seq<(Key, Payout)>) {
    && |due| <= LIST_LIMIT
    && (forall i :: 0 <= i < |due| ==> due[i].0 in l.rows && l.rows[due[i].0] == due[i].1 && IsDue(due[i].1, l.clock))
    && (forall i, j :: 0 <= i < j < |due| ==> due[i].0 != due[j].0 && due[i].1.createdAt <= due[j].1.createdAt)
    && (forall k :: k in l.rows && IsDue(l.rows[k], l.clock) ==> IsListed(due, k) || (|due| == LIST_LIMIT && NoneNewer(due, l.rows[k])))
  }

  ghost predicate IsListed(due: seq<(Key, Payout)>, k: Key) {
    exists i :: 0 <= i < |due| && due[i].0 == k
  }

  /** No listed row is newer than this one. */
  ghost predicate NoneNewer(due: seq<(Key, Payout)>, p: Payout) {
    forall i :: 0 <= i < |due| ==> due[i].1.createdAt <= p.createdAt
  }

  datatype Resolution = Resolved | Temporary | Permanent

  /** What one attempt is told from outside. */
  datatype AttemptEnv = AttemptEnv(walletSet: bool, resolution: Resolution, pays: bool, routingFee: nat)

  datatype Outcome = Deferred | Became(status: PayStatus)

  /** Whether an attempt on this listed row ends in a payment. */
  predicate Delivers(row: Payout, env: AttemptEnv) {
    row.address != "" && env.walletSet && env.resolution.Resolved? && env.pays
  }

  predicate IsPermanent(row: Payout, env: AttemptEnv) {
    row.address == "" || (env.walletSet && env.resolution.Permanent?)
  }

  function BalanceOf(l: Ledger, net: Network): Option<int> {
    if net in l.balances then Some(l.balances[net]) else None
  }

  function Age(row: Payout, now: nat): nat {
    if now > row.createdAt then now - row.createdAt else 0
  }

  predicate HeldBack(l: Ledger, row: Payout) {
    row.address != "" && ShouldDefer(BalanceOf(l, row.network), row.net, Age(row, l.clock))
  }

  /** `update_tango_payout` on the row that is in the table now. */
  function Update(rows: map<Key, Payout>, k: Key, p: Payout): map<Key, Payout> {
    if k in rows then rows[k := p] else rows
  }

  /** The fields a stopped or retried attempt writes: counted from the listed row, not from the table. */
  function AfterFailure(current: Payout, row: Payout, env: AttemptEnv, now: nat): Payout {
    var attempts := row.attempts + 1;
    var status := StatusAfter(attempts, IsPermanent(row, env));
    current.(status := status, attempts := attempts,
             nextAttempt := if status.Pending? then now + BackoffFor(attempts) else current.nextAttempt,
             notified := current.notified || (!status.Pending? && !row.notified))
  }

  /** `_attempt_tango_payout` on the head of the listing, and what `run_tango_payouts` does with the answer. */
  function Attempt(l: Ledger, env: AttemptEnv): (Ledger, Outcome)
    requires l.due != []
  {
    var (k, row) := l.due[0];
    var rest := l.(due := l.due[1..]);
    if HeldBack(l, row) then
      (rest.(rows := if k in l.rows then l.rows[k := l.rows[k].(nextAttempt := l.clock + DEFER_SECONDS)] else l.rows), Deferred)
    else if Delivers(row, env) then
      (rest.(rows := if k in l.rows then l.rows[k := l.rows[k].(status := Paid, attempts := row.attempts + 1)] else l.rows,
             sent := l.sent + [k], wallet := l.wallet - row.net - env.routingFee,
             balances := Spend(l.balances, row.network, row.net)), Became(Paid))
    else
      var after := if k in l.rows then AfterFailure(l.rows[k], row, env, l.clock) else row;
      (rest.(rows := Update(l.rows, k, after)), Became(StatusAfter(row.attempts + 1, IsPermanent(row, env))))
  }

  /** A payment is taken off the figure the rest of the pass is judged by. */
  function Spend(balances: map<Network, int>, net: Network, amount: int): map<Network, int> {
    if net in balances then balances[net := if balances[net] - amount > 0 then balances[net] - amount else 0] else balances
  }

  // ----- putting stopped rows back -----

  datatype Reply = Done | NotFound | Conflict

  /** `api_admin_tango_payout_retry`, read and write in one step. */
  function Retry(l: Ledger, k: Key, saved: string): (Ledger, Reply) {
    if k !in l.rows then (l, NotFound)
    else if l.rows[k].status.Paid? then (l, Conflict)
    else (Requeue(l, k, if saved != "" then saved else l.rows[k].address), Done)
  }

  /** `requeue_tango_payout` */
  function Requeue(l: Ledger, k: Key, address: string): Ledger {
    if k !in l.rows then l
    else
      l.(rows := l.rows[k := l.rows[k].(status := Pending, attempts := 0, nextAttempt := l.clock, notified := false,
                                        address := address)])
  }

  /** `requeue_failed_tango_payouts` */
  function RequeueFailed(l: Ledger, net: Network): Ledger {
    l.(rows := map k | k in l.rows ::
                 if l.rows[k].network == net && l.rows[k].status.Failed?
                 then l.rows[k].(status := Pending, attempts := 0, nextAttempt := l.clock)
                 else l.rows[k])
  }

  /** `redact_tango_payouts_for_user` */
  function Redact(l: Ledger, user: string): Ledger {
    l.(rows := map k | k in l.rows :: if l.rows[k].user == user then l.rows[k].(user := "deleted", address := "") else l.rows[k])
  }

  // ----- runs -----

  datatype Event =
    | DoCreate(k: Key, p: Payout)
    | DoStart(due: seq<(Key, Payout)>, balances: map<Network, int>)
    | DoAttempt(env: AttemptEnv)
    | DoRetry(k: Key, saved: string)
    | DoRequeueFailed(net: Network)
    | DoRedact(user: string)
    | DoTick(now: nat)

  /** One loop: a pass lists only when the one before has worked its listing off. */
  ghost predicate Enabled(l: Ledger, e: Event) {
    match e
    case DoCreate(_, p) => IsFresh(p)
    case DoStart(due, _) => l.due == [] && IsListing(l, due)
    case DoAttempt(_) => l.due != []
    case DoTick(now) => l.clock <= now
    case _ => true
  }

  function Step(l: Ledger, e: Event): Ledger
    requires e.DoAttempt? ==> l.due != []
  {
    match e
    case DoCreate(k, p) => Create(l, k, p).0
    case DoStart(due, balances) => l.(due := due, balances := balances)
    case DoAttempt(env) => Attempt(l, env).0
    case DoRetry(k, saved) => Retry(l, k, saved).0
    case DoRequeueFailed(net) => RequeueFailed(l, net)
    case DoRedact(user) => Redact(l, user)
    case DoTick(now) => l.(clock := now)
  }

  ghost predicate Runs(l: Ledger, events: seq<Event>)
    decreases |events|, 0
  {
    events == [] || (Runs(l, events[..|events| - 1]) && Enabled(After(l, events[..|events| - 1]), events[|events| - 1]))
  }

  ghost function After(l: Ledger, events: seq<Event>): Ledger
    requires Runs(l, events)
    decreases |events|, 1
  {
    if events == [] then l else Step(After(l, events[..|events| - 1]), events[|events| - 1])
  }

  // ----- at most once -----

  /** One row by itself. */
  ghost predicate Sound(p: Payout) {
    match p.status
    case Pending => p.gross == p.fee + p.net && p.fee >= 0 && p.net >= 0 && p.attempts < MAX_ATTEMPTS
    case _ => p.gross == p.fee + p.net && p.fee >= 0 && p.net >= 0
  }

  ghost predicate AllSound(rows: map<Key, Payout>) {
    forall k :: k in rows ==> Sound(rows[k])
  }

  /** Paid in the table exactly when a payment went out, and no output is paid twice. */
  ghost predicate PaidOnce(rows: map<Key, Payout>, sent: seq<Key>) {
    && (forall k :: k in rows ==> (rows[k].status.Paid? <==> k in sent))
    && (forall i :: 0 <= i < |sent| ==> sent[i] in rows)
    && (forall i, j :: 0 <= i < j < |sent| ==> sent[i] != sent[j])
  }

  /** A listed row is still there, still unpaid, and still worth the same; no row is listed twice. */
  ghost predicate StaleButUnpaid(rows: map<Key, Payout>, due: seq<(Key, Payout)>) {
    && (forall i :: 0 <= i < |due| ==> due[i].0 in rows && !rows[due[i].0].status.Paid? && SameMoney(rows[due[i].0], due[i].1))
    && (forall i, j :: 0 <= i < j < |due| ==> due[i].0 != due[j].0)
  }

  ghost predicate SameMoney(p: Payout, q: Payout) {
    match (p, q)
    case (_, _) =>
      q.gross == p.gross && q.fee == p.fee && q.net == p.net && q.network == p.network && q.createdAt == p.createdAt
      && q.attempts < MAX_ATTEMPTS
  }

  ghost predicate Inv(l: Ledger) {
    AllSound(l.rows) && PaidOnce(l.rows, l.sent) && StaleButUnpaid(l.rows, l.due)
  }

  /** A row may change while it stays unpaid. */
  ghost predicate Retold(p: Payout, q: Payout) {
    && Sound(q) && (p.status.Paid? <==> q.status.Paid?)
    && q.gross == p.gross && q.fee == p.fee && q.net == p.net && q.network == p.network && q.createdAt == p.createdAt
  }

  lemma RetoldKeeps(l: Ledger, l': Ledger)
    requires Inv(l) && l'.sent == l.sent && l'.due == l.due && l'.rows.Keys == l.rows.Keys
    requires forall k :: k in l.rows ==> Retold(l.rows[k], l'.rows[k])
    ensures Inv(l')
  {
    forall i | 0 <= i < |l'.due|
      ensures l'.due[i].0 in l'.rows && !l'.rows[l'.due[i].0].status.Paid? && SameMoney(l'.rows[l'.due[i].0], l'.due[i].1)
    {
      var k := l.due[i].0;
      assert SameMoney(l.rows[k], l.due[i].1) && Retold(l.rows[k], l'.rows[k]);
    }
    forall k | k in l'.rows ensures Sound(l'.rows[k]) && (l'.rows[k].status.Paid? <==> k in l'.sent) {
      assert Retold(l.rows[k], l'.rows[k]);
    }
  }

  lemma CreateKeeps(l: Ledger, k: Key, p: Payout)
    requires Inv(l) && IsFresh(p)
    ensures Inv(Create(l, k, p).0)
  {
  }

  lemma StartKeeps(l: Ledger, due: seq<(Key, Payout)>, balances: map<Network, int>)
    requires Inv(l) && IsListing(l, due)
    ensures Inv(l.(due := due, balances := balances))
  {
    forall i | 0 <= i < |due| ensures SameMoney(l.rows[due[i].0], due[i].1) {
      assert Sound(l.rows[due[i].0]);
    }
  }

  lemma DropHead(l: Ledger)
    requires Inv(l) && l.due != []
    ensures Inv(l.(due := l.due[1..]))
    ensures forall i :: 0 <= i < |l.due[1..]| ==> l.due[1..][i].0 != l.due[0].0
  {
  }

  lemma PayKeeps(l: Ledger, k: Key, p: Payout)
    requires Inv(l) && k in l.rows && !l.rows[k].status.Paid?
    requires p.status.Paid? && p.gross == l.rows[k].gross && p.fee == l.rows[k].fee && p.net == l.rows[k].net
    requires forall i :: 0 <= i < |l.due| ==> l.due[i].0 != k
    ensures Inv(l.(rows := l.rows[k := p], sent := l.sent + [k]))
  {
    assert Sound(l.rows[k]);
    var rows, sent := l.rows[k := p], l.sent + [k];
    forall j | j in rows ensures rows[j].status.Paid? <==> j in sent {
      assert j in sent <==> j in l.sent || j == k;
    }
  }

  lemma AfterFailureRetold(current: Payout, row: Payout, env: AttemptEnv, now: nat)
    requires Sound(current) && !current.status.Paid? && row.attempts < MAX_ATTEMPTS
    ensures Retold(current, AfterFailure(current, row, env, now))
  {
  }

  lemma ReplaceRetold(l: Ledger, k: Key, p: Payout)
    requires Inv(l) && k in l.rows && Retold(l.rows[k], p)
    ensures Inv(l.(rows := l.rows[k := p]))
  {
    forall j | j in l.rows ensures Retold(l.rows[j], l.rows[k := p][j]) {
      assert Sound(l.rows[j]);
    }
    RetoldKeeps(l, l.(rows := l.rows[k := p]));
  }

  lemma HeadFacts(l: Ledger)
    requires Inv(l) && l.due != []
    ensures l.due[0].0 in l.rows && !l.rows[l.due[0].0].status.Paid? && SameMoney(l.rows[l.due[0].0], l.due[0].1)
    ensures Sound(l.rows[l.due[0].0])
  {
  }

  /** An attempt pays only a row that is unpaid in the table, however stale the listing. */
  lemma AttemptKeeps(l: Ledger, env: AttemptEnv)
    requires Inv(l) && l.due != []
    ensures Inv(Attempt(l, env).0)
  {
    var (k, row) := l.due[0];
    HeadFacts(l);
    DropHead(l);
    var rest := l.(due := l.due[1..]);
    var current := l.rows[k];
    if HeldBack(l, row) {
      ReplaceRetold(rest, k, current.(nextAttempt := l.clock + DEFER_SECONDS));
    } else if Delivers(row, env) {
      PayKeeps(rest, k, current.(status := Paid, attempts := row.attempts + 1));
    } else {
      AfterFailureRetold(current, row, env, l.clock);
      ReplaceRetold(rest, k, AfterFailure(current, row, env, l.clock));
    }
  }

  lemma RetryKeeps(l: Ledger, k: Key, saved: string)
    requires Inv(l)
    ensures Inv(Retry(l, k, saved).0)
  {
    if Retry(l, k, saved).1 == Done {
      assert Sound(l.rows[k]);
      ReplaceRetold(l, k, Retry(l, k, saved).0.rows[k]);
    }
  }

  lemma RequeueFailedKeeps(l: Ledger, net: Network)
    requires Inv(l)
    ensures Inv(RequeueFailed(l, net))
  {
    forall k | k in l.rows ensures Retold(l.rows[k], RequeueFailed(l, net).rows[k]) {
      assert Sound(l.rows[k]);
    }
    RetoldKeeps(l, RequeueFailed(l, net));
  }

  lemma RedactKeeps(l: Ledger, user: string)
    requires Inv(l)
    ensures Inv(Redact(l, user))
  {
    forall k | k in l.rows ensures Retold(l.rows[k], Redact(l, user).rows[k]) {
      assert Sound(l.rows[k]);
    }
    RetoldKeeps(l, Redact(l, user));
  }

  lemma StepKeeps(l: Ledger, e: Event)
    requires Inv(l) && Enabled(l, e)
    ensures Inv(Step(l, e))
  {
    match e
    case DoCreate(k, p) => CreateKeeps(l, k, p);
    case DoStart(due, balances) => StartKeeps(l, due, balances);
    case DoAttempt(env) => AttemptKeeps(l, env);
    case DoRetry(k, saved) => RetryKeeps(l, k, saved);
    case DoRequeueFailed(net) => RequeueFailedKeeps(l, net);
    case DoRedact(user) => RedactKeeps(l, user);
    case DoTick(now) =>
  }

  /** In every state a run can reach, no output has been paid twice, and the table says paid exactly where a
      payment went out. */
  lemma {:induction false} AtMostOnce(events: seq<Event>)
    requires Runs(EMPTY, events)
    ensures Inv(After(EMPTY, events))
  {
    if events != [] {
      AtMostOnce(events[..|events| - 1]);
      StepKeeps(After(EMPTY, events[..|events| - 1]), events[|events| - 1]);
    }
  }

  /** Paid is absorbing: no step touches a paid row, except to forget whose it was. */
  lemma PaidIsAbsorbing(l: Ledger, e: Event, k: Key)
    requires Inv(l) && Enabled(l, e) && k in l.rows && l.rows[k].status.Paid?
    ensures k in Step(l, e).rows
    ensures !e.DoRedact? ==> Step(l, e).rows[k] == l.rows[k]
    ensures e.DoRedact? ==> Step(l, e).rows[k] == l.rows[k].(user := Step(l, e).rows[k].user, address := Step(l, e).rows[k].address)
  {
    if e.DoAttempt? {
      HeadFacts(l);
    }
  }

  /** The batch requeue takes failed rows and no others. */
  lemma RequeueTouchesFailedOnly(l: Ledger, net: Network, k: Key)
    requires k in l.rows
    ensures k in RequeueFailed(l, net).rows
    ensures RequeueFailed(l, net).rows[k] != l.rows[k] ==> l.rows[k].status.Failed? && l.rows[k].network == net
    ensures l.rows[k].status.Failed? && l.rows[k].network == net ==> RequeueFailed(l, net).rows[k].status.Pending?
  {
  }

  // ----- what the assumptions are for -----

  /** Two loops over one listing pay one output twice. */
  lemma TwoLoopsPayTwice(l: Ledger, env: AttemptEnv)
    requires Inv(l) && l.due != [] && Delivers(l.due[0].1, env) && !HeldBack(l, l.due[0].1)
    requires l.due[0].1.network !in l.balances
    ensures var once := Attempt(l, env).0;
      var twice := Attempt(once.(due := l.due), env).0;
      twice.sent == l.sent + [l.due[0].0] + [l.due[0].0] && !PaidOnce(twice.rows, twice.sent)
  {
    var k := l.due[0].0;
    var s := l.sent + [k] + [k];
    assert s[|l.sent|] == s[|l.sent| + 1] == k;
  }

  /** A retry whose check and write are not one step puts a paid row back in the queue: the handler reads
      the row unpaid, the loop pays it, the handler writes. The next pass may then pay it again. */
  lemma SplitRetryUnpays(l: Ledger, env: AttemptEnv, saved: string)
    requires Inv(l) && l.due != [] && Delivers(l.due[0].1, env) && !HeldBack(l, l.due[0].1)
    ensures l.due[0].0 in l.rows && !l.rows[l.due[0].0].status.Paid?
    ensures var paid := Attempt(l, env).0;
      var undone := Requeue(paid, l.due[0].0, saved);
      l.due[0].0 in undone.sent && IsDue(undone.rows[l.due[0].0], undone.clock) && !PaidOnce(undone.rows, undone.sent)
  {
    HeadFacts(l);
    var k := l.due[0].0;
    assert (l.sent + [k])[|l.sent|] == k;
  }
}
