/** One wallet's coin table in crud.py: the upsert a rescan runs, and the freeze states that the dust
    evaluation of helpers/dust_check.py and the user share. */
module Coins {
  import opened Results

  datatype Outpoint = Outpoint(txid: string, vout: nat)

  datatype State = Unspent | Unconfirmed | UnconfirmedSpent | Spent

  datatype Reason = Auto | Manual | ManualUnfrozen

  datatype Row = Row(
    amount: int, tweak: string, pubKey: string, state: State, timestamp: int, title: Option<string>,
    labelIndex: Option<nat>, frozen: bool, reason: Option<Reason>, dust: bool, spentIn: Option<string>)

  /** A coin as the scanner found it. */
  datatype Found = Found(
    at: Outpoint, amount: int, tweak: string, pubKey: string, state: State, timestamp: int, title: Option<string>,
    labelIndex: Option<nat>)

  predicate IsSpent(s: State) {
    s.Spent? || s.UnconfirmedSpent?
  }

  function Coalesce<T>(a: Option<T>, b: Option<T>): Option<T> {
    if a.Some? then a else b
  }

  /** The row an INSERT makes. */
  function Fresh(f: Found): Row {
    Row(f.amount, f.tweak, f.pubKey, f.state, f.timestamp, f.title, f.labelIndex, false, None, false, None)
  }

  /** The row an ON CONFLICT DO UPDATE makes: a spend that is recorded stays recorded, and a label stays. */
  function Merge(r: Row, f: Found): Row {
    r.(amount := f.amount, tweak := f.tweak, pubKey := f.pubKey, state := if IsSpent(r.state) then r.state else f.state,
       title := Coalesce(r.title, f.title), labelIndex := Coalesce(r.labelIndex, f.labelIndex))
  }

  function Upsert(rows: map<Outpoint, Row>, f: Found): map<Outpoint, Row> {
    rows[f.at := if f.at in rows then Merge(rows[f.at], f) else Fresh(f)]
  }

  function UpsertAll(rows: map<Outpoint, Row>, found: seq<Found>): map<Outpoint, Row> {
    if found == [] then rows else Upsert(UpsertAll(rows, found[..|found| - 1]), found[|found| - 1])
  }

  /** The outpoints of a list that a table does not have. */
  function NewKeys(rows: map<Outpoint, Row>, found: seq<Found>): set<Outpoint> {
    set i | 0 <= i < |found| && found[i].at !in rows :: found[i].at
  }

  /** The summed amounts of first sightings. */
  function NewAmount(rows: map<Outpoint, Row>, found: seq<Found>): int {
    if found == [] then 0
    else
      var n := |found| - 1;
      NewAmount(rows, found[..n]) + (if found[n].at in UpsertAll(rows, found[..n]) then 0 else found[n].amount)
  }

  lemma {:induction false} UpsertAllKeys(rows: map<Outpoint, Row>, found: seq<Found>)
    ensures UpsertAll(rows, found).Keys == rows.Keys + NewKeys(rows, found)
  {
    if found != [] {
      var n := |found| - 1;
      UpsertAllKeys(rows, found[..n]);
      NewKeysPush(rows, found, n);
    }
  }

  lemma NewKeysPush(rows: map<Outpoint, Row>, found: seq<Found>, n: nat)
    requires n < |found|
    ensures NewKeys(rows, found[..n + 1]) == NewKeys(rows, found[..n]) + (if found[n].at in rows then {} else {found[n].at})
    ensures |found| == n + 1 ==> found[..n + 1] == found
  {
    forall p | p in NewKeys(rows, found[..n + 1]) ensures p in NewKeys(rows, found[..n]) || p == found[n].at {
      var i :| 0 <= i < n + 1 && found[..n + 1][i].at == p;
      if i < n {
        assert found[..n][i].at == p;
      }
    }
    forall p | p in NewKeys(rows, found[..n]) ensures p in NewKeys(rows, found[..n + 1]) {
      var i :| 0 <= i < n && found[..n][i].at == p;
      assert found[..n + 1][i].at == p;
    }
    assert found[..n + 1][n] == found[n];
  }

  /** One more entry: it is new exactly when the table so far does not have it. */
  lemma OneMore(rows: map<Outpoint, Row>, found: seq<Found>, i: nat)
    requires i < |found|
    ensures var now := UpsertAll(rows, found[..i]);
      && UpsertAll(rows, found[..i + 1]) == Upsert(now, found[i])
      && NewKeys(rows, found[..i + 1]) == NewKeys(rows, found[..i]) + (if found[i].at in now then {} else {found[i].at})
      && (found[i].at !in now ==> found[i].at !in NewKeys(rows, found[..i]))
      && NewAmount(rows, found[..i + 1]) == NewAmount(rows, found[..i]) + (if found[i].at in now then 0 else found[i].amount)
  {
    assert found[..i + 1][..i] == found[..i];
    UpsertAllKeys(rows, found[..i]);
    NewKeysPush(rows, found, i);
  }

  // ----- what a rescan keeps -----

  /** A coin recorded as spent stays as it was recorded, and a label that is there is never replaced; what
      the user and the dust evaluation have set is not touched. */
  lemma {:induction false} RescanKeeps(rows: map<Outpoint, Row>, found: seq<Found>, p: Outpoint)
    requires p in rows
    ensures p in UpsertAll(rows, found)
    ensures var r, r' := rows[p], UpsertAll(rows, found)[p];
      && (IsSpent(r.state) ==> r'.state == r.state)
      && (r.title.Some? ==> r'.title == r.title) && (r.labelIndex.Some? ==> r'.labelIndex == r.labelIndex)
      && r'.frozen == r.frozen && r'.reason == r.reason && r'.dust == r.dust && r'.spentIn == r.spentIn
      && r'.timestamp == r.timestamp
  {
    if found != [] {
      RescanKeeps(rows, found[..|found| - 1], p);
    }
  }

  // ----- rescanning twice -----

  /** What a list makes of one row. */
  function RowAfter(o: Option<Row>, found: seq<Found>, p: Outpoint): Option<Row> {
    if found == [] then o
    else
      var n := |found| - 1;
      var before := RowAfter(o, found[..n], p);
      if found[n].at != p then before
      else Some(if before.Some? then Merge(before.value, found[n]) else Fresh(found[n]))
  }

  function RowAt(rows: map<Outpoint, Row>, p: Outpoint): Option<Row> {
    if p in rows then Some(rows[p]) else None
  }

  lemma {:induction false} UpsertAllAt(rows: map<Outpoint, Row>, found: seq<Found>, p: Outpoint)
    ensures RowAt(UpsertAll(rows, found), p) == RowAfter(RowAt(rows, p), found, p)
  {
    if found != [] {
      UpsertAllAt(rows, found[..|found| - 1], p);
    }
  }

  /** The entries of a list for one outpoint agree with what is already in its row. */
  ghost predicate Known(r: Row, found: seq<Found>, p: Outpoint) {
    forall i :: 0 <= i < |found| && found[i].at == p ==> Adds(r, found[i])
  }

  /** Nothing that would stick is news. */
  ghost predicate Adds(r: Row, f: Found) {
    && (r.title.None? ==> f.title.None?) && (r.labelIndex.None? ==> f.labelIndex.None?)
    && (!IsSpent(r.state) ==> !IsSpent(f.state))
  }

  lemma {:induction false} AfterwardsKnown(o: Option<Row>, found: seq<Found>, p: Outpoint)
    ensures RowAfter(o, found, p).Some? ==> Known(RowAfter(o, found, p).value, found, p)
  {
    if found != [] {
      var n := |found| - 1;
      AfterwardsKnown(o, found[..n], p);
      var before, after := RowAfter(o, found[..n], p), RowAfter(o, found, p);
      if after.Some? {
        forall i | 0 <= i < |found| && found[i].at == p ensures Adds(after.value, found[i]) {
          if i < n {
            assert found[..n][i] == found[i];
            AppearsBefore(o, found[..n], p, i);
            assert Adds(before.value, found[i]);
          }
        }
      }
    }
  }

  lemma {:induction false} AppearsBefore(o: Option<Row>, found: seq<Found>, p: Outpoint, i: nat)
    requires i < |found| && found[i].at == p
    ensures RowAfter(o, found, p).Some?
  {
    var n := |found| - 1;
    if i < n {
      AppearsBefore(o, found[..n], p, i);
    }
  }

  /** Entries that are no news leave the row as the last of them says, and all else as it was. */
  lemma {:induction false} KnownAgain(r: Row, found: seq<Found>, p: Outpoint)
    requires Known(r, found, p)
    ensures var after := RowAfter(Some(r), found, p);
      && after.Some?
      && after.value == r.(amount := after.value.amount, tweak := after.value.tweak, pubKey := after.value.pubKey,
                           state := after.value.state)
      && (IsSpent(r.state) <==> IsSpent(after.value.state)) && (IsSpent(r.state) ==> after.value.state == r.state)
  {
    if found != [] {
      var n := |found| - 1;
      forall i | 0 <= i < n && found[..n][i].at == p ensures Adds(r, found[..n][i]) {
        assert found[..n][i] == found[i];
      }
      KnownAgain(r, found[..n], p);
      if found[n].at == p {
        assert Adds(r, found[n]);
      }
    }
  }

  /** The last entry decides, whatever the row was before. */
  lemma {:induction false} LastDecides(o: Option<Row>, o': Option<Row>, found: seq<Found>, p: Outpoint, i: nat)
    requires i < |found| && found[i].at == p && RowAfter(o, found, p).Some? && RowAfter(o', found, p).Some?
    ensures var r, r' := RowAfter(o, found, p).value, RowAfter(o', found, p).value;
      && r'.amount == r.amount && r'.tweak == r.tweak && r'.pubKey == r.pubKey
      && (!IsSpent(r.state) && !IsSpent(r'.state) ==> r'.state == r.state)
  {
    var n := |found| - 1;
    if found[n].at != p {
      LastDecides(o, o', found[..n], p, i);
    }
  }

  lemma {:induction false} Absent(o: Option<Row>, found: seq<Found>, p: Outpoint)
    requires forall i :: 0 <= i < |found| ==> found[i].at != p
    ensures RowAfter(o, found, p) == o
  {
    if found != [] {
      Absent(o, found[..|found| - 1], p);
    }
  }

  /** For one row: a second run of the same list leaves what the first one left. */
  lemma RowTwice(o: Option<Row>, found: seq<Found>, p: Outpoint)
    ensures RowAfter(RowAfter(o, found, p), found, p) == RowAfter(o, found, p)
  {
    var once := RowAfter(o, found, p);
    if i :| 0 <= i < |found| && found[i].at == p {
      AppearsBefore(o, found, p, i);
      AppearsBefore(once, found, p, i);
      AfterwardsKnown(o, found, p);
      KnownAgain(once.value, found, p);
      LastDecides(o, once, found, p, i);
    } else {
      Absent(o, found, p);
    }
  }

  /** Rescanning the same coins, repeats and all, finds nothing new and changes nothing. */
  lemma RescanTwice(rows: map<Outpoint, Row>, found: seq<Found>)
    ensures UpsertAll(UpsertAll(rows, found), found) == UpsertAll(rows, found)
    ensures NewKeys(UpsertAll(rows, found), found) == {} && NewAmount(UpsertAll(rows, found), found) == 0
  {
    var once := UpsertAll(rows, found);
    var twice := UpsertAll(once, found);
    UpsertAllKeys(rows, found);
    forall i | 0 <= i < |found| ensures found[i].at in once {
      assert found[i].at in rows || found[i].at in NewKeys(rows, found);
    }
    assert NewKeys(once, found) == {};
    UpsertAllKeys(once, found);
    forall p | p in once ensures twice[p] == once[p] {
      UpsertAllAt(rows, found, p);
      UpsertAllAt(once, found, p);
      RowTwice(RowAt(rows, p), found, p);
    }
    NothingNew(once, found);
  }

  lemma {:induction false} NothingNew(rows: map<Outpoint, Row>, found: seq<Found>)
    requires forall i :: 0 <= i < |found| ==> found[i].at in rows
    ensures NewAmount(rows, found) == 0
  {
    if found != [] {
      var n := |found| - 1;
      NothingNew(rows, found[..n]);
      UpsertAllKeys(rows, found[..n]);
    }
  }

  // ----- freezing -----

  function SetAuto(r: Row): Row {
    if r.reason.None? || r.reason == Some(Auto) then r.(frozen := true, reason := Some(Auto)) else r
  }

  function SetManual(r: Row): Row {
    r.(frozen := true, reason := Some(Manual))
  }

  function ClearManual(r: Row): Row {
    r.(frozen := false, reason := Some(ManualUnfrozen))
  }

  function ClearAuto(r: Row): Row {
    if r.reason == Some(Auto) then r.(frozen := false, reason := None) else r
  }

  function Normalize(r: Row): Row {
    if r.reason == Some(ManualUnfrozen) then r.(reason := None) else r
  }

  /** What `evaluate_dust_for_wallet` makes of one unspent coin once it has classified it. */
  function Evaluate(r: Row, dust: bool): Row {
    if dust then
      var marked := r.(dust := true);
      if r.reason == Some(Manual) || r.reason == Some(ManualUnfrozen) then marked else SetAuto(marked)
    else Normalize(ClearAuto(r.(dust := false)))
  }

  /** Only unspent coins are evaluated. */
  function Judge(r: Row, dust: bool): Row {
    match r.state
    case Unspent => Evaluate(r, dust)
    case _ => r
  }

  predicate TurnsToDust(r: Row, dust: bool) {
    r.state.Unspent? && dust && !r.dust
  }

  function EvaluateAll(r: Row, verdicts: seq<bool>): Row {
    if verdicts == [] then r else Evaluate(EvaluateAll(r, verdicts[..|verdicts| - 1]), verdicts[|verdicts| - 1])
  }

  /** A coin is frozen exactly when somebody's freeze is on it. */
  predicate FreezeOk(r: Row) {
    r.frozen <==> r.reason == Some(Auto) || r.reason == Some(Manual)
  }

  lemma FreezeKept(r: Row, f: Found, dust: bool)
    requires FreezeOk(r)
    ensures FreezeOk(SetManual(r)) && FreezeOk(ClearManual(r)) && FreezeOk(Evaluate(r, dust)) && FreezeOk(Merge(r, f))
    ensures FreezeOk(Fresh(f))
  {
  }

  ghost predicate AllOk(rows: map<Outpoint, Row>) {
    forall p :: p in rows ==> FreezeOk(rows[p])
  }

  lemma {:induction false} UpsertAllOk(rows: map<Outpoint, Row>, found: seq<Found>)
    requires AllOk(rows)
    ensures AllOk(UpsertAll(rows, found))
  {
    if found != [] {
      var n := |found| - 1;
      UpsertAllOk(rows, found[..n]);
      var now := UpsertAll(rows, found[..n]);
      FreezeKept(if found[n].at in now then now[found[n].at] else Fresh(found[n]), found[n], false);
    }
  }

  /** A whole evaluation. */
  function JudgeAll(rows: map<Outpoint, Row>, verdict: Outpoint -> bool): map<Outpoint, Row> {
    map p | p in rows :: Judge(rows[p], verdict(p))
  }

  lemma JudgeAllOk(rows: map<Outpoint, Row>, verdict: Outpoint -> bool)
    requires AllOk(rows)
    ensures AllOk(JudgeAll(rows, verdict))
  {
    forall p | p in rows ensures FreezeOk(Judge(rows[p], verdict(p))) {
      FreezeKept(rows[p], Found(p, 0, "", "", Unspent, 0, None, None), verdict(p));
    }
  }

  lemma JudgedTwice(r: Row, dust: bool)
    requires FreezeOk(r)
    ensures Judge(Judge(r, dust), dust) == Judge(r, dust) && !TurnsToDust(Judge(r, dust), dust)
  {
  }

  /** The evaluation of a table settles in one run: repeating it with the same verdicts changes nothing and
      finds no new dust. */
  lemma EvaluateTwice(rows: map<Outpoint, Row>, verdict: Outpoint -> bool)
    requires AllOk(rows)
    ensures JudgeAll(JudgeAll(rows, verdict), verdict) == JudgeAll(rows, verdict)
    ensures forall p :: p in rows ==> !TurnsToDust(JudgeAll(rows, verdict)[p], verdict(p))
  {
    forall p | p in rows
      ensures Judge(Judge(rows[p], verdict(p)), verdict(p)) == Judge(rows[p], verdict(p))
      ensures !TurnsToDust(Judge(rows[p], verdict(p)), verdict(p))
    {
      JudgedTwice(rows[p], verdict(p));
    }
  }

  // ----- what becomes of one coin -----

  /** Whatever happens to a coin: it is evaluated, found again, spent or given back, or its user freezes or
      unfreezes it. */
  datatype CoinEvent =
    | Evaluated(dust: bool)
    | FoundAgain(f: Found)
    | Spends(state: State, spentIn: Option<string>)
    | UserFreezes
    | UserUnfreezes

  function CoinStep(r: Row, e: CoinEvent): Row {
    match e
    case Evaluated(dust) => Judge(r, dust)
    case FoundAgain(f) => Merge(r, f)
    case Spends(state, spentIn) => r.(state := state, spentIn := spentIn)
    case UserFreezes => SetManual(r)
    case UserUnfreezes => ClearManual(r)
  }

  function CoinAfter(r: Row, events: seq<CoinEvent>): Row {
    if events == [] then r else CoinStep(CoinAfter(r, events[..|events| - 1]), events[|events| - 1])
  }

  predicate OfUser(e: CoinEvent) {
    e.UserFreezes? || e.UserUnfreezes?
  }

  /** The verdicts that reached the coin: those given while it was unspent. */
  function Verdicts(r: Row, events: seq<CoinEvent>): seq<bool> {
    if events == [] then []
    else
      var n := |events| - 1;
      Verdicts(r, events[..n]) +
      (if events[n].Evaluated? && CoinAfter(r, events[..n]).state.Unspent? then [events[n].dust] else [])
  }

  /** However evaluations, rescans and spends interleave, only the verdicts that reached the coin decide
      whether it is frozen. */
  lemma {:induction false} OnlyVerdictsCount(r: Row, events: seq<CoinEvent>)
    requires forall i :: 0 <= i < |events| ==> !OfUser(events[i])
    ensures var now, judged := CoinAfter(r, events), EvaluateAll(r, Verdicts(r, events));
      now.frozen == judged.frozen && now.reason == judged.reason
  {
    if events != [] {
      var n := |events| - 1;
      OnlyVerdictsCount(r, events[..n]);
      var now, v := CoinAfter(r, events[..n]), Verdicts(r, events[..n]);
      if events[n].Evaluated? && now.state.Unspent? {
        EvaluatePush(r, v, events[n].dust);
        EvaluateAlike(now, EvaluateAll(r, v), events[n].dust);
      } else {
        OtherStep(now, events[n]);
        assert Verdicts(r, events) == v;
      }
    }
  }

  lemma EvaluatePush(r: Row, v: seq<bool>, dust: bool)
    ensures EvaluateAll(r, v + [dust]) == Evaluate(EvaluateAll(r, v), dust)
  {
    assert (v + [dust])[..|v|] == v;
  }

  lemma EvaluateAlike(r: Row, s: Row, dust: bool)
    requires r.frozen == s.frozen && r.reason == s.reason
    ensures Evaluate(r, dust).frozen == Evaluate(s, dust).frozen && Evaluate(r, dust).reason == Evaluate(s, dust).reason
  {
  }

  lemma OtherStep(r: Row, e: CoinEvent)
    requires !OfUser(e) && !(e.Evaluated? && r.state.Unspent?)
    ensures CoinStep(r, e).frozen == r.frozen && CoinStep(r, e).reason == r.reason
  {
  }

  lemma {:induction false} EvaluatedFrozen(r: Row, verdicts: seq<bool>)
    ensures EvaluateAll(SetManual(r), verdicts).frozen && EvaluateAll(SetManual(r), verdicts).reason == Some(Manual)
  {
    if verdicts != [] {
      EvaluatedFrozen(r, verdicts[..|verdicts| - 1]);
    }
  }

  lemma {:induction false} EvaluatedUnfrozen(r: Row, verdicts: seq<bool>)
    ensures var now := EvaluateAll(ClearManual(r), verdicts);
      && (now.frozen <==> verdicts != [] && verdicts[|verdicts| - 1] && false in verdicts)
      && now.reason == (if false !in verdicts then Some(ManualUnfrozen) else if verdicts[|verdicts| - 1] then Some(Auto) else None)
  {
    if verdicts != [] {
      var n := |verdicts| - 1;
      EvaluatedUnfrozen(r, verdicts[..n]);
      assert verdicts == verdicts[..n] + [verdicts[n]];
    }
  }

  /** After a user freezes a coin, nothing but the user lifts or overwrites the freeze. */
  lemma ManualFreezeStays(r: Row, events: seq<CoinEvent>)
    requires forall i :: 0 <= i < |events| ==> !OfUser(events[i])
    ensures var now := CoinAfter(SetManual(r), events); now.frozen && now.reason == Some(Manual)
  {
    OnlyVerdictsCount(SetManual(r), events);
    EvaluatedFrozen(r, Verdicts(SetManual(r), events));
  }

  /** After a user unfreezes a coin, and until the user touches it again: it is frozen again exactly when
      some verdict that reached it has since found it not to be dust and the last one finds that it is. */
  lemma UnfreezeSticks(r: Row, events: seq<CoinEvent>)
    requires forall i :: 0 <= i < |events| ==> !OfUser(events[i])
    ensures var v := Verdicts(ClearManual(r), events);
      CoinAfter(ClearManual(r), events).frozen <==> v != [] && v[|v| - 1] && false in v
  {
    OnlyVerdictsCount(ClearManual(r), events);
    EvaluatedUnfrozen(r, Verdicts(ClearManual(r), events));
  }

  // ----- labeled addresses -----

  const FIRST_LABEL: nat := 2
  const MAX_ADDRESSES: nat := 2
  const SCANNED: set<int> := {2, 3}

  ghost predicate IsLeastFree(used: set<int>, idx: int) {
    idx >= 2 && idx !in used && forall j :: 2 <= j < idx ==> j in used
  }

  function Range(lo: int, hi: int): set<int>
    decreases hi - lo
  {
    if lo >= hi then {} else Range(lo, hi - 1) + {hi - 1}
  }

  lemma {:induction false} RangeCount(lo: int, hi: int)
    requires lo <= hi
    ensures |Range(lo, hi)| == hi - lo
    ensures forall x :: x in Range(lo, hi) <==> lo <= x < hi
    decreases hi - lo
  {
    if lo < hi {
      RangeCount(lo, hi - 1);
    }
  }

  lemma SubsetCount(a: set<int>, b: set<int>)
    requires a <= b
    ensures |a| <= |b|
  {
    assert b == a + (b - a);
  }

  /** With n indices in use, the least free one is at most n above the first. */
  lemma Pigeonhole(used: set<int>, idx: int)
    requires IsLeastFree(used, idx)
    ensures idx <= 2 + |used|
  {
    RangeCount(FIRST_LABEL, idx);
    forall j | j in Range(FIRST_LABEL, idx) ensures j in used {
      assert FIRST_LABEL <= j < idx;
    }
    SubsetCount(Range(FIRST_LABEL, idx), used);
  }

  function Used(labels: seq<Option<int>>): set<int> {
    set i | 0 <= i < |labels| && labels[i].Some? :: labels[i].value
  }

  lemma {:induction false} UsedCount(labels: seq<Option<int>>)
    ensures |Used(labels)| <= |labels|
  {
    if labels == [] {
      assert Used(labels) == {};
    } else {
      var n := |labels| - 1;
      UsedCount(labels[..n]);
      assert labels[..n] + [labels[n]] == labels;
      var last := if labels[n].Some? then {labels[n].value} else {};
      forall x | x in Used(labels) ensures x in Used(labels[..n]) + last {
        var i :| 0 <= i < |labels| && labels[i] == Some(x);
        if i < n {
          assert labels[..n][i] == Some(x);
        }
      }
      SubsetCount(Used(labels), Used(labels[..n]) + last);
    }
  }

  /** `get_next_label_index` */
  method NextLabelIndex(labels: seq<Option<int>>) returns (idx: int)
    ensures IsLeastFree(Used(labels), idx)
    ensures idx <= 2 + |labels|
  {
    var used: set<int> := {};
    for i := 0 to |labels|
      invariant used == Used(labels[..i])
    {
      UsedPush(labels, i);
      if labels[i].Some? {
        used := used + {labels[i].value};
      }
    }
    assert labels[..|labels|] == labels;
    idx := FIRST_LABEL;
    UsedCount(labels);
    while idx in used
      invariant idx >= FIRST_LABEL && forall j :: FIRST_LABEL <= j < idx ==> j in used
      decreases FIRST_LABEL + |used| - idx
    {
      RangeCount(FIRST_LABEL, idx + 1);
      SubsetCount(Range(FIRST_LABEL, idx + 1), used);
      idx := idx + 1;
    }
    Pigeonhole(used, idx);
  }

  lemma UsedPush(labels: seq<Option<int>>, i: nat)
    requires i < |labels|
    ensures Used(labels[..i + 1]) == Used(labels[..i]) + (if labels[i].Some? then {labels[i].value} else {})
  {
    var s, t := labels[..i], labels[..i + 1];
    forall x | x in Used(t) ensures x in Used(s) || labels[i] == Some(x) {
      var j :| 0 <= j < |t| && t[j] == Some(x);
      if j < i {
        assert s[j] == Some(x);
      }
    }
    forall x | x in Used(s) ensures x in Used(t) {
      var j :| 0 <= j < |s| && s[j] == Some(x);
      assert t[j] == Some(x);
    }
    assert t[i] == labels[i];
  }

  datatype SaveError = TooMany | Duplicate | BadIndex

  datatype Address = Address(text: string, index: Option<int>)

  function Labels(saved: seq<Address>): (r: seq<Option<int>>)
    ensures |r| == |saved|
  {
    seq(|saved|, i requires 0 <= i < |saved| => saved[i].index)
  }

  /** `api_save_generated_wallet_address`: whatever index was asked for, the one saved is free and is one the
      scanner always looks at. */
  method SaveAddress(saved: seq<Address>, text: string, asked: Option<int>) returns (r: Result<seq<Address>, SaveError>)
    ensures r.Err? <==> |saved| >= 2 || (exists i :: 0 <= i < |saved| && saved[i].text == text)
                        || (asked.Some? && asked.value !in {2, 3})
    ensures r.Ok? ==> |r.value| == |saved| + 1 <= 2 && r.value[..|saved|] == saved && r.value[|saved|].text == text
    ensures r.Ok? ==> r.value[|saved|].index.Some? && r.value[|saved|].index.value in {2, 3}
    ensures r.Ok? ==> r.value[|saved|].index.value !in Used(Labels(saved))
    ensures r.Ok? && asked.Some? && asked.value !in Used(Labels(saved)) ==> r.value[|saved|].index == asked
    ensures r.Ok? && (asked.None? || asked.value in Used(Labels(saved))) ==> IsLeastFree(Used(Labels(saved)), r.value[|saved|].index.value)
  {
    if |saved| >= MAX_ADDRESSES {
      return Err(TooMany);
    }
    for i := 0 to |saved|
      invariant forall j :: 0 <= j < i ==> saved[j].text != text
    {
      if saved[i].text == text {
        return Err(Duplicate);
      }
    }
    if asked.Some? && asked.value !in SCANNED {
      return Err(BadIndex);
    }
    var index: int;
    if asked.None? || asked.value in Used(Labels(saved)) {
      index := NextLabelIndex(Labels(saved));
    } else {
      index := asked.value;
    }
    r := Ok(saved + [Address(text, Some(index))]);
  }

  /** Everything outside `left` is judged, and `left` is as it was. */
  ghost predicate HalfJudged(was: map<Outpoint, Row>, now: map<Outpoint, Row>, left: set<Outpoint>, verdict: Outpoint -> bool) {
    && left <= was.Keys && now.Keys == was.Keys
    && forall p :: p in was ==> now[p] == if p in left then was[p] else Judge(was[p], verdict(p))
  }

  function Turned(was: map<Outpoint, Row>, left: set<Outpoint>, verdict: Outpoint -> bool): set<Outpoint> {
    set p | p in was && p !in left && TurnsToDust(was[p], verdict(p))
  }

  lemma JudgeStep(was: map<Outpoint, Row>, now: map<Outpoint, Row>, left: set<Outpoint>, verdict: Outpoint -> bool, p: Outpoint)
    requires HalfJudged(was, now, left, verdict) && p in left
    ensures now[p] == was[p]
    ensures HalfJudged(was, now[p := Judge(was[p], verdict(p))], left - {p}, verdict)
    ensures |Turned(was, left - {p}, verdict)| == |Turned(was, left, verdict)| + (if TurnsToDust(was[p], verdict(p)) then 1 else 0)
  {
    var before, after := Turned(was, left, verdict), Turned(was, left - {p}, verdict);
    assert after == if TurnsToDust(was[p], verdict(p)) then before + {p} else before;
  }

  lemma AllJudged(was: map<Outpoint, Row>, now: map<Outpoint, Row>, verdict: Outpoint -> bool)
    requires HalfJudged(was, now, {}, verdict)
    ensures now == JudgeAll(was, verdict)
    ensures Turned(was, {}, verdict) == set p | p in was && TurnsToDust(was[p], verdict(p))
  {
  }

  // ----- the table -----

  class CoinTable {
    var rows: map<Outpoint, Row>

    /** Every coin that is frozen has somebody's freeze on it, and no other has. */
    ghost predicate Valid()
      reads this
    {
      AllOk(rows)
    }

    constructor ()
      ensures Valid() && rows == map[]
    {
      rows := map[];
    }

    /** `insert_utxos_for_wallet`: how many rows are new, what they are worth, and which they are. */
    method InsertUtxos(found: seq<Found>) returns (count: nat, amount: int, newKeys: set<Outpoint>)
      requires Valid()
      modifies this
      ensures Valid()
      ensures rows == UpsertAll(old(rows), found)
      ensures newKeys == NewKeys(old(rows), found) && count == |newKeys| && amount == NewAmount(old(rows), found)
    {
      count, amount, newKeys := 0, 0, {};
      ghost var was := rows;
      for i := 0 to |found|
        invariant rows == UpsertAll(was, found[..i])
        invariant newKeys == NewKeys(was, found[..i]) && count == |newKeys| && amount == NewAmount(was, found[..i])
      {
        OneMore(was, found, i);
        if found[i].at !in rows {
          count := count + 1;
          newKeys := newKeys + {found[i].at};
          amount := amount + found[i].amount;
        }
        rows := Upsert(rows, found[i]);
      }
      assert found[..|found|] == found;
      UpsertAllOk(was, found);
    }

    method Freeze(p: Outpoint, on: bool)
      requires Valid()
      modifies this
      ensures Valid()
      ensures rows == if p in old(rows) then old(rows)[p := if on then SetManual(old(rows)[p]) else ClearManual(old(rows)[p])] else old(rows)
    {
      if p in rows {
        rows := rows[p := if on then SetManual(rows[p]) else ClearManual(rows[p])];
      }
    }

    /** `evaluate_dust_for_wallet`: every unspent coin is reconciled with its verdict; the count is of coins
        that turned into dust. */
    method EvaluateDust(verdict: Outpoint -> bool) returns (flagged: nat)
      requires Valid()
      modifies this
      ensures Valid()
      ensures rows == JudgeAll(old(rows), verdict)
      ensures flagged == |set p | p in old(rows) && TurnsToDust(old(rows)[p], verdict(p))|
    {
      flagged := 0;
      ghost var was := rows;
      var left := rows.Keys;
      assert Turned(was, left, verdict) == {};
      while left != {}
        invariant HalfJudged(was, rows, left, verdict)
        invariant flagged == |Turned(was, left, verdict)|
        decreases |left|
      {
        var p :| p in left;
        JudgeStep(was, rows, left, verdict, p);
        if TurnsToDust(rows[p], verdict(p)) {
          flagged := flagged + 1;
        }
        Reconcile(p, verdict(p));
        left := left - {p};
      }
      AllJudged(was, rows, verdict);
      JudgeAllOk(was, verdict);
    }

    /** The writes for one coin. */
    method Reconcile(p: Outpoint, dust: bool)
      requires p in rows
      modifies this
      ensures rows == old(rows)[p := Judge(old(rows)[p], dust)]
    {
      if !rows[p].state.Unspent? {
        return;
      }
      var r := rows[p].(dust := dust);
      if dust {
        if r.reason != Some(Manual) && r.reason != Some(ManualUnfrozen) {
          r := SetAuto(r);
        }
      } else {
        r := Normalize(ClearAuto(r));
      }
      rows := rows[p := r];
    }
  }
}
