/** What the coin table holds after a scan, told from the list that was scanned: which entry each column of a row
    comes from; and what an evaluation makes of each row. */
module CoinRules {
  import opened Results
  import opened Coins

  /** Entry i of the list is about p. */
  ghost predicate IsAt(found: seq<Found>, p: Outpoint, i: nat) {
    i < |found| && found[i].at == p
  }

  ghost predicate IsLastAt(found: seq<Found>, p: Outpoint, i: nat) {
    IsAt(found, p, i) && forall j: nat :: i < j < |found| ==> found[j].at != p
  }

  /** Entry i is the first about p of which this holds. */
  ghost predicate IsFirstWith(found: seq<Found>, p: Outpoint, holds: Found -> bool, i: nat) {
    IsAt(found, p, i) && holds(found[i]) && forall j: nat :: j < i && IsAt(found, p, j) ==> !holds(found[j])
  }

  ghost predicate NoneWith(found: seq<Found>, p: Outpoint, holds: Found -> bool) {
    forall j: nat :: IsAt(found, p, j) ==> !holds(found[j])
  }

  // ----- one more entry -----

  lemma Shorter(found: seq<Found>, p: Outpoint, n: nat, i: nat)
    requires |found| == n + 1
    ensures IsAt(found[..n], p, i) <==> i < n && IsAt(found, p, i)
    ensures i < n ==> found[..n][i] == found[i]
  {
  }

  lemma FirstKept(found: seq<Found>, p: Outpoint, n: nat, holds: Found -> bool, i: nat)
    requires |found| == n + 1 && i < n
    ensures IsFirstWith(found, p, holds, i) <==> IsFirstWith(found[..n], p, holds, i)
  {
    forall j: nat ensures IsAt(found[..n], p, j) <==> j < n && IsAt(found, p, j) {
      Shorter(found, p, n, j);
    }
  }

  /** The last entry is the first to have it exactly if it has it and none before does. */
  lemma FirstAtEnd(found: seq<Found>, p: Outpoint, n: nat, holds: Found -> bool)
    requires |found| == n + 1
    ensures IsFirstWith(found, p, holds, n) <==> found[n].at == p && NoneWith(found[..n], p, holds) && holds(found[n])
    ensures NoneWith(found, p, holds) <==> NoneWith(found[..n], p, holds) && (found[n].at == p ==> !holds(found[n]))
  {
    forall j: nat ensures IsAt(found[..n], p, j) <==> j < n && IsAt(found, p, j) {
      Shorter(found, p, n, j);
    }
    forall j: nat | IsAt(found, p, j) ensures j == n || IsAt(found[..n], p, j) {
    }
  }

  /** Some entry has it first, unless none has it. */
  lemma {:induction false} SomeFirst(found: seq<Found>, p: Outpoint, holds: Found -> bool)
    ensures NoneWith(found, p, holds) || exists i: nat :: IsFirstWith(found, p, holds, i)
  {
    if found != [] {
      var n := |found| - 1;
      SomeFirst(found[..n], p, holds);
      FirstAtEnd(found, p, n, holds);
      if i: nat :| IsFirstWith(found[..n], p, holds, i) {
        FirstKept(found, p, n, holds, i);
      }
    }
  }

  // ----- a column that is never replaced -----

  /** What was there stays; else the first entry that has something gives it; else there is nothing. */
  ghost predicate FirstWins<T(!new)>(was: Option<T>, now: Option<T>, found: seq<Found>, p: Outpoint, get: Found -> Option<T>) {
    match was
    case Some(_) => now == was
    case None =>
      && (forall i: nat :: IsFirstWith(found, p, (f: Found) => get(f).Some?, i) ==> now == get(found[i]))
      && (NoneWith(found, p, (f: Found) => get(f).Some?) ==> now == None)
  }

  lemma FirstWinsStep<T(!new)>(was: Option<T>, before: Option<T>, found: seq<Found>, p: Outpoint, get: Found -> Option<T>, n: nat)
    requires |found| == n + 1 && FirstWins(was, before, found[..n], p, get)
    ensures FirstWins(was, if found[n].at == p then Coalesce(before, get(found[n])) else before, found, p, get)
  {
    var has := (f: Found) => get(f).Some?;
    var now := if found[n].at == p then Coalesce(before, get(found[n])) else before;
    FirstAtEnd(found, p, n, has);
    if was.None? {
      forall i: nat | IsFirstWith(found, p, has, i) ensures now == get(found[i]) {
        if i < n {
          FirstKept(found, p, n, has, i);
        }
      }
    }
  }

  function TitleOf(o: Option<Row>): Option<string> {
    if o.Some? then o.value.title else None
  }

  function LabelOf(o: Option<Row>): Option<nat> {
    if o.Some? then o.value.labelIndex else None
  }

  lemma {:induction false} TitleStays(o: Option<Row>, found: seq<Found>, p: Outpoint)
    ensures FirstWins(TitleOf(o), TitleOf(RowAfter(o, found, p)), found, p, (f: Found) => f.title)
  {
    if found != [] {
      var n := |found| - 1;
      TitleStays(o, found[..n], p);
      FirstWinsStep(TitleOf(o), TitleOf(RowAfter(o, found[..n], p)), found, p, (f: Found) => f.title, n);
    }
  }

  lemma {:induction false} LabelStays(o: Option<Row>, found: seq<Found>, p: Outpoint)
    ensures FirstWins(LabelOf(o), LabelOf(RowAfter(o, found, p)), found, p, (f: Found) => f.labelIndex)
  {
    if found != [] {
      var n := |found| - 1;
      LabelStays(o, found[..n], p);
      FirstWinsStep(LabelOf(o), LabelOf(RowAfter(o, found[..n], p)), found, p, (f: Found) => f.labelIndex, n);
    }
  }

  // ----- the state -----

  predicate Gone(s: State) {
    s == Spent || s == UnconfirmedSpent
  }

  const ANY: Found -> bool := (f: Found) => true

  const GONE: Found -> bool := (f: Found) => Gone(f.state)

  /** A spend on record stays; else the first spend in the list stays; else the last entry decides, and without
      any the row stays as it was. */
  ghost predicate SpendWins(o: Option<Row>, now: Option<Row>, found: seq<Found>, p: Outpoint) {
    match now
    case None => o.None? && forall i: nat :: !IsAt(found, p, i)
    case Some(r) =>
      if o.Some? && Gone(o.value.state) then r.state == o.value.state
      else
        && (forall i: nat :: IsFirstWith(found, p, GONE, i) ==> r.state == found[i].state)
        && (NoneWith(found, p, GONE) ==>
              && !Gone(r.state)
              && (forall i: nat :: IsLastAt(found, p, i) ==> r.state == found[i].state)
              && ((forall i: nat :: !IsAt(found, p, i)) ==> o.Some? && r.state == o.value.state))
  }

  lemma {:induction false} StateAfter(o: Option<Row>, found: seq<Found>, p: Outpoint)
    ensures SpendWins(o, RowAfter(o, found, p), found, p)
  {
    if found != [] {
      var n := |found| - 1;
      StateAfter(o, found[..n], p);
      SpendWinsStep(o, found, p, n);
    }
  }

  lemma SpendWinsStep(o: Option<Row>, found: seq<Found>, p: Outpoint, n: nat)
    requires |found| == n + 1 && SpendWins(o, RowAfter(o, found[..n], p), found[..n], p)
    ensures SpendWins(o, RowAfter(o, found, p), found, p)
  {
    GoneStep(found, p, n);
    if found[n].at == p {
      SpendWinsHere(o, RowAfter(o, found[..n], p), found, p, n);
    } else {
      SpendWinsElsewhere(o, RowAfter(o, found[..n], p), found, p, n);
    }
  }

  /** How the first spend and the lack of one go on to a longer list. */
  ghost predicate GoneGoesOn(found: seq<Found>, p: Outpoint, n: nat)
    requires |found| == n + 1
  {
    && (NoneWith(found[..n], p, GONE) || exists i: nat :: IsFirstWith(found[..n], p, GONE, i))
    && (NoneWith(found, p, GONE) <==> NoneWith(found[..n], p, GONE) && (found[n].at == p ==> !Gone(found[n].state)))
    && (IsFirstWith(found, p, GONE, n) <==> found[n].at == p && NoneWith(found[..n], p, GONE) && Gone(found[n].state))
    && (forall i: nat :: i < n ==> (IsFirstWith(found, p, GONE, i) <==> IsFirstWith(found[..n], p, GONE, i)))
    && (forall i: nat :: IsAt(found[..n], p, i) <==> i < n && IsAt(found, p, i))
  }

  lemma GoneStep(found: seq<Found>, p: Outpoint, n: nat)
    requires |found| == n + 1
    ensures GoneGoesOn(found, p, n)
  {
    FirstAtEnd(found, p, n, GONE);
    SomeFirst(found[..n], p, GONE);
    forall i: nat | i < n ensures IsFirstWith(found, p, GONE, i) <==> IsFirstWith(found[..n], p, GONE, i) {
      FirstKept(found, p, n, GONE, i);
    }
    forall i: nat ensures IsAt(found[..n], p, i) <==> i < n && IsAt(found, p, i) {
      Shorter(found, p, n, i);
    }
  }

  lemma SpendWinsHere(o: Option<Row>, before: Option<Row>, found: seq<Found>, p: Outpoint, n: nat)
    requires |found| == n + 1 && found[n].at == p && SpendWins(o, before, found[..n], p) && GoneGoesOn(found, p, n)
    ensures SpendWins(o, Some(if before.Some? then Merge(before.value, found[n]) else Fresh(found[n])), found, p)
  {
    assert IsAt(found, p, n);
  }

  lemma SpendWinsElsewhere(o: Option<Row>, before: Option<Row>, found: seq<Found>, p: Outpoint, n: nat)
    requires |found| == n + 1 && found[n].at != p && SpendWins(o, before, found[..n], p) && GoneGoesOn(found, p, n)
    ensures SpendWins(o, before, found, p)
  {
    forall i: nat ensures IsAt(found, p, i) <==> IsAt(found[..n], p, i) {
    }
    forall i: nat ensures IsLastAt(found, p, i) ==> IsLastAt(found[..n], p, i) {
    }
  }

  // ----- the rest of the row -----

  /** The worth and the keys are those of the last entry. */
  lemma {:induction false} LastEntry(o: Option<Row>, found: seq<Found>, p: Outpoint, i: nat)
    requires IsLastAt(found, p, i)
    ensures var r := RowAfter(o, found, p);
      r.Some? && r.value.amount == found[i].amount && r.value.tweak == found[i].tweak && r.value.pubKey == found[i].pubKey
  {
    var n := |found| - 1;
    if i < n {
      assert found[n].at != p && found[..n][i] == found[i];
      LastEntry(o, found[..n], p, i);
    }
  }

  /** What a scan never touches. */
  ghost predicate SameUserPart(r: Row, s: Row) {
    r.frozen == s.frozen && r.reason == s.reason && r.dust == s.dust && r.spentIn == s.spentIn && r.timestamp == s.timestamp
  }

  lemma {:induction false} UserPartStays(r: Row, found: seq<Found>, p: Outpoint)
    ensures RowAfter(Some(r), found, p).Some? && SameUserPart(RowAfter(Some(r), found, p).value, r)
  {
    if found != [] {
      UserPartStays(r, found[..|found| - 1], p);
    }
  }

  lemma {:induction false} NewUserPart(found: seq<Found>, p: Outpoint, i: nat)
    requires IsFirstWith(found, p, ANY, i)
    ensures var r := RowAfter(None, found, p);
      r.Some? && !r.value.frozen && r.value.reason == None && !r.value.dust && r.value.spentIn == None
      && r.value.timestamp == found[i].timestamp
  {
    var n := |found| - 1;
    if i < n {
      FirstKept(found, p, n, ANY, i);
      NewUserPart(found[..n], p, i);
    } else {
      FirstAtEnd(found, p, n, ANY);
      Absent(None, found[..n], p) by {
        forall j | 0 <= j < n ensures found[..n][j].at != p {
          Shorter(found, p, n, j);
        }
      }
    }
  }

  /** A row after a scan, by the entries about it. */
  ghost predicate IsScanned(o: Option<Row>, now: Option<Row>, found: seq<Found>, p: Outpoint) {
    && SpendWins(o, now, found, p)
    && FirstWins(TitleOf(o), TitleOf(now), found, p, (f: Found) => f.title)
    && FirstWins(LabelOf(o), LabelOf(now), found, p, (f: Found) => f.labelIndex)
    && (forall i: nat :: IsLastAt(found, p, i) ==> now.Some? && HasFigures(now.value, found[i]))
    && (o.Some? ==> now.Some? && SameUserPart(now.value, o.value))
    && (o.None? ==> forall i: nat :: IsFirstWith(found, p, ANY, i) ==> now.Some? && IsUntouched(now.value, found[i]))
    && ((forall i: nat :: !IsAt(found, p, i)) ==> now == o)
  }

  ghost predicate HasFigures(r: Row, f: Found) {
    r.amount == f.amount && r.tweak == f.tweak && r.pubKey == f.pubKey
  }

  ghost predicate IsUntouched(r: Row, f: Found) {
    r.timestamp == f.timestamp && !r.frozen && r.reason == None && !r.dust && r.spentIn == None
  }

  /** A scan leaves every row as the entries about it say: worth and keys of the last, title and label of the
      first that has any and never in place of one, a spend for good, and nothing of what the user or the dust
      evaluation set; a row nothing is said about stays as it was. */
  lemma ScanExactly(rows: map<Outpoint, Row>, found: seq<Found>, p: Outpoint)
    ensures IsScanned(RowAt(rows, p), RowAt(UpsertAll(rows, found), p), found, p)
  {
    var o := RowAt(rows, p);
    UpsertAllAt(rows, found, p);
    StateAfter(o, found, p);
    TitleStays(o, found, p);
    LabelStays(o, found, p);
    forall i: nat | IsLastAt(found, p, i) ensures RowAfter(o, found, p).Some? && HasFigures(RowAfter(o, found, p).value, found[i]) {
      LastEntry(o, found, p, i);
    }
    if o.Some? {
      UserPartStays(o.value, found, p);
    } else {
      forall i: nat | IsFirstWith(found, p, ANY, i)
        ensures RowAfter(o, found, p).Some? && IsUntouched(RowAfter(o, found, p).value, found[i])
      {
        NewUserPart(found, p, i);
      }
    }
    if forall i: nat :: !IsAt(found, p, i) {
      forall i | 0 <= i < |found| ensures found[i].at != p {
        assert !IsAt(found, p, i);
      }
      Absent(o, found, p);
    }
  }

  // ----- what is new -----

  /** Entry i is about an outpoint that neither the table nor any entry before it has. */
  ghost predicate FirstSighting(rows: map<Outpoint, Row>, found: seq<Found>, i: nat) {
    i < |found| && found[i].at !in rows && forall j: nat :: j < i ==> found[j].at != found[i].at
  }

  /** The amount that is new grows by each first sighting, and by nothing else. */
  lemma AmountOfSightings(rows: map<Outpoint, Row>, found: seq<Found>, n: nat)
    requires n < |found|
    ensures NewAmount(rows, []) == 0
    ensures NewAmount(rows, found[..n + 1])
         == NewAmount(rows, found[..n]) + if FirstSighting(rows, found, n) then found[n].amount else 0
  {
    OneMore(rows, found, n);
    UpsertAllKeys(rows, found[..n]);
    var now := UpsertAll(rows, found[..n]);
    if found[n].at in now {
      assert found[n].at in rows || found[n].at in NewKeys(rows, found[..n]);
    } else {
      forall j: nat | j < n ensures found[j].at != found[n].at {
        assert found[..n][j].at in rows || found[..n][j].at in NewKeys(rows, found[..n]);
      }
    }
  }

  // ----- evaluation -----

  /** What one evaluation makes of a coin: only an unspent one is looked at, and the verdict is put on it; a freeze
      or an unfreeze of the user's stands, except that an unfreeze is forgotten once the coin is no dust. */
  lemma JudgeExactly(r: Row, dust: bool)
    requires FreezeOk(r)
    ensures Judge(r, dust)
         == if r.state != Unspent then r
            else if dust && (r.reason == None || r.reason == Some(Auto)) then r.(dust := true, frozen := true, reason := Some(Auto))
            else if dust || r.reason == Some(Manual) then r.(dust := dust)
            else r.(dust := false, frozen := false, reason := None)
    ensures TurnsToDust(r, dust) <==> r.state == Unspent && !r.dust && Judge(r, dust).dust
  {
    match r.reason
    case None =>
    case Some(Auto) =>
    case Some(Manual) =>
    case Some(ManualUnfrozen) =>
  }

  /** And of a table: every row, and only the rows there are. */
  lemma EvaluationExactly(rows: map<Outpoint, Row>, verdict: Outpoint -> bool)
    ensures JudgeAll(rows, verdict).Keys == rows.Keys
    ensures forall p :: p in rows ==> JudgeAll(rows, verdict)[p] == Judge(rows[p], verdict(p))
  {
  }

  /** The user's own freeze and unfreeze: each overwrites whatever was there. */
  lemma UserDecides(r: Row)
    ensures SetManual(r) == r.(frozen := true, reason := Some(Manual))
    ensures ClearManual(r) == r.(frozen := false, reason := Some(ManualUnfrozen))
  {
  }
}
