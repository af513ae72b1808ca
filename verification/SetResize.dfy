/** Resizing the set rows of matches after their number of sets changed. The program walks over match
    ids and adds or deletes trailing rows; `Resized` says in one step what the tables are afterwards,
    for any group of matches, each with its own old count. */
module SetResize {
  import opened Schema
  import opened Progress
  import opened MatchSets

  /** Old set counts of the matches to resize. */
  type Counts = map<Id, int>

  /** LEAST(completed, keep), and no set in progress once the kept sets are all completed. */
  function Trim(p: Pointer, keep: int): Pointer {
    Pointer(Min(p.completed, keep), if p.completed >= keep then false else p.inProgress)
  }

  predicate Shrinks(counts: Counts, m: Id, n: int) {
    m in counts && n < counts[m]
  }

  /** The rows of one match: the added ones at 0-0, of the old ones those the new count keeps. */
  function ResizedRows(rows: Rows, was: int, n: int): Rows {
    if n > was then NewSets(was + 1, n) + rows
    else if n < was then KeptSets(rows, n)
    else rows
  }

  function KeptSets(rows: Rows, keep: int): Rows {
    map k | k in rows && k <= keep :: rows[k]
  }

  function ResizedSets(t: Tables, counts: Counts, n: int): (sets: map<Id, Rows>)
    ensures sets.Keys == t.matchSets.Keys + counts.Keys
    ensures forall m | m in sets ::
              sets[m] == if m in counts then ResizedRows(RowsOf(t, m), counts[m], n) else t.matchSets[m]
  {
    map m | m in t.matchSets.Keys + counts.Keys ::
      if m in counts then ResizedRows(RowsOf(t, m), counts[m], n) else t.matchSets[m]
  }

  function TrimmedMatches(matches: map<Id, Match>, counts: Counts, n: int): (trimmed: map<Id, Match>)
    ensures trimmed.Keys == matches.Keys
    ensures forall m | m in matches ::
              trimmed[m] == if Shrinks(counts, m, n) then matches[m].(progress := Trim(matches[m].progress, n))
                            else matches[m]
  {
    map m | m in matches ::
      if Shrinks(counts, m, n) then matches[m].(progress := Trim(matches[m].progress, n)) else matches[m]
  }

  /** Every match of `counts` resized from its old count to `n` sets. */
  function Resized(t: Tables, counts: Counts, n: int): Tables {
    t.(matchSets := ResizedSets(t, counts, n), matches := TrimmedMatches(t.matches, counts, n))
  }

  /** A negative set count drives the pointer of a shrunk match below zero, which the schema's CHECK
      refuses. */
  predicate BreaksAt(t: Tables, counts: Counts, n: int, m: Id) {
    Shrinks(counts, m, n) && m in t.matches && Trim(t.matches[m].progress, n).completed < 0
  }

  predicate BreaksCheck(t: Tables, counts: Counts, n: int) {
    exists m | m in counts :: BreaksAt(t, counts, n, m)
  }

  function TryResize(t: Tables, counts: Counts, n: int): Result<Tables> {
    if BreaksCheck(t, counts, n) then Err(CheckViolation) else Ok(Resized(t, counts, n))
  }

  function Uniform(ids: set<Id>, count: int): Counts {
    map m | m in ids :: count
  }

  // ---------------------------------------------------------------- the program

  /** How a step inside a transaction ended: after an error the tables are left to be rolled back. */
  ghost predicate Tried(result: Result<Tables>, after: Tables, error: Option<Error>) {
    match result
    case Ok(t) => error == None && after == t
    case Err(e) => error == Some(e)
  }

  method SqlAddTrailingSets(db: Database, m: Id, first: int, last: int)
    modifies db`matchSets
    ensures db.matchSets == old(db.matchSets)[m := NewSets(first, last) + RowsOf(old(db.Snapshot()), m)]
  {
    db.matchSets := db.matchSets[m := NewSets(first, last) + RowsOf(db.Snapshot(), m)];
  }

  method SqlDeleteTrailingSets(db: Database, m: Id, keep: int) returns (error: Option<Error>)
    requires m in db.matches
    modifies db`matchSets, db`matches
    ensures error == if Trim(old(db.matches)[m].progress, keep).completed < 0 then Some(CheckViolation) else None
    ensures error.None? ==>
              && db.matchSets == old(db.matchSets)[m := KeptSets(RowsOf(old(db.Snapshot()), m), keep)]
              && db.matches
                 == old(db.matches)[m := old(db.matches)[m].(progress := Trim(old(db.matches)[m].progress, keep))]
  {
    db.matchSets := db.matchSets[m := KeptSets(RowsOf(db.Snapshot(), m), keep)];
    var p := Trim(db.matches[m].progress, keep);
    if p.completed < 0 { return Some(CheckViolation); }
    db.matches := db.matches[m := db.matches[m].(progress := p)];
    return None;
  }

  method ResizeSetsForMatch(db: Database, m: Id, was: int, n: int) returns (error: Option<Error>)
    requires was != n && m in db.matches
    modifies db`matchSets, db`matches
    ensures error == if BreaksAt(old(db.Snapshot()), map[m := was], n, m) then Some(CheckViolation) else None
    ensures error == None ==> db.Snapshot() == Resized(old(db.Snapshot()), map[m := was], n)
  {
    ghost var before := db.Snapshot();
    ResizedSingle(before, m, was, n);
    error := None;
    if n > was {
      SqlAddTrailingSets(db, m, was + 1, n);
    } else {
      error := SqlDeleteTrailingSets(db, m, n);
    }
  }

  lemma ResizedSingle(t: Tables, m: Id, was: int, n: int)
    requires m in t.matches
    ensures ResizedSets(t, map[m := was], n) == t.matchSets[m := ResizedRows(RowsOf(t, m), was, n)]
    ensures TrimmedMatches(t.matches, map[m := was], n)
         == if n < was then t.matches[m := t.matches[m].(progress := Trim(t.matches[m].progress, n))]
            else t.matches
  {
    hide ResizedRows, Trim;
    SameMap(ResizedSets(t, map[m := was], n), t.matchSets[m := ResizedRows(RowsOf(t, m), was, n)]);
    TrimmedSingle(t.matches, m, was, n);
  }

  lemma TrimmedSingle(matches: map<Id, Match>, m: Id, was: int, n: int)
    requires m in matches
    ensures TrimmedMatches(matches, map[m := was], n)
         == if n < was then matches[m := matches[m].(progress := Trim(matches[m].progress, n))] else matches
  {
    hide Trim;
    SameMap(TrimmedMatches(matches, map[m := was], n),
            if n < was then matches[m := matches[m].(progress := Trim(matches[m].progress, n))] else matches);
  }

  function Group(ids: seq<Id>): set<Id> {
    set m | m in ids
  }

  lemma GroupIs(order: seq<Id>, ids: set<Id>)
    requires forall x :: x in order <==> x in ids
    ensures Group(order) == ids
  {
    forall x: Id ensures x in Group(order) <==> x in ids {}
  }

  lemma GroupOneMore(ids: seq<Id>, i: nat)
    requires i < |ids| && forall x, y | 0 <= x < y < |ids| :: ids[x] != ids[y]
    ensures Group(ids[..i + 1]) == Group(ids[..i]) + {ids[i]} && ids[i] !in Group(ids[..i])
    ensures Group(ids[..i + 1]) <= Group(ids)
  {
    assert ids[..i + 1] == ids[..i] + [ids[i]];
  }

  lemma BreakIsInherited(t: Tables, a: set<Id>, b: set<Id>, was: int, n: int)
    requires a <= b && BreaksCheck(t, Uniform(a, was), n)
    ensures BreaksCheck(t, Uniform(b, was), n)
  {
    var m :| m in Uniform(a, was) && BreaksAt(t, Uniform(a, was), n, m);
    assert BreaksAt(t, Uniform(b, was), n, m);
  }

  method ResizeSetsForMatches(db: Database, ids: seq<Id>, was: int, n: int) returns (error: Option<Error>)
    requires was != n
    requires forall m | m in ids :: m in db.matches
    requires forall i, j | 0 <= i < j < |ids| :: ids[i] != ids[j]
    modifies db`matchSets, db`matches
    ensures Tried(TryResize(old(db.Snapshot()), Uniform(Group(ids), was), n), db.Snapshot(), error)
  {
    ghost var before := db.Snapshot();
    for i := 0 to |ids|
      invariant db.Snapshot() == Resized(before, Uniform(Group(ids[..i]), was), n)
      invariant !BreaksCheck(before, Uniform(Group(ids[..i]), was), n)
    {
      GroupOneMore(ids, i);
      ResizeOneMore(before, Group(ids[..i]), ids[i], was, n);
      error := ResizeSetsForMatch(db, ids[i], was, n);
      if error.Some? {
        BreakIsInherited(before, Group(ids[..i + 1]), Group(ids), was, n);
        return;
      }
    }
    assert ids[..|ids|] == ids;
    return None;
  }

  lemma ResizeOneMore(t: Tables, done: set<Id>, m: Id, was: int, n: int)
    requires m in t.matches && m !in done
    ensures var t1 := Resized(t, Uniform(done, was), n);
            && m in t1.matches
            && Resized(t, Uniform(done + {m}, was), n) == Resized(t1, map[m := was], n)
            && (BreaksAt(t1, map[m := was], n, m) <==> BreaksAt(t, Uniform(done + {m}, was), n, m))
            && (BreaksCheck(t, Uniform(done + {m}, was), n)
                <==> BreaksCheck(t, Uniform(done, was), n) || BreaksAt(t1, map[m := was], n, m))
  {
    var a, b, all := Uniform(done, was), map[m := was], Uniform(done + {m}, was);
    UniformOneMore(done, m, was);
    hide Resized, BreaksCheck, BreaksAt, Uniform;
    ResizedKeepsMatches(t, a, n);
    BreaksAtGroups(t, a, b, n, m);
    ResizeGroups(t, a, b, n);
    ResizeGroupsBreak(t, a, b, n);
    BreaksCheckOne(Resized(t, a, n), m, was, n);
  }

  lemma UniformOneMore(done: set<Id>, m: Id, was: int)
    requires m !in done
    ensures Uniform(done + {m}, was) == Uniform(done, was) + map[m := was]
    ensures Uniform(done, was).Keys !! (map[m := was]).Keys
  {
  }

  lemma ResizedKeepsMatches(t: Tables, counts: Counts, n: int)
    ensures Resized(t, counts, n).matches.Keys == t.matches.Keys
  {
  }

  lemma BreaksCheckOne(t: Tables, m: Id, was: int, n: int)
    ensures BreaksCheck(t, map[m := was], n) <==> BreaksAt(t, map[m := was], n, m)
  {
    hide BreaksAt;
    assert m in map[m := was];
  }

  method SqlResizeSetsForRanking(db: Database, r: Id, was: int, n: int) returns (error: Option<Error>)
    modifies db`matchSets, db`matches
    ensures was == n ==> error == None && db.Snapshot() == old(db.Snapshot())
    ensures was != n ==>
              Tried(TryResize(old(db.Snapshot()), Uniform(MatchesOfRanking(old(db.Snapshot()), r), was), n),
                    db.Snapshot(), error)
  {
    if n == was { return None; }
    var ids := MatchesOfRanking(db.Snapshot(), r);
    error := ResizeSetsForMatches(db, Ids(ids), was, n);
    assert Group(Ids(ids)) == ids;
  }

  method SqlResizeSetsForStageItem(db: Database, i: Id, was: int, n: int) returns (error: Option<Error>)
    modifies db`matchSets, db`matches
    ensures was == n ==> error == None && db.Snapshot() == old(db.Snapshot())
    ensures was != n ==>
              Tried(TryResize(old(db.Snapshot()), Uniform(MatchesOfItem(old(db.Snapshot()), i), was), n),
                    db.Snapshot(), error)
  {
    if n == was { return None; }
    var ids := MatchesOfItem(db.Snapshot(), i);
    error := ResizeSetsForMatches(db, Ids(ids), was, n);
    assert Group(Ids(ids)) == ids;
  }

  // ---------------------------------------------------------------- laws

  /** One match: rows and pointer resized from a count that fits them fit the new count. Sets that
      survive keep their score and derived state; added sets have not started and stand at 0-0. */
  lemma ResizeOneFits(rows: Rows, p: Pointer, was: int, n: int)
    requires RowsAre(rows, was) && Fits(p, was) && n >= 0
    ensures var p' := if n < was then Trim(p, n) else p;
            && RowsAre(ResizedRows(rows, was, n), n) && Fits(p', n)
            && forall k: int | 1 <= k <= n ::
                 && k in ResizedRows(rows, was, n)
                 && (k <= was ==> ResizedRows(rows, was, n)[k] == rows[k] && StateOf(p', k) == StateOf(p, k))
                 && (k > was ==> ResizedRows(rows, was, n)[k] == ZERO && StateOf(p', k) == NotStarted)
  {
  }

  /** One match: growing and shrinking back is the identity, and shrinking in two steps is shrinking
      to the smaller count at once. */
  lemma ResizeOneTwice(rows: Rows, p: Pointer, was: int, n: int, low: int)
    requires RowsAre(rows, was) && Fits(p, was) && 0 <= low <= n
    ensures was <= n ==> ResizedRows(ResizedRows(rows, was, n), n, was) == rows
    ensures was <= n ==> Trim(p, was) == p
    ensures n <= was ==> ResizedRows(ResizedRows(rows, was, n), n, low) == ResizedRows(rows, was, low)
    ensures Trim(Trim(p, n), low) == Trim(p, low)
  {
  }

  /** The old counts are the real ones: pointers and rows fit them. */
  ghost predicate CountsFit(t: Tables, counts: Counts) {
    && counts.Keys <= t.matches.Keys
    && forall m | m in counts :: Fits(t.matches[m].progress, counts[m]) && RowsAre(RowsOf(t, m), counts[m])
  }

  lemma ResizedFitsAt(t: Tables, counts: Counts, n: int, m: Id)
    requires CountsFit(t, counts) && n >= 0 && m in counts
    ensures var t' := Resized(t, counts, n);
            && Trim(t.matches[m].progress, n).completed >= 0
            && Fits(t'.matches[m].progress, n) && RowsAre(RowsOf(t', m), n)
            && forall k: int | 1 <= k <= Min(counts[m], n) ::
                 && k in RowsOf(t', m) && k in RowsOf(t, m)
                 && RowsOf(t', m)[k] == RowsOf(t, m)[k]
                 && StateOf(t'.matches[m].progress, k) == StateOf(t.matches[m].progress, k)
  {
    ResizeOneFits(RowsOf(t, m), t.matches[m].progress, counts[m], n);
  }

  /** What it means for one match that it has n sets from now on: the sets that were there before keep their score and
      their state, the others have not started and stand at 0-0. */
  ghost predicate SetsResized(t: Tables, t': Tables, m: Id, n: int)
    requires m in t.matches && m in t'.matches
  {
    && Fits(t'.matches[m].progress, n) && RowsAre(RowsOf(t', m), n)
    && forall k | k in RowsOf(t', m) ::
         if k in RowsOf(t, m) then
           && RowsOf(t', m)[k] == RowsOf(t, m)[k]
           && StateOf(t'.matches[m].progress, k) == StateOf(t.matches[m].progress, k)
         else RowsOf(t', m)[k] == ZERO && StateOf(t'.matches[m].progress, k) == NotStarted
  }

  /** And nothing else about the match changes. */
  ghost predicate MatchResized(t: Tables, t': Tables, m: Id, n: int)
    requires m in t.matches
  {
    && m in t'.matches && t'.matches[m] == t.matches[m].(progress := t'.matches[m].progress)
    && SetsResized(t, t', m, n)
  }

  ghost predicate MatchUntouched(t: Tables, t': Tables, m: Id)
    requires m in t.matches
  {
    m in t'.matches && t'.matches[m] == t.matches[m] && RowsOf(t', m) == RowsOf(t, m)
  }

  lemma ResizesOne(t: Tables, counts: Counts, n: int, m: Id)
    requires CountsFit(t, counts) && n >= 0 && m in counts
    ensures MatchResized(t, Resized(t, counts, n), m, n)
  {
    var t' := Resized(t, counts, n);
    ResizedFitsAt(t, counts, n, m);
    ResizeOneFits(RowsOf(t, m), t.matches[m].progress, counts[m], n);
    assert RowsOf(t', m) == ResizedRows(RowsOf(t, m), counts[m], n);
    hide ResizedRows;
  }

  /** A match that has n sets already is resized by leaving it alone. */
  lemma AlreadyResized(t: Tables, t': Tables, m: Id, n: int)
    requires m in t.matches && MatchUntouched(t, t', m) && SetsFit(t, m) && NumSetsOf(t, m) == n
    ensures MatchResized(t, t', m, n)
  {
  }

  /** A resize the CHECK lets through resizes every listed match and touches no other. */
  lemma ResizesExactly(t: Tables, counts: Counts, n: int)
    requires CountsFit(t, counts)
    ensures TryResize(t, counts, n).Ok? <==> n >= 0 || counts == map[]
    ensures TryResize(t, counts, n).Err? ==> TryResize(t, counts, n).error == CheckViolation
    ensures TryResize(t, counts, n).Ok? ==>
              var t' := TryResize(t, counts, n).value;
              && t' == t.(matches := t'.matches, matchSets := t'.matchSets) && t'.matches.Keys == t.matches.Keys
              && forall m | m in t.matches ::
                   if m in counts then MatchResized(t, t', m, n) else MatchUntouched(t, t', m)
  {
    hide Resized, BreaksCheck, MatchResized, MatchUntouched;
    ResizeBreaks(t, counts, n);
    if n >= 0 || counts == map[] {
      NothingElseResized(t, counts, n);
      forall m | m in counts ensures MatchResized(t, Resized(t, counts, n), m, n) { ResizesOne(t, counts, n, m); }
    }
  }

  lemma NothingElseResized(t: Tables, counts: Counts, n: int)
    ensures var t' := Resized(t, counts, n);
            && t' == t.(matches := t'.matches, matchSets := t'.matchSets) && t'.matches.Keys == t.matches.Keys
            && forall m | m in t.matches && m !in counts :: MatchUntouched(t, t', m)
  {
  }

  lemma ResizeBreaks(t: Tables, counts: Counts, n: int)
    requires CountsFit(t, counts)
    ensures BreaksCheck(t, counts, n) <==> n < 0 && counts != map[]
  {
    if n >= 0 {
      NothingBreaks(t, counts, n);
    } else {
      EmptyOrHasMember(counts.Keys);
      assert counts.Keys == {} ==> counts == map[];
      if m :| m in counts { assert BreaksAt(t, counts, n, m); }
    }
  }

  /** The whole group: after a resize to n >= 0 every listed match fits n, and no other match has
      changed. */
  lemma ResizedFits(t: Tables, counts: Counts, n: int)
    requires CountsFit(t, counts) && n >= 0
    ensures !BreaksCheck(t, counts, n)
    ensures CountsFit(Resized(t, counts, n), Uniform(counts.Keys, n))
    ensures forall m | m in t.matches && m !in counts ::
              Resized(t, counts, n).matches[m] == t.matches[m] && RowsOf(Resized(t, counts, n), m) == RowsOf(t, m)
  {
    hide ResizedRows, Fits, RowsAre, Trim, CountsFit;
    NothingBreaks(t, counts, n);
    GroupFits(t, counts, n);
  }

  lemma NothingBreaks(t: Tables, counts: Counts, n: int)
    requires CountsFit(t, counts) && n >= 0
    ensures !BreaksCheck(t, counts, n)
  {
  }

  lemma GroupFits(t: Tables, counts: Counts, n: int)
    requires CountsFit(t, counts) && n >= 0
    ensures CountsFit(Resized(t, counts, n), Uniform(counts.Keys, n))
  {
    hide ResizedRows, Fits, RowsAre, Trim;
    var t' := Resized(t, counts, n);
    forall m | m in counts ensures Fits(t'.matches[m].progress, n) && RowsAre(RowsOf(t', m), n) {
      ResizedFitsAt(t, counts, n, m);
    }
  }

  /** The whole group: growing and then shrinking back restores the database. */
  lemma GrowShrink(t: Tables, ids: set<Id>, was: int, n: int)
    requires CountsFit(t, Uniform(ids, was)) && 0 <= was <= n && ids <= t.matchSets.Keys
    ensures Resized(Resized(t, Uniform(ids, was), n), Uniform(ids, n), was) == t
  {
    var grown := Resized(t, Uniform(ids, was), n);
    hide ResizedRows, Trim, CountsFit, RowsOf;
    forall m | m in ids
      ensures ResizedRows(RowsOf(grown, m), n, was) == RowsOf(t, m) && m in t.matches
      ensures Trim(t.matches[m].progress, was) == t.matches[m].progress
      ensures RowsOf(t, m) == t.matchSets[m]
    {
      GrowShrinkAt(t, ids, was, n, m);
    }
    SameMap(ResizedSets(grown, Uniform(ids, n), was), t.matchSets);
    SameMap(TrimmedMatches(grown.matches, Uniform(ids, n), was), t.matches);
  }

  lemma GrowShrinkAt(t: Tables, ids: set<Id>, was: int, n: int, m: Id)
    requires CountsFit(t, Uniform(ids, was)) && 0 <= was <= n && m in ids && m in t.matchSets
    ensures ResizedRows(RowsOf(Resized(t, Uniform(ids, was), n), m), n, was) == RowsOf(t, m) && m in t.matches
    ensures Trim(t.matches[m].progress, was) == t.matches[m].progress
    ensures RowsOf(t, m) == t.matchSets[m]
  {
    assert m in Uniform(ids, was);
    ResizeOneTwice(RowsOf(t, m), t.matches[m].progress, was, n, 0);
  }

  /** The whole group: shrinking in two steps is shrinking to the smaller count at once. */
  lemma ShrinkShrink(t: Tables, counts: Counts, n: int, low: int)
    requires CountsFit(t, counts) && 0 <= low < n && forall m | m in counts :: n < counts[m]
    ensures Resized(Resized(t, counts, n), Uniform(counts.Keys, n), low) == Resized(t, counts, low)
  {
    ResizeRowsTwice(t, counts, n, low);
    TrimTwice(t.matches, counts, n, low);
  }

  lemma ResizeRowsTwice(t: Tables, counts: Counts, n: int, low: int)
    requires CountsFit(t, counts) && 0 <= low < n && forall m | m in counts :: n < counts[m]
    ensures ResizedSets(Resized(t, counts, n), Uniform(counts.Keys, n), low) == ResizedSets(t, counts, low)
  {
    hide ResizedRows;
    var once := Resized(t, counts, n);
    forall m | m in counts ensures ResizedRows(RowsOf(once, m), n, low) == ResizedRows(RowsOf(t, m), counts[m], low) {
      RowsTwice(t, counts, n, low, m);
    }
    SameSets(once, t, Uniform(counts.Keys, n), counts, low, low);
  }

  lemma RowsTwice(t: Tables, counts: Counts, n: int, low: int, m: Id)
    requires CountsFit(t, counts) && 0 <= low < n && m in counts && n < counts[m]
    ensures ResizedRows(RowsOf(Resized(t, counts, n), m), n, low) == ResizedRows(RowsOf(t, m), counts[m], low)
  {
    ResizeOneTwice(RowsOf(t, m), t.matches[m].progress, counts[m], n, low);
    hide ResizedRows;
  }

  /** Two resizes end alike when they treat the same matches and end alike on each. */
  lemma SameSets(s: Tables, t: Tables, a: Counts, b: Counts, n: int, k: int)
    requires a.Keys == b.Keys && s.matchSets.Keys + a.Keys == t.matchSets.Keys + a.Keys
    requires forall m | m in a :: ResizedRows(RowsOf(s, m), a[m], n) == ResizedRows(RowsOf(t, m), b[m], k)
    requires forall m | m in t.matchSets && m !in a :: m in s.matchSets && s.matchSets[m] == t.matchSets[m]
    ensures ResizedSets(s, a, n) == ResizedSets(t, b, k)
  {
    hide ResizedRows;
    var x, y := ResizedSets(s, a, n), ResizedSets(t, b, k);
    forall m | m in x.Keys ensures x[m] == y[m] {
      assert m in a || (m in t.matchSets && m !in a);
    }
    SameMap(x, y);
  }

  lemma TrimTwice(matches: map<Id, Match>, counts: Counts, n: int, low: int)
    requires low < n && forall m | m in counts :: n < counts[m]
    ensures TrimmedMatches(TrimmedMatches(matches, counts, n), Uniform(counts.Keys, n), low)
         == TrimmedMatches(matches, counts, low)
  {
  }

  lemma ResizeNothing(t: Tables, n: int)
    ensures TryResize(t, map[], n) == Ok(t)
  {
    assert ResizedSets(t, map[], n) == t.matchSets;
    assert TrimmedMatches(t.matches, map[], n) == t.matches;
  }

  /** Resizing two disjoint groups one after the other is resizing their union. */
  lemma ResizeGroups(t: Tables, a: Counts, b: Counts, n: int)
    requires a.Keys !! b.Keys
    ensures Resized(Resized(t, a, n), b, n) == Resized(t, a + b, n)
  {
    ResizeGroupsSets(t, a, b, n);
    ResizeGroupsMatches(t.matches, a, b, n);
  }

  lemma ResizeGroupsSets(t: Tables, a: Counts, b: Counts, n: int)
    requires a.Keys !! b.Keys
    ensures ResizedSets(Resized(t, a, n), b, n) == ResizedSets(t, a + b, n)
  {
    var x, y := ResizedSets(Resized(t, a, n), b, n), ResizedSets(t, a + b, n);
    forall m ensures m in x.Keys <==> m in y.Keys {}
    forall m | m in x.Keys ensures x[m] == y[m] { GroupsAt(t, a, b, n, m); }
    SameMap(x, y);
  }

  lemma GroupsAt(t: Tables, a: Counts, b: Counts, n: int, m: Id)
    requires a.Keys !! b.Keys && m in t.matchSets.Keys + a.Keys + b.Keys
    ensures m in ResizedSets(Resized(t, a, n), b, n) && m in ResizedSets(t, a + b, n)
    ensures ResizedSets(Resized(t, a, n), b, n)[m] == ResizedSets(t, a + b, n)[m]
  {
    hide ResizedRows;
    assert m in b ==> RowsOf(Resized(t, a, n), m) == RowsOf(t, m);
  }

  lemma ResizeGroupsMatches(matches: map<Id, Match>, a: Counts, b: Counts, n: int)
    requires a.Keys !! b.Keys
    ensures TrimmedMatches(TrimmedMatches(matches, a, n), b, n) == TrimmedMatches(matches, a + b, n)
  {
  }

  lemma BreaksAtGroups(t: Tables, a: Counts, b: Counts, n: int, m: Id)
    requires a.Keys !! b.Keys
    ensures m in a ==> (BreaksAt(t, a + b, n, m) <==> BreaksAt(t, a, n, m))
    ensures m in b ==> (BreaksAt(t, a + b, n, m) <==> BreaksAt(Resized(t, a, n), b, n, m))
  {
  }

  lemma ResizeGroupsBreak(t: Tables, a: Counts, b: Counts, n: int)
    requires a.Keys !! b.Keys
    ensures BreaksCheck(t, a + b, n) <==> BreaksCheck(t, a, n) || BreaksCheck(Resized(t, a, n), b, n)
  {
    var t1 := Resized(t, a, n);
    hide BreaksAt, Resized;
    forall m
      ensures m in a ==> m in a + b && (BreaksAt(t, a + b, n, m) <==> BreaksAt(t, a, n, m))
      ensures m in b ==> m in a + b && (BreaksAt(t, a + b, n, m) <==> BreaksAt(t1, b, n, m))
      ensures m in a + b ==> m in a || m in b
    {
      BreaksAtGroups(t, a, b, n, m);
    }
  }
}
