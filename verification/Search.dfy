/** The match loop of a file search, with its context windows. */
module Search {

  /** `before` and `after` may be negative, which counts as none; a `maxMatches` that is not
      positive is no limit. */
  datatype Query = Query(invert: bool, countOnly: bool, showLineNumbers: bool,
                         before: int, after: int, maxMatches: int)

  datatype Label = Before | Match | After

  datatype MatchLine = MatchLine(lineNumber: nat, content: string, context: Label)

  // ----- the specification -----

  /** Line `i` matches, inversion included. */
  predicate Hit(q: Query, lines: seq<string>, matches: string -> bool, i: int)
    requires 0 <= i < |lines|
  {
    matches(lines[i]) != q.invert
  }

  /** How many of the first `n` lines match. */
  function Hits(q: Query, lines: seq<string>, matches: string -> bool, n: nat): (count: nat)
    requires n <= |lines|
    ensures count <= n
  {
    if n == 0 then 0
    else Hits(q, lines, matches, n - 1) + if Hit(q, lines, matches, n - 1) then 1 else 0
  }

  predicate Limited(q: Query) {
    !q.countOnly && q.maxMatches > 0
  }

  /** Line `i` is one of the matches that are shown: the first `maxMatches` if there is a limit. */
  predicate Taken(q: Query, lines: seq<string>, matches: string -> bool, i: int) {
    && 0 <= i < |lines| && !q.countOnly && Hit(q, lines, matches, i)
    && (q.maxMatches > 0 ==> Hits(q, lines, matches, i) < q.maxMatches)
  }

  /** The window of the match at `i`, clipped to the file. */
  function First(q: Query, i: nat): nat {
    if q.before <= 0 then i else if i < q.before then 0 else i - q.before
  }

  function End(q: Query, n: nat, i: nat): nat
    requires i < n
  {
    if q.after <= 0 then i + 1 else if i + q.after >= n then n else i + q.after + 1
  }

  /** Line `x` lies in the window of a shown match above line `i`. */
  ghost predicate Covered(q: Query, lines: seq<string>, matches: string -> bool, i: nat, x: int) {
    exists j :: 0 <= j < i && Taken(q, lines, matches, j) && First(q, j) <= x < End(q, |lines|, j)
  }

  /** The label a shown line gets: in the window behind an earlier shown match, a match, or in the
      window before one. */
  ghost function LabelOf(q: Query, lines: seq<string>, matches: string -> bool, x: nat): Label
    requires x < |lines|
  {
    if exists j :: 0 <= j < x && Taken(q, lines, matches, j) && x < End(q, |lines|, j) then After
    else if Hit(q, lines, matches, x) then Match
    else Before
  }

  ghost function Shown(q: Query, lines: seq<string>, matches: string -> bool, x: nat): MatchLine
    requires x < |lines|
  {
    MatchLine(if q.showLineNumbers then x + 1 else 0, lines[x], LabelOf(q, lines, matches, x))
  }

  /** `indices` are the lines shown, in order, and `out` is how they are shown. */
  ghost predicate Shows(q: Query, lines: seq<string>, matches: string -> bool,
                        indices: seq<nat>, out: seq<MatchLine>)
  {
    && |indices| == |out|
    && (forall k | 0 <= k < |out| :: indices[k] < |lines| && out[k] == Shown(q, lines, matches, indices[k]))
  }

  ghost predicate Increasing(indices: seq<nat>) {
    forall k, m | 0 <= k < m < |indices| :: indices[k] < indices[m]
  }

  /** What a search shows: exactly the lines in the windows of the shown matches, each once and in
      the order of the file, with their labels. */
  ghost predicate IsOutput(q: Query, lines: seq<string>, matches: string -> bool, out: seq<MatchLine>) {
    exists indices: seq<nat> :: Shows(q, lines, matches, indices, out) && AreThose(q, lines, matches, indices)
  }

  ghost predicate AreThose(q: Query, lines: seq<string>, matches: string -> bool, indices: seq<nat>) {
    Increasing(indices) && forall x: nat :: x in indices <==> Covered(q, lines, matches, |lines|, x)
  }

  /** The count a search returns. */
  function Count(q: Query, lines: seq<string>, matches: string -> bool): nat {
    var all := Hits(q, lines, matches, |lines|);
    if Limited(q) && all > q.maxMatches then q.maxMatches + 1 else all
  }

  /** The window of a match is the match itself, `before` lines above it and `after` lines below, as far as
      the file goes. */
  lemma WindowIsAround(q: Query, n: nat, i: nat, x: int)
    requires i < n
    ensures First(q, i) <= x < End(q, n, i) <==>
            0 <= x < n && (x == i || (x < i && i - x <= q.before) || (x > i && x - i <= q.after))
  {
  }

  /** An output consists of lines of the file, in the file's order, as they are, with their numbers counted
      from one if numbers are asked for. */
  lemma OutputIsLinesOfTheFile(q: Query, lines: seq<string>, matches: string -> bool, out: seq<MatchLine>)
    requires IsOutput(q, lines, matches, out)
    ensures exists indices: seq<nat> ::
              && Increasing(indices) && |indices| == |out|
              && forall k | 0 <= k < |out| ::
                   indices[k] < |lines| && out[k].content == lines[indices[k]]
                   && out[k].lineNumber == if q.showLineNumbers then indices[k] + 1 else 0
  {
    var indices: seq<nat> :| Shows(q, lines, matches, indices, out) && AreThose(q, lines, matches, indices);
    assert Increasing(indices);
  }

  // ----- counting -----

  lemma {:induction false} HitsMonotone(q: Query, lines: seq<string>, matches: string -> bool, i: nat, n: nat)
    requires i <= n <= |lines|
    ensures Hits(q, lines, matches, i) <= Hits(q, lines, matches, n)
    decreases n - i
  {
    if i < n {
      HitsMonotone(q, lines, matches, i + 1, n);
    }
  }

  /** Every match above a shown match is shown too. */
  lemma EarlierHitIsTaken(q: Query, lines: seq<string>, matches: string -> bool, j: nat, i: nat)
    requires j <= i && Taken(q, lines, matches, i) && Hit(q, lines, matches, j)
    ensures Taken(q, lines, matches, j)
  {
    HitsMonotone(q, lines, matches, j, i);
  }

  function TakenCount(q: Query, lines: seq<string>, matches: string -> bool, n: nat): nat
    requires n <= |lines|
  {
    if n == 0 then 0
    else TakenCount(q, lines, matches, n - 1) + if Taken(q, lines, matches, n - 1) then 1 else 0
  }

  /** All matches are shown if there is no limit, the first `maxMatches` if there is one, and none if only
      the count is wanted. */
  lemma {:induction false} FirstMatchesAreTaken(q: Query, lines: seq<string>, matches: string -> bool, n: nat)
    requires n <= |lines|
    ensures var hits := Hits(q, lines, matches, n);
            TakenCount(q, lines, matches, n)
            == if q.countOnly then 0 else if q.maxMatches > 0 && hits > q.maxMatches then q.maxMatches else hits
  {
    if n > 0 {
      FirstMatchesAreTaken(q, lines, matches, n - 1);
    }
  }

  /** The count is the number of matches, unless some are not shown for the limit: then it is one more than
      the limit.  So it tells whether matches are missing. */
  lemma CountTellsWhatIsMissing(q: Query, lines: seq<string>, matches: string -> bool)
    ensures var all, shown := Hits(q, lines, matches, |lines|), TakenCount(q, lines, matches, |lines|);
            && (q.countOnly ==> Count(q, lines, matches) == all)
            && (!q.countOnly ==> Count(q, lines, matches) == if shown < all then shown + 1 else all)
  {
    FirstMatchesAreTaken(q, lines, matches, |lines|);
  }

  // ----- one window -----

  /** The lines shown when the window of `i` has been gone through up to `b`. */
  ghost predicate Upto(q: Query, lines: seq<string>, matches: string -> bool, i: nat, b: nat, x: int) {
    Covered(q, lines, matches, i, x) || First(q, i) <= x < b
  }

  /** A line of the window that has not been shown yet lies behind everything shown. */
  lemma NewLineIsLast(q: Query, lines: seq<string>, matches: string -> bool, i: nat, b: nat, x: int)
    requires Taken(q, lines, matches, i) && First(q, i) <= b < End(q, |lines|, i)
    requires !Covered(q, lines, matches, i, b) && Upto(q, lines, matches, i, b, x)
    ensures x < b
  {
    if Covered(q, lines, matches, i, x) {
      var j :| 0 <= j < i && Taken(q, lines, matches, j) && First(q, j) <= x < End(q, |lines|, j);
      assert First(q, j) <= First(q, i);
    }
  }

  /** Its label is what the loop that finds it says. */
  lemma NewLineLabel(q: Query, lines: seq<string>, matches: string -> bool, i: nat, b: nat)
    requires Taken(q, lines, matches, i) && First(q, i) <= b < End(q, |lines|, i)
    requires !Covered(q, lines, matches, i, b)
    ensures b < |lines|
    ensures LabelOf(q, lines, matches, b) == if b < i then Before else if b == i then Match else After
  {
    if b <= i {
      forall j | 0 <= j < b && Taken(q, lines, matches, j) ensures b >= End(q, |lines|, j) {
        assert First(q, j) <= b;
      }
      if b < i && Hit(q, lines, matches, b) {
        EarlierHitIsTaken(q, lines, matches, b, i);
      }
    }
  }

  // ----- the search -----

  /** The lines shown so far are those of the windows above `i` and of the window of `i` up to
      `b`. */
  ghost predicate Holds(q: Query, lines: seq<string>, matches: string -> bool, i: nat, b: nat,
                        indices: seq<nat>, out: seq<MatchLine>, added: set<nat>)
  {
    && Shows(q, lines, matches, indices, out)
    && Increasing(indices)
    && (forall x: nat :: x in added <==> x in indices)
    && (forall x: nat :: x in added <==> Upto(q, lines, matches, i, b, x))
  }

  lemma AddedOne(q: Query, lines: seq<string>, matches: string -> bool, i: nat, b: nat,
                 indices: seq<nat>, out: seq<MatchLine>, added: set<nat>)
    requires Taken(q, lines, matches, i) && First(q, i) <= b < End(q, |lines|, i)
    requires Holds(q, lines, matches, i, b, indices, out, added)
    ensures b < |lines|
    ensures b in added ==> Holds(q, lines, matches, i, b + 1, indices, out, added)
    ensures b !in added ==>
              && Holds(q, lines, matches, i, b + 1, indices + [b], out + [Shown(q, lines, matches, b)], added + {b})
              && LabelOf(q, lines, matches, b) == if b < i then Before else if b == i then Match else After
  {
    assert b in added <==> Covered(q, lines, matches, i, b) by {
      assert b in added <==> Upto(q, lines, matches, i, b, b);
    }
    forall x: nat ensures Upto(q, lines, matches, i, b + 1, x) <==> Upto(q, lines, matches, i, b, x) || x == b {
    }
    if b !in added {
      NewLineLabel(q, lines, matches, i, b);
      forall x | x in indices ensures x < b {
        assert x in added;
        NewLineIsLast(q, lines, matches, i, b, x);
      }
      forall k | 0 <= k < |indices| ensures indices[k] < b {
        assert indices[k] in indices;
      }
      forall x: nat ensures x in indices + [b] <==> x in indices || x == b {
      }
      forall x: nat ensures x in added + {b} <==> Upto(q, lines, matches, i, b + 1, x) {
      }
    }
  }

  lemma WindowStarts(q: Query, lines: seq<string>, matches: string -> bool, i: nat,
                     indices: seq<nat>, out: seq<MatchLine>, added: set<nat>)
    requires Holds(q, lines, matches, i, 0, indices, out, added)
    ensures Holds(q, lines, matches, i, First(q, i), indices, out, added)
  {
    forall x: nat ensures Upto(q, lines, matches, i, First(q, i), x) <==> Upto(q, lines, matches, i, 0, x) {
    }
  }

  lemma WindowEnds(q: Query, lines: seq<string>, matches: string -> bool, i: nat,
                   indices: seq<nat>, out: seq<MatchLine>, added: set<nat>)
    requires i < |lines|
    requires Holds(q, lines, matches, i, if Taken(q, lines, matches, i) then End(q, |lines|, i) else 0,
                   indices, out, added)
    ensures Holds(q, lines, matches, i + 1, 0, indices, out, added)
  {
    var end := if Taken(q, lines, matches, i) then End(q, |lines|, i) else 0;
    forall x: nat ensures Upto(q, lines, matches, i + 1, 0, x) <==> Upto(q, lines, matches, i, end, x) {
    }
  }

  lemma NothingTakenBehind(q: Query, lines: seq<string>, matches: string -> bool, i: nat)
    requires i < |lines| && Limited(q) && Hits(q, lines, matches, i) >= q.maxMatches
    ensures forall x :: Covered(q, lines, matches, |lines|, x) <==> Covered(q, lines, matches, i, x)
  {
    forall j | i <= j < |lines| ensures !Taken(q, lines, matches, j) {
      HitsMonotone(q, lines, matches, i, j);
    }
  }

  /** One line of the file's output, unless it is there already. */
  method Emit(q: Query, lines: seq<string>, ghost matches: string -> bool, ghost i: nat, b: nat, context: Label,
              ghost indices: seq<nat>, out: seq<MatchLine>, added: set<nat>)
    returns (ghost indices': seq<nat>, out': seq<MatchLine>, added': set<nat>)
    requires Taken(q, lines, matches, i) && First(q, i) <= b < End(q, |lines|, i)
    requires Holds(q, lines, matches, i, b, indices, out, added)
    requires context == if b < i then Before else if b == i then Match else After
    ensures Holds(q, lines, matches, i, b + 1, indices', out', added')
  {
    indices', out', added' := indices, out, added;
    AddedOne(q, lines, matches, i, b, indices, out, added);
    if b !in added {
      out' := out + [MatchLine(if q.showLineNumbers then b + 1 else 0, lines[b], context)];
      indices', added' := indices + [b], added + {b};
    }
  }

  /** The output of a search, and its count: the number of matches, or one more than the limit if
      that is exceeded. */
  method SearchFileContent(q: Query, lines: seq<string>, matches: string -> bool)
    returns (out: seq<MatchLine>, count: nat)
    ensures IsOutput(q, lines, matches, out)
    ensures count == Count(q, lines, matches)
  {
    hide Holds, Taken, Covered, Upto;
    out, count := [], 0;
    ghost var indices: seq<nat> := [];
    var added: set<nat> := {};
    var i := 0;
    NothingShownYet(q, lines, matches);
    while i < |lines|
      invariant i <= |lines| && count == Hits(q, lines, matches, i)
      invariant Limited(q) ==> count <= q.maxMatches
      invariant Holds(q, lines, matches, i, 0, indices, out, added)
    {
      var matched := matches(lines[i]);
      if q.invert {
        matched := !matched;
      }
      IsTaken(q, lines, matches, i);
      if matched {
        count := count + 1;
        if !q.countOnly {
          if q.maxMatches > 0 && count > q.maxMatches {
            HitsMonotone(q, lines, matches, i + 1, |lines|);
            NothingTakenBehind(q, lines, matches, i);
            break;
          }
          indices, out, added := ShowWindow(q, lines, matches, i, indices, out, added);
        }
      }
      WindowEnds(q, lines, matches, i, indices, out, added);
      i := i + 1;
    }
    HoldsShows(q, lines, matches, i, indices, out, added);
  }

  lemma NothingShownYet(q: Query, lines: seq<string>, matches: string -> bool)
    ensures Holds(q, lines, matches, 0, 0, [], [], {})
  {
  }

  lemma IsTaken(q: Query, lines: seq<string>, matches: string -> bool, i: nat)
    requires i < |lines|
    ensures Taken(q, lines, matches, i) <==>
            Hit(q, lines, matches, i) && !q.countOnly
            && (q.maxMatches > 0 ==> Hits(q, lines, matches, i) < q.maxMatches)
  {
  }

  lemma HoldsShows(q: Query, lines: seq<string>, matches: string -> bool, i: nat,
                   indices: seq<nat>, out: seq<MatchLine>, added: set<nat>)
    requires Holds(q, lines, matches, i, 0, indices, out, added)
    ensures Shows(q, lines, matches, indices, out) && Increasing(indices)
    ensures forall x: nat :: x in indices <==> Covered(q, lines, matches, i, x)
  {
    forall x: nat ensures x in indices <==> Covered(q, lines, matches, i, x) {
      assert x in added <==> Upto(q, lines, matches, i, 0, x);
    }
  }

  method ShowWindow(q: Query, lines: seq<string>, ghost matches: string -> bool, i: nat,
                    ghost indices: seq<nat>, out: seq<MatchLine>, added: set<nat>)
    returns (ghost indices': seq<nat>, out': seq<MatchLine>, added': set<nat>)
    requires i < |lines| && Taken(q, lines, matches, i)
    requires Holds(q, lines, matches, i, 0, indices, out, added)
    ensures Holds(q, lines, matches, i, End(q, |lines|, i), indices', out', added')
  {
    hide Holds, Taken;
    indices', out', added' := indices, out, added;
    WindowStarts(q, lines, matches, i, indices, out, added);
    var b := if i - q.before > 0 then i - q.before else 0;
    while b < i
      invariant 0 <= b && First(q, i) <= b && (b > i ==> First(q, i) == i)
      invariant Holds(q, lines, matches, i, if b < i then b else i, indices', out', added')
    {
      indices', out', added' := Emit(q, lines, matches, i, b, Before, indices', out', added');
      b := b + 1;
    }
    indices', out', added' := Emit(q, lines, matches, i, i, Match, indices', out', added');
    var a := i + 1;
    while a <= if |lines| - 1 < i + q.after then |lines| - 1 else i + q.after
      invariant i < a <= End(q, |lines|, i)
      invariant Holds(q, lines, matches, i, a, indices', out', added')
    {
      indices', out', added' := Emit(q, lines, matches, i, a, After, indices', out', added');
      a := a + 1;
    }
  }

  // ----- what follows -----

  lemma FirstIsIn(a: seq<nat>)
    ensures a == [] || a[0] in a
  {
  }

  lemma {:induction false} IncreasingIsUnique(a: seq<nat>, b: seq<nat>)
    requires Increasing(a) && Increasing(b) && forall x :: x in a <==> x in b
    ensures a == b
  {
    if a == [] {
      FirstIsIn(b);
    } else {
      assert a[0] in b && b[0] in a;
      assert a == [a[0]] + a[1..] && b == [b[0]] + b[1..];
      assert a[0] == b[0];
      forall x ensures x in a[1..] <==> x in b[1..] {
        assert x in a[1..] <==> x in a && x != a[0];
        assert x in b[1..] <==> x in b && x != b[0];
      }
      IncreasingIsUnique(a[1..], b[1..]);
    }
  }

  /** There is only one output for given lines and query. */
  lemma OutputIsUnique(q: Query, lines: seq<string>, matches: string -> bool, a: seq<MatchLine>, b: seq<MatchLine>)
    requires IsOutput(q, lines, matches, a) && IsOutput(q, lines, matches, b)
    ensures a == b
  {
    hide Covered, Shown;
    var i: seq<nat> :| Shows(q, lines, matches, i, a) && AreThose(q, lines, matches, i);
    var j: seq<nat> :| Shows(q, lines, matches, j, b) && AreThose(q, lines, matches, j);
    forall x ensures x in i <==> x in j {
      if x in i || x in j {
        var n: nat := x;
        assert n in i <==> n in j;
      }
    }
    IncreasingIsUnique(i, j);
  }

  /** A line labelled as context before a match is never a match itself.  A line in the window behind
      an earlier shown match is labelled so even if it matches. */
  lemma BeforeLinesAreNoMatches(q: Query, lines: seq<string>, matches: string -> bool,
                                indices: seq<nat>, out: seq<MatchLine>, k: nat)
    requires Shows(q, lines, matches, indices, out) && k < |out|
    ensures out[k].context == Before ==> !Hit(q, lines, matches, indices[k])
    ensures out[k].context == Match ==> Hit(q, lines, matches, indices[k])
    ensures out[k].context == After <==>
            exists j :: 0 <= j < indices[k] && Taken(q, lines, matches, j) && indices[k] < End(q, |lines|, j)
  {
    assert out[k] == Shown(q, lines, matches, indices[k]);
  }

  /** The two searches find the same lines. */
  predicate SameHits(q: Query, r: Query, lines: seq<string>, m: string -> bool, n: string -> bool) {
    && q == r.(invert := q.invert)
    && forall i | 0 <= i < |lines| :: Hit(q, lines, m, i) <==> Hit(r, lines, n, i)
  }

  lemma {:induction false} SameHitsCount(q: Query, r: Query, lines: seq<string>, m: string -> bool, n: string -> bool,
                                         i: nat)
    requires SameHits(q, r, lines, m, n) && i <= |lines|
    ensures Hits(q, lines, m, i) == Hits(r, lines, n, i)
  {
    if i > 0 {
      SameHitsCount(q, r, lines, m, n, i - 1);
    }
  }

  lemma SameHitsShow(q: Query, r: Query, lines: seq<string>, m: string -> bool, n: string -> bool,
                     out: seq<MatchLine>)
    requires SameHits(q, r, lines, m, n) && IsOutput(q, lines, m, out)
    ensures IsOutput(r, lines, n, out)
  {
    forall i ensures Taken(q, lines, m, i) <==> Taken(r, lines, n, i) {
      if 0 <= i < |lines| {
        SameHitsCount(q, r, lines, m, n, i);
      }
    }
    forall x ensures Covered(q, lines, m, |lines|, x) <==> Covered(r, lines, n, |lines|, x) {
    }
    forall x: nat | x < |lines| ensures Shown(q, lines, m, x) == Shown(r, lines, n, x) {
    }
    var indices: seq<nat> :| Shows(q, lines, m, indices, out) && AreThose(q, lines, m, indices);
    assert Shows(r, lines, n, indices, out) && AreThose(r, lines, n, indices);
  }

  /** An inverted search is the search for the lines that do not match, and one that is not inverted finds
      the lines that do. */
  lemma InvertedSearch(q: Query, lines: seq<string>, matches: string -> bool, out: seq<MatchLine>)
    requires !q.invert
    ensures IsOutput(q.(invert := true), lines, matches, out) <==> IsOutput(q, lines, line => !matches(line), out)
    ensures Count(q.(invert := true), lines, matches) == Count(q, lines, line => !matches(line))
    ensures forall i | 0 <= i < |lines| :: Hit(q, lines, matches, i) <==> matches(lines[i])
  {
    var negated := line => !matches(line);
    var inverted := q.(invert := true);
    assert SameHits(inverted, q, lines, matches, negated);
    assert SameHits(q, inverted, lines, negated, matches);
    SameHitsCount(inverted, q, lines, matches, negated, |lines|);
    if IsOutput(inverted, lines, matches, out) {
      SameHitsShow(inverted, q, lines, matches, negated, out);
    }
    if IsOutput(q, lines, negated, out) {
      SameHitsShow(q, inverted, lines, negated, matches, out);
    }
  }
}
