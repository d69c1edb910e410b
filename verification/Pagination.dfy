/** Cursor pagination, which the node list and the listings of the invocation service share. */
module Pagination {
  import opened Text
  import opened Sorting

  datatype Page<T> = Page(items: seq<T>, next: string)

  /** Where the page after `cursor` starts: behind the first item of that name, at the end if there
      is none, and at the beginning without a cursor. */
  function Start<T>(items: seq<T>, cursor: string, id: T -> string): (start: nat)
    ensures start <= |items|
  {
    if cursor == "" then 0 else Behind(items, cursor, id)
  }

  function Behind<T>(items: seq<T>, cursor: string, id: T -> string): (start: nat)
    ensures start <= |items|
  {
    if items == [] then 0 else if id(items[0]) == cursor then 1 else 1 + Behind(items[1..], cursor, id)
  }

  function Min(a: int, b: int): int {
    if a < b then a else b
  }

  function PageOf<T>(items: seq<T>, cursor: string, limit: nat, id: T -> string): Page<T>
    requires limit >= 1
  {
    var start := Start(items, cursor, id);
    var end := Min(start + limit, |items|);
    Page(items[start..end], if end < |items| then id(items[end - 1]) else "")
  }

  lemma {:induction false} BehindIsFirst<T>(items: seq<T>, cursor: string, id: T -> string, i: nat)
    requires i <= |items| && forall k | 0 <= k < i :: id(items[k]) != cursor
    requires i == |items| || id(items[i]) == cursor
    ensures Behind(items, cursor, id) == if i == |items| then |items| else i + 1
  {
    if i > 0 {
      forall k | 0 <= k < i - 1 ensures id(items[1..][k]) != cursor {
        assert items[1..][k] == items[k + 1];
      }
      BehindIsFirst(items[1..], cursor, id, i - 1);
    }
  }

  method Paginate<T>(items: seq<T>, cursor: string, limit: nat, id: T -> string) returns (page: Page<T>)
    requires limit >= 1
    ensures page == PageOf(items, cursor, limit, id)
  {
    var start := 0;
    if cursor != "" {
      start := |items|;
      var i := 0;
      while i < |items|
        invariant i <= |items| && start == |items|
        invariant forall k | 0 <= k < i :: id(items[k]) != cursor
      {
        if id(items[i]) == cursor {
          start := i + 1;
          break;
        }
        i := i + 1;
      }
      BehindIsFirst(items, cursor, id, i);
    }
    var end := if start + limit < |items| then start + limit else |items|;
    var next := "";
    if end < |items| {
      next := id(items[end - 1]);
    }
    page := Page(items[start..end], next);
  }

  /** A page is as long as the limit allows and the list is; it starts behind the first item named by the
      cursor, and its own cursor names its last item exactly if the list goes on. */
  lemma PageIsFull<T>(items: seq<T>, cursor: string, limit: nat, id: T -> string, i: nat)
    requires limit >= 1 && cursor != "" && i < |items| && id(items[i]) == cursor
    requires forall k | 0 <= k < i :: id(items[k]) != cursor
    ensures var page := PageOf(items, cursor, limit, id);
            && page.items <= items[i + 1..]
            && |page.items| == (if |items| - i - 1 > limit then limit else |items| - i - 1)
            && (|items| - i - 1 > limit ==> page.next == id(page.items[limit - 1]))
            && (|items| - i - 1 <= limit ==> page.next == "")
  {
    BehindIsFirst(items, cursor, id, i);
  }

  /** The first page starts at the beginning, and there is none behind a cursor no item has. */
  lemma FirstPageAndLostCursor<T>(items: seq<T>, limit: nat, id: T -> string, cursor: string)
    requires limit >= 1
    ensures var page := PageOf(items, "", limit, id);
            && page.items <= items && |page.items| == (if |items| > limit then limit else |items|)
            && page.next == if |items| > limit then id(items[limit - 1]) else ""
    ensures cursor != "" && (forall x | x in items :: id(x) != cursor) ==> PageOf(items, cursor, limit, id) == Page([], "")
  {
    if cursor != "" && forall x | x in items :: id(x) != cursor {
      BehindIsFirst(items, cursor, id, |items|);
    }
  }

  /** The limits a listing can be asked for. */
  function NormalizeLimit(limit: int): (n: nat)
    ensures 1 <= n <= 200
    ensures 1 <= limit <= 200 ==> n == limit
    ensures limit <= 0 ==> n == 50
    ensures limit > 200 ==> n == 200
  {
    if limit <= 0 then 50 else if limit > 200 then 200 else limit
  }

  // ----- walking a list that does not change -----

  /** Every item has its own non-empty name. */
  ghost predicate Named<T>(items: seq<T>, id: T -> string) {
    (forall x | x in items :: id(x) != "") && DistinctKeys(items, id)
  }

  lemma StartBehind<T>(items: seq<T>, id: T -> string, end: nat)
    requires Named(items, id) && 0 < end <= |items|
    ensures Start(items, id(items[end - 1]), id) == end
  {
    assert items[end - 1] in items;
    BehindIsFirst(items, id(items[end - 1]), id, end - 1);
  }

  lemma NamedBehind<T>(items: seq<T>, id: T -> string, end: nat)
    requires Named(items, id) && 0 < end <= |items|
    ensures id(items[end - 1]) != "" && Start(items, id(items[end - 1]), id) == end
  {
    assert items[end - 1] in items;
    StartBehind(items, id, end);
  }

  /** All pages from `cursor` on, one after another. */
  ghost function Walk<T>(items: seq<T>, cursor: string, limit: nat, id: T -> string): seq<T>
    requires limit >= 1 && Named(items, id)
    decreases |items| - Start(items, cursor, id)
  {
    var page := PageOf(items, cursor, limit, id);
    if page.next == "" then page.items
    else
      StartBehind(items, id, Start(items, cursor, id) + limit);
      page.items + Walk(items, page.next, limit, id)
  }

  lemma {:induction false} WalkFrom<T>(items: seq<T>, cursor: string, limit: nat, id: T -> string)
    requires limit >= 1 && Named(items, id)
    ensures Walk(items, cursor, limit, id) == items[Start(items, cursor, id)..]
    decreases |items| - Start(items, cursor, id)
  {
    var start := Start(items, cursor, id);
    if start + limit < |items| {
      var next := id(items[start + limit - 1]);
      NamedBehind(items, id, start + limit);
      WalkFrom(items, next, limit, id);
      assert Walk(items, cursor, limit, id) == items[start..start + limit] + Walk(items, next, limit, id);
      Halves(items, start, start + limit);
    }
  }

  lemma Halves<T>(s: seq<T>, a: nat, b: nat)
    requires a <= b <= |s|
    ensures s[a..] == s[a..b] + s[b..]
  {
  }

  /** Following the cursors of a list that does not change ends, and the pages put together are the
      list. */
  lemma WalkIsTheList<T>(items: seq<T>, limit: nat, id: T -> string)
    requires limit >= 1 && Named(items, id)
    ensures Walk(items, "", limit, id) == items
  {
    WalkFrom(items, "", limit, id);
  }

  function Itself(s: string): string {
    s
  }

  /** Names must differ: here the second page is followed by itself for ever.  And none may be
      empty: here the walk ends after the first page. */
  lemma NamesMustDifferAndNotBeEmpty()
    ensures PageOf(["x", "x", "y"], "x", 1, Itself) == Page(["x"], "x")
    ensures PageOf(["", "y"], "", 1, Itself) == Page([""], "")
  {
    BehindIsFirst(["x", "x", "y"], "x", Itself, 0);
  }

  // ----- walking a sorted list that changes between pages -----

  /** The pages a client gets, following the cursors, if the list is `lists[0]` at the first
      request, `lists[1]` at the second, and so on. */
  function Visit(lists: seq<seq<string>>, cursor: string, limit: nat): seq<string>
    requires limit >= 1
  {
    if lists == [] then []
    else
      var page := PageOf(lists[0], cursor, limit, Itself);
      page.items + if page.next == "" then [] else Visit(lists[1..], page.next, limit)
  }

  /** The walk reaches its last page, and at every request the cursor is still listed. */
  predicate Reaches(lists: seq<seq<string>>, cursor: string, limit: nat)
    requires limit >= 1
  {
    && lists != []
    && (cursor != "" ==> cursor in lists[0])
    && var next := PageOf(lists[0], cursor, limit, Itself).next;
       next == "" || Reaches(lists[1..], next, limit)
  }

  ghost predicate AllSorted(lists: seq<seq<string>>) {
    forall l | l in lists :: Ascending(l, Itself) && "" !in l
  }

  lemma AscendingNames(l: seq<string>)
    requires Ascending(l, Itself) && "" !in l
    ensures Named(l, Itself)
  {
    forall i, j | 0 <= i < j < |l| ensures Itself(l[i]) != Itself(l[j]) {
      BeforeOnlyOneWay(l[i], l[j]);
    }
  }

  /** Where `h` lies in an ascending list, seen from position `start`. */
  lemma Splits(l: seq<string>, start: nat, cursor: string)
    requires Ascending(l, Itself) && "" !in l && start == Start(l, cursor, Itself)
    requires cursor != "" ==> cursor in l
    ensures forall k | 0 <= k < start :: !Before(cursor, l[k])
    ensures forall k | start <= k < |l| :: Before(cursor, l[k])
  {
    if cursor == "" {
      forall k | 0 <= k < |l| ensures Before(cursor, l[k]) {
        assert l[k] in l;
      }
    } else {
      AscendingNames(l);
      var i :| 0 <= i < |l| && l[i] == cursor;
      StartBehind(l, Itself, i + 1);
      forall k | 0 <= k <= i ensures !Before(cursor, l[k]) {
        if k < i {
          BeforeOnlyOneWay(l[k], cursor);
        } else {
          NotBeforeItself(cursor);
        }
      }
    }
  }

  lemma {:induction false} CountInAscending(l: seq<string>, a: nat, b: nat, h: string)
    requires Ascending(l, Itself) && a <= b <= |l|
    ensures multiset(l[a..b])[h] == if h in l[a..b] then 1 else 0
    decreases b - a
  {
    if a < b {
      CountInAscending(l, a + 1, b, h);
      assert l[a..b] == [l[a]] + l[a + 1..b];
      if h in l[a + 1..b] {
        var i :| a + 1 <= i < b && l[i] == h;
        BeforeOnlyOneWay(l[a], l[i]);
      }
    }
  }

  lemma OnSlice(l: seq<string>, start: nat, end: nat, h: string)
    requires Ascending(l, Itself) && start < end <= |l|
    ensures h in l[start..end] <==> h in l[start..] && !Before(l[end - 1], h)
  {
    if h in l[start..] {
      var i :| start <= i < |l| && l[i] == h;
      if i < end {
        assert l[start..end][i - start] == h;
        if i < end - 1 {
          BeforeOnlyOneWay(h, l[end - 1]);
        } else {
          NotBeforeItself(h);
        }
      } else if h in l[start..end] {
        var j :| start <= j < end && l[j] == h;
        BeforeOnlyOneWay(l[j], l[i]);
      }
    }
  }

  lemma OnRest(l: seq<string>, cursor: string, h: string)
    requires Ascending(l, Itself) && "" !in l && (cursor != "" ==> cursor in l)
    ensures h in l[Start(l, cursor, Itself)..] <==> h in l && Before(cursor, h)
  {
    var start := Start(l, cursor, Itself);
    Splits(l, start, cursor);
    if h in l {
      var i :| 0 <= i < |l| && l[i] == h;
      if start <= i {
        assert l[start..][i - start] == h;
      }
    }
  }

  /** On the page that starts at `cursor` there are, of the names behind `cursor`, exactly those up
      to `next`, each once. */
  lemma OnPage(l: seq<string>, cursor: string, limit: nat, h: string)
    requires limit >= 1 && Ascending(l, Itself) && "" !in l && (cursor != "" ==> cursor in l)
    ensures var page := PageOf(l, cursor, limit, Itself);
            multiset(page.items)[h]
            == if h in l && Before(cursor, h) && (page.next == "" || !Before(page.next, h)) then 1 else 0
  {
    hide Ascending, Start, Before, PageOf;
    var start := Start(l, cursor, Itself);
    OnRest(l, cursor, h);
    if start + limit < |l| {
      MiddlePage(l, cursor, limit);
      assert l[start + limit - 1] in l;
      OnSlice(l, start, start + limit, h);
      CountInAscending(l, start, start + limit, h);
    } else {
      LastPage(l, cursor, limit);
      assert l[start..|l|] == l[start..];
      CountInAscending(l, start, |l|, h);
    }
  }

  lemma MiddlePage(l: seq<string>, cursor: string, limit: nat)
    requires limit >= 1 && Start(l, cursor, Itself) + limit < |l|
    ensures var start, page := Start(l, cursor, Itself), PageOf(l, cursor, limit, Itself);
            page == Page(l[start..start + limit], l[start + limit - 1])
  {
  }

  lemma LastPage(l: seq<string>, cursor: string, limit: nat)
    requires limit >= 1 && Start(l, cursor, Itself) + limit >= |l|
    ensures PageOf(l, cursor, limit, Itself) == Page(l[Start(l, cursor, Itself)..|l|], "")
  {
  }

  lemma NextIsListed(l: seq<string>, cursor: string, limit: nat)
    requires limit >= 1 && Ascending(l, Itself) && "" !in l && (cursor != "" ==> cursor in l)
    requires PageOf(l, cursor, limit, Itself).next != ""
    ensures Before(cursor, PageOf(l, cursor, limit, Itself).next)
  {
    Splits(l, Start(l, cursor, Itself), cursor);
  }

  lemma {:induction false} EachAtMostOnceBehind(lists: seq<seq<string>>, cursor: string, limit: nat, h: string)
    requires limit >= 1 && AllSorted(lists) && Reaches(lists, cursor, limit)
    ensures multiset(Visit(lists, cursor, limit))[h] <= 1
    ensures !Before(cursor, h) ==> multiset(Visit(lists, cursor, limit))[h] == 0
    ensures Before(cursor, h) && (forall l | l in lists :: h in l)
            ==> multiset(Visit(lists, cursor, limit))[h] == 1
    decreases |lists|
  {
    hide PageOf;
    var l := lists[0];
    assert l in lists;
    var page := PageOf(l, cursor, limit, Itself);
    OnPage(l, cursor, limit, h);
    if page.next == "" {
      assert Visit(lists, cursor, limit) == page.items;
    } else {
      NextIsListed(l, cursor, limit);
      if Before(page.next, h) {
        BeforeIsTransitive(cursor, page.next, h);
      }
      assert forall k | k in lists[1..] :: k in lists;
      EachAtMostOnceBehind(lists[1..], page.next, limit, h);
      assert Visit(lists, cursor, limit) == page.items + Visit(lists[1..], page.next, limit);
    }
  }
}
