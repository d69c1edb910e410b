/** The agent's path guard: prefix tests on strings that come down to prefix tests on components. */
module PathGuard {

  /** A cleaned absolute path, seen as its components. */
  type Path = seq<string>

  predicate Clean(p: Path) {
    forall c | c in p :: c != "" && '/' !in c
  }

  /** The path as a string; the root is "/". */
  function Render(p: Path): string {
    if p == [] then "/" else Parts(p)
  }

  function Parts(p: Path): string {
    if p == [] then "" else "/" + p[0] + Parts(p[1..])
  }

  /** The string with a separator at its end. */
  function WithSeparator(s: string): string {
    if s != "" && s[|s| - 1] == '/' then s else s + "/"
  }

  /** Component by component: `a` is an ancestor of `p`, or `p` itself. */
  predicate Above(a: Path, p: Path) {
    a <= p
  }

  lemma CleanRest(p: Path)
    requires Clean(p) && p != []
    ensures Clean(p[1..]) && p[0] != "" && '/' !in p[0]
  {
    assert p[0] in p;
    forall c | c in p[1..] ensures c in p {
    }
  }

  lemma {:induction false} PartsEnd(p: Path)
    requires Clean(p) && p != []
    ensures Parts(p) != "" && Parts(p)[|Parts(p)| - 1] != '/'
  {
    CleanRest(p);
    if |p| == 1 {
      assert p[1..] == [];
      assert p[0][|p[0]| - 1] in p[0];
    } else {
      PartsEnd(p[1..]);
    }
  }

  lemma Slashed(p: Path)
    requires Clean(p)
    ensures WithSeparator(Render(p)) == Parts(p) + "/"
  {
    if p != [] {
      PartsEnd(p);
    }
  }

  /** Two strings that start with a component agree on it exactly if one is a prefix of the other
      there: a component ends at the next separator. */
  lemma FirstComponent(c: string, x: string, d: string, y: string)
    requires '/' !in c && '/' !in d && |x| > 0 && |y| > 0 && x[0] == '/' && y[0] == '/'
    ensures "/" + (c + x) <= "/" + (d + y) <==> c == d && x <= y
  {
    var s, t := "/" + (c + x), "/" + (d + y);
    if s <= t {
      var k := if |c| <= |d| then |c| else |d|;
      assert s[k + 1] == t[k + 1];
      assert |c| == |d|;
      assert s[1..][..|c|] == c && t[1..][..|c|] == d;
      assert s[1..][|c|..] == x && t[1..][|c|..] == y;
    }
  }

  lemma PartsOf(p: Path)
    requires p != []
    ensures Parts(p) + "/" == "/" + (p[0] + (Parts(p[1..]) + "/"))
  {
  }

  lemma PartsStart(p: Path)
    ensures (Parts(p) + "/")[0] == '/'
  {
  }

  lemma {:induction false} PrefixIsComponentwise(a: Path, p: Path)
    requires Clean(a) && Clean(p)
    ensures Parts(a) + "/" <= Parts(p) + "/" <==> Above(a, p)
  {
    PartsStart(p);
    if a != [] {
      CleanRest(a);
      PartsOf(a);
      PartsStart(a[1..]);
      if p == [] {
        assert |Parts(a) + "/"| > |Parts(p) + "/"|;
      } else {
        CleanRest(p);
        PartsOf(p);
        PartsStart(p[1..]);
        PrefixIsComponentwise(a[1..], p[1..]);
        FirstComponent(a[0], Parts(a[1..]) + "/", p[0], Parts(p[1..]) + "/");
        assert a == [a[0]] + a[1..] && p == [p[0]] + p[1..];
      }
    }
  }

  /** The string test is the component test, whichever of the two paths is the root. */
  lemma PrefixTest(a: Path, p: Path)
    requires Clean(a) && Clean(p)
    ensures WithSeparator(Render(a)) <= WithSeparator(Render(p)) <==> Above(a, p)
  {
    Slashed(a);
    Slashed(p);
    PrefixIsComponentwise(a, p);
  }

  /** Paths are absolute, end with a separator only at the root, and say which components they have. */
  lemma RenderedPath(p: Path, q: Path)
    requires Clean(p) && Clean(q)
    ensures Render(p) != "" && Render(p)[0] == '/'
    ensures Render(p)[|Render(p)| - 1] == '/' <==> p == []
    ensures Render(p) == Render(q) <==> p == q
  {
    if p != [] {
      PartsEnd(p);
    }
    if Render(p) == Render(q) {
      PrefixTest(p, q);
      PrefixTest(q, p);
    }
  }

  predicate AllClean(ps: seq<Path>) {
    forall p | p in ps :: Clean(p)
  }

  class Guard {
    var allowed: seq<string>
    var blocked: seq<string>

    predicate Guards(allowed: seq<Path>, blocked: seq<Path>)
      reads this
    {
      Stored(this.allowed, allowed) && Stored(this.blocked, blocked)
    }

    static predicate Stored(prefixes: seq<string>, ps: seq<Path>) {
      && |prefixes| == |ps| && AllClean(ps)
      && forall i | 0 <= i < |ps| :: prefixes[i] == WithSeparator(Render(ps[i]))
    }

    static method Prefixes(ps: seq<Path>) returns (prefixes: seq<string>)
      requires AllClean(ps)
      ensures Stored(prefixes, ps)
    {
      prefixes := [];
      for i := 0 to |ps|
        invariant |prefixes| == i
        invariant forall k | 0 <= k < i :: prefixes[k] == WithSeparator(Render(ps[k]))
      {
        prefixes := prefixes + [WithSeparator(Render(ps[i]))];
      }
    }

    constructor (allowed: seq<Path>, blocked: seq<Path>)
      requires AllClean(allowed) && AllClean(blocked)
      ensures Guards(allowed, blocked)
    {
      var a := Prefixes(allowed);
      var b := Prefixes(blocked);
      this.allowed, this.blocked := a, b;
    }

    static method AnyPrefix(prefixes: seq<string>, candidate: string, ghost ps: seq<Path>, ghost p: Path)
      returns (found: bool)
      requires Stored(prefixes, ps) && Clean(p) && candidate == WithSeparator(Render(p))
      ensures found <==> exists a :: a in ps && Above(a, p)
    {
      for i := 0 to |prefixes|
        invariant forall k | 0 <= k < i :: !Above(ps[k], p)
      {
        assert ps[i] in ps;
        PrefixTest(ps[i], p);
        if prefixes[i] <= candidate {
          return true;
        }
      }
      found := false;
    }

    /** A path is refused exactly if it lies at or below a blocked path, or there are allowed paths
        and it lies at or below none of them. */
    method Check(path: string, ghost p: Path, ghost allowedPaths: seq<Path>, ghost blockedPaths: seq<Path>)
      returns (ok: bool)
      requires Guards(allowedPaths, blockedPaths) && Clean(p) && path == Render(p)
      ensures ok <==> (forall b | b in blockedPaths :: !(b <= p))
                      && (allowedPaths == [] || exists a :: a in allowedPaths && a <= p)
    {
      var candidate := WithSeparator(path);
      var hit := AnyPrefix(blocked, candidate, blockedPaths, p);
      if hit {
        return false;
      }
      if |allowed| == 0 {
        return true;
      }
      ok := AnyPrefix(allowed, candidate, allowedPaths, p);
    }
  }
}
