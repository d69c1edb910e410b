/** The node list. */
module NodeList {
  import opened Tunnel
  import opened RegistryTable
  import opened Text
  import opened Sorting
  import opened Pagination

  /** An empty string is no filter. */
  datatype Filter = Filter(host: string, status: string)

  function StatusOf(r: Record): string {
    if r.online then "online" else "offline"
  }

  /** `h` is an agent that passes the filter. */
  predicate Shown(t: Table, f: Filter, h: Host) {
    && h in t && t[h].nodeType == "agent"
    && (f.host == "" || f.host == h)
    && (f.status == "" || f.status == if t[h].online then "online" else "offline")
  }

  /** The names of the agents that pass the filter, in ascending order. */
  ghost predicate Listing(l: seq<Host>, t: Table, f: Filter) {
    Ascending(l, Itself) && forall h :: h in l <==> Shown(t, f, h)
  }

  method ListNodes(t: Table, f: Filter, cursor: string, limit: nat) returns (page: Page<Host>)
    requires limit >= 1
    ensures exists all :: Listing(all, t, f) && page == PageOf(all, cursor, limit, Itself)
  {
    var nodes: seq<Host> := [];
    var rest := t.Keys;
    while rest != {}
      invariant rest <= t.Keys
      invariant forall h :: h in nodes <==> h !in rest && Shown(t, f, h)
      invariant DistinctKeys(nodes, Itself)
      decreases |rest|
    {
      var h :| h in rest;
      rest := rest - {h};
      if t[h].nodeType != "agent" {
        continue;
      }
      if f.host != "" && h != f.host {
        continue;
      }
      if f.status != "" && StatusOf(t[h]) != f.status {
        continue;
      }
      nodes := nodes + [h];
    }
    SortedAscending(nodes, Itself);
    forall h ensures h in SortBy(nodes, Itself) <==> h in nodes {
      SortedMembers(nodes, Itself, h);
    }
    var all := SortBy(nodes, Itself);
    assert Listing(all, t, f);
    page := Paginate(all, cursor, limit, Itself);
  }

  /** Walking the node list by its cursors, with nodes coming and going between the pages: a node
      that is listed at every request is returned exactly once, and no node twice, as long as the
      node named by each cursor is still listed and no host name is empty. */
  lemma EveryStandingNodeOnce(tables: seq<Table>, lists: seq<seq<Host>>, f: Filter, limit: nat, h: Host)
    requires limit >= 1 && |lists| == |tables| && forall t | t in tables :: "" !in t
    requires forall i | 0 <= i < |tables| :: Listing(lists[i], tables[i], f)
    requires Reaches(lists, "", limit)
    ensures multiset(Visit(lists, "", limit))[h] <= 1
    ensures (forall t | t in tables :: Shown(t, f, h)) ==> multiset(Visit(lists, "", limit))[h] == 1
  {
    forall l | l in lists ensures Ascending(l, Itself) && "" !in l {
      var i :| 0 <= i < |lists| && lists[i] == l;
      assert Listing(lists[i], tables[i], f) && tables[i] in tables;
    }
    EachAtMostOnceBehind(lists, "", limit, h);
    if forall t | t in tables :: Shown(t, f, h) {
      forall l | l in lists ensures h in l {
        var i :| 0 <= i < |lists| && lists[i] == l;
        assert Listing(lists[i], tables[i], f) && tables[i] in tables;
      }
      assert tables[0] in tables;
    }
  }
}
