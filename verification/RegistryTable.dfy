/** The registry of connected nodes, used alike by the center and by a proxy. */
module RegistryTable {
  import opened Tunnel

  /** A record as a value.  `route` is the stream the record's node is reached on. */
  datatype Record = Record(
    host: Host, nodeType: string, path: seq<Host>,
    registeredAt: int, lastHeartbeat: int, online: bool, route: nat)

  type Table = map<Host, Record>

  predicate Keyed(t: Table) {
    forall h | h in t :: t[h].host == h
  }

  function Registered(t: Table, r: Record): Table {
    t[r.host := r]
  }

  function Unregistered(t: Table, h: Host): Table {
    t - {h}
  }

  function WithoutRoute(t: Table, s: nat): Table {
    map h | h in t && t[h].route != s :: t[h]
  }

  function Refreshed(t: Table, h: Host, now: int): Table {
    if h in t then t[h := t[h].(lastHeartbeat := now, online := true)] else t
  }

  predicate Stale(r: Record, now: int, timeout: int) {
    r.online && now - r.lastHeartbeat > timeout
  }

  function Expired(t: Table, now: int, timeout: int): Table {
    map h | h in t :: if Stale(t[h], now, timeout) then t[h].(online := false) else t[h]
  }

  function JustOffline(t: Table, now: int, timeout: int): set<Host> {
    set h | h in t && Stale(t[h], now, timeout)
  }

  lemma JustOfflineMeans(t: Table, now: int, timeout: int)
    ensures forall h :: h in JustOffline(t, now, timeout) <==>
              h in t && t[h].online && now - t[h].lastHeartbeat > timeout
  {
  }

  function RoutedOn(t: Table, s: nat): set<Host> {
    set h | h in t && t[h].route == s
  }

  /** The state of the sweep when the hosts in `rest` are still to come: the table, and the hosts
      marked so far. */
  function HalfExpired(t: Table, rest: set<Host>, now: int, timeout: int): Table {
    map h | h in t :: if h !in rest && Stale(t[h], now, timeout) then t[h].(online := false) else t[h]
  }

  function HalfMarked(t: Table, rest: set<Host>, now: int, timeout: int): set<Host> {
    set h | h in t && h !in rest && Stale(t[h], now, timeout)
  }

  lemma SweepStart(t: Table, now: int, timeout: int)
    ensures HalfExpired(t, t.Keys, now, timeout) == t
    ensures HalfMarked(t, t.Keys, now, timeout) == {}
  {
  }

  lemma SweepEnd(t: Table, now: int, timeout: int)
    ensures HalfExpired(t, {}, now, timeout) == Expired(t, now, timeout)
    ensures HalfMarked(t, {}, now, timeout) == JustOffline(t, now, timeout)
  {
  }

  lemma SweepOne(t: Table, rest: set<Host>, h: Host, now: int, timeout: int)
    requires h in rest && rest <= t.Keys
    ensures var half := HalfExpired(t, rest, now, timeout);
            h in half && half[h] == t[h] && half.Keys == t.Keys
            && HalfExpired(t, rest - {h}, now, timeout)
               == (if Stale(t[h], now, timeout) then half[h := half[h].(online := false)] else half)
    ensures var marked := HalfMarked(t, rest, now, timeout);
            h !in marked
            && HalfMarked(t, rest - {h}, now, timeout)
               == (if Stale(t[h], now, timeout) then marked + {h} else marked)
  {
  }

  /** `q` holds the members of `s`, each once, in whatever order a map is ranged over. */
  ghost predicate Lists(q: seq<Host>, s: set<Host>) {
    multiset(q) == multiset(s)
  }

  lemma ListsMembers(q: seq<Host>, s: set<Host>)
    requires Lists(q, s)
    ensures forall h :: h in q <==> h in s
    ensures forall i, j | 0 <= i < j < |q| :: q[i] != q[j]
  {
    forall h ensures h in q <==> h in s {
      assert h in multiset(q) <==> h in multiset(s);
    }
    forall i, j | 0 <= i < j < |q| ensures q[i] != q[j] {
      assert q == q[..j] + [q[j]] + q[j + 1..];
      assert q[i] in q[..j] && q[i] in multiset(q[..j]);
      assert multiset(q) == multiset(q[..j]) + multiset{q[j]} + multiset(q[j + 1..]);
      assert multiset(s)[q[j]] <= 1;
    }
  }

  lemma ListsNone()
    ensures Lists([], {})
  {
  }

  lemma ListsOneMore(q: seq<Host>, s: set<Host>, h: Host)
    requires Lists(q, s) && h !in s
    ensures Lists(q + [h], s + {h})
  {
  }

  function OnlineHosts(t: Table): set<Host> {
    set h | h in t && t[h].online
  }

  // ----- when the online-nodes metric goes stale -----

  lemma SmallerCount(a: set<Host>, b: set<Host>)
    requires a <= b
    ensures |a| == |b| <==> a == b
  {
    assert b == a + (b - a);
    assert |b| == |a| + |b - a|;
  }

  /** Unregistering a host, ending a stream and a heartbeat do not set the metric, so it stops
      being the number of online records exactly when they take away or revive an online one. */
  lemma MetricLags(t: Table, h: Host, s: nat, now: int)
    ensures |OnlineHosts(Unregistered(t, h))| == |OnlineHosts(t)| <==> !(h in t && t[h].online)
    ensures |OnlineHosts(WithoutRoute(t, s))| == |OnlineHosts(t)|
            <==> forall k | k in t && t[k].route == s :: !t[k].online
    ensures |OnlineHosts(Refreshed(t, h, now))| == |OnlineHosts(t)| <==> !(h in t && !t[h].online)
  {
    SmallerCount(OnlineHosts(Unregistered(t, h)), OnlineHosts(t));
    SmallerCount(OnlineHosts(WithoutRoute(t, s)), OnlineHosts(t));
    SmallerCount(OnlineHosts(t), OnlineHosts(Refreshed(t, h, now)));
    assert h in OnlineHosts(t) <==> h in t && t[h].online;
    forall k ensures k in OnlineHosts(t) && k !in OnlineHosts(WithoutRoute(t, s))
                     <==> k in t && t[k].online && t[k].route == s {
    }
    assert h in OnlineHosts(Refreshed(t, h, now)) <==> h in t;
  }
}
