/** The registry as the program keeps it: a map of shared records that are updated in place. */
module NodeRegistry {
  import opened Tunnel
  import opened RegistryTable

  /** Records are shared: `Lookup` hands out the object itself, whose status and heartbeat go on
      changing. */
  class AgentRecord {
    const host: Host
    const nodeType: string
    const path: seq<Host>
    const registeredAt: int
    const route: nat
    var lastHeartbeat: int
    var online: bool

    constructor (r: Record)
      ensures View() == r
    {
      host, nodeType, path, registeredAt, route := r.host, r.nodeType, r.path, r.registeredAt, r.route;
      lastHeartbeat, online := r.lastHeartbeat, r.online;
    }

    function View(): Record
      reads this
    {
      Record(host, nodeType, path, registeredAt, lastHeartbeat, online, route)
    }
  }

  class Registry {
    var records: map<Host, AgentRecord>
    var gauge: nat  // the online-nodes metric
    ghost var Contents: Table

    ghost predicate Valid()
      reads this, records.Values
    {
      && records.Keys == Contents.Keys
      && Keyed(Contents)
      && forall h | h in records :: records[h].View() == Contents[h]
    }

    constructor ()
      ensures Valid() && Contents == map[] && gauge == 0
    {
      records, gauge, Contents := map[], 0, map[];
    }

    method OnlineCount() returns (n: nat)
      requires Valid()
      ensures n == |OnlineHosts(Contents)|
    {
      n := 0;
      var rest := records.Keys;
      ghost var counted: set<Host> := {};
      while rest != {}
        invariant rest <= records.Keys
        invariant forall h :: h in counted <==> h in Contents && h !in rest && Contents[h].online
        invariant n == |counted|
        decreases |rest|
      {
        var h :| h in rest;
        rest := rest - {h};
        if records[h].online {
          n := n + 1;
          counted := counted + {h};
        }
      }
      assert counted == OnlineHosts(Contents);
    }

    method SetGauge()
      requires Valid()
      modifies this`gauge
      ensures Valid() && gauge == |OnlineHosts(Contents)|
    {
      gauge := OnlineCount();
    }

    method Register(rec: AgentRecord)
      requires Valid()
      modifies this
      ensures Valid() && Contents == Registered(old(Contents), rec.View())
      ensures records == old(records)[rec.host := rec]
      ensures gauge == |OnlineHosts(Contents)|
    {
      records := records[rec.host := rec];
      Contents := Registered(Contents, rec.View());
      SetGauge();
    }

    method Unregister(h: Host)
      requires Valid()
      modifies this
      ensures Valid() && Contents == Unregistered(old(Contents), h)
      ensures records.Values <= old(records.Values)
      ensures gauge == old(gauge)
    {
      records := records - {h};
      Contents := Unregistered(Contents, h);
    }

    function Hosts(): (s: set<Host>)
      requires Valid()
      reads this, records.Values
      ensures s == Contents.Keys
    {
      records.Keys
    }

    method Lookup(h: Host) returns (rec: AgentRecord?)
      requires Valid()
      ensures rec == null <==> h !in Contents
      ensures rec != null ==> h in records && rec == records[h] && rec.View() == Contents[h] && rec.host == h
    {
      rec := if h in records then records[h] else null;
    }

    method UnregisterByStream(s: nat) returns (removed: seq<Host>)
      requires Valid()
      modifies this
      ensures Valid() && Contents == WithoutRoute(old(Contents), s)
      ensures records.Values <= old(records.Values)
      ensures Lists(removed, RoutedOn(old(Contents), s))
      ensures forall h :: h in removed <==> h in old(Contents) && old(Contents)[h].route == s
      ensures gauge == old(gauge)
    {
      hide Valid, Lists;
      removed := [];
      var rest := Hosts();
      ghost var was: Table, gone: set<Host> := Contents, {};
      ListsNone();
      while rest != {}
        invariant Valid() && rest <= Contents.Keys && gauge == old(gauge)
        invariant records.Values <= old(records.Values)
        invariant forall h :: h in gone <==> h in was && h !in rest && was[h].route == s
        invariant forall h :: h in Contents <==> h in was && h !in gone
        invariant forall h | h in Contents :: Contents[h] == was[h]
        invariant Lists(removed, gone)
        decreases |rest|
      {
        var h :| h in rest;
        rest := rest - {h};
        var rec := Lookup(h);
        if rec.route == s {
          Unregister(h);
          ListsOneMore(removed, gone, h);
          removed, gone := removed + [h], gone + {h};
        }
      }
      assert gone == RoutedOn(was, s);
      ListsMembers(removed, gone);
      assert Contents == WithoutRoute(was, s);
    }

    method UpdateHeartbeat(h: Host, now: int)
      requires Valid()
      modifies this`Contents, records.Values
      ensures Valid() && Contents == Refreshed(old(Contents), h, now)
    {
      if h in records {
        records[h].lastHeartbeat := now;
        records[h].online := true;
      }
      Contents := Refreshed(Contents, h, now);
    }

    method MarkOffline(h: Host)
      requires Valid() && h in Contents
      modifies this`Contents, records.Values
      ensures Valid() && Contents == old(Contents)[h := old(Contents)[h].(online := false)]
    {
      records[h].online := false;
      Contents := Contents[h := Contents[h].(online := false)];
    }

    /** The sweep of the offline checker.  The callbacks it makes afterwards are for
        `justOffline`, once each. */
    method CheckOffline(now: int, timeout: int) returns (justOffline: seq<Host>)
      requires Valid()
      modifies this`gauge, this`Contents, records.Values
      ensures Valid() && Contents == Expired(old(Contents), now, timeout)
      ensures Lists(justOffline, JustOffline(old(Contents), now, timeout))
      ensures forall h :: h in justOffline <==>
                h in old(Contents) && old(Contents)[h].online && now - old(Contents)[h].lastHeartbeat > timeout
      ensures gauge == |OnlineHosts(Contents)|
    {
      hide Valid, Lists, HalfExpired, HalfMarked, Expired, JustOffline;
      justOffline := [];
      var rest := Hosts();
      ghost var was: Table := Contents;
      ListsNone();
      SweepStart(was, now, timeout);
      while rest != {}
        invariant Valid() && rest <= was.Keys
        invariant Contents == HalfExpired(was, rest, now, timeout)
        invariant Lists(justOffline, HalfMarked(was, rest, now, timeout))
        decreases |rest|
      {
        var h :| h in rest;
        SweepOne(was, rest, h, now, timeout);
        var rec := Lookup(h);
        if rec.online && now - rec.lastHeartbeat > timeout {
          ListsOneMore(justOffline, HalfMarked(was, rest, now, timeout), h);
          MarkOffline(h);
          justOffline := justOffline + [rec.host];
        }
        rest := rest - {h};
      }
      SweepEnd(was, now, timeout);
      ListsMembers(justOffline, JustOffline(was, now, timeout));
      JustOfflineMeans(was, now, timeout);
      SetGauge();
    }
  }
}
