/** How long a silent node can stay online, and when the offline callbacks are made. */
module SilentNodes {
  import opened Tunnel
  import opened RegistryTable
  import opened Connections
  import opened ConnectionTheorems

  // ----- a bound on silence -----

  /** How long ago the record a step puts into the registry was stamped. */
  function Delay(st: State, e: Event): int
    requires Can(st, e)
  {
    if Puts(st, e).Some? then st.now - Puts(st, e).value.lastHeartbeat else 0
  }

  /** The last check was at `last`: checks come at most `period` apart, and a registration takes at most
      `delay` from reading the clock to the registry. */
  ghost predicate Timely(st: State, es: seq<Event>, last: int, period: int, delay: int)
    requires Run(st, es)
    decreases |es|
  {
    && st.now - last <= period
    && (|| es == []
        || (&& Delay(st, es[0]) <= delay
            && Timely(Next(st, es[0]), es[1..], if es[0].Check? then st.now else last, period, delay)))
  }

  function Max(a: int, b: int): int {
    if a < b then b else a
  }

  /** Nothing online was already older than `slack` at the last check. */
  predicate FreshAtCheck(st: State, last: int, slack: int) {
    last <= st.now && forall h | h in st.table && st.table[h].online :: st.table[h].lastHeartbeat >= last - slack
  }

  lemma FreshKept(st: State, e: Event, last: int, slack: int)
    requires FreshAtCheck(st, last, slack) && Can(st, e) && Delay(st, e) <= slack && 0 <= slack && st.timeout <= slack
    ensures FreshAtCheck(Next(st, e), if e.Check? then st.now else last, slack)
  {
    forall h | h in Next(st, e).table && Next(st, e).table[h].online
      ensures Next(st, e).table[h].lastHeartbeat >= (if e.Check? then st.now else last) - slack
    {
      FreshOneKept(st, e, last, slack, h);
    }
  }

  lemma FreshOneKept(st: State, e: Event, last: int, slack: int, h: Host)
    requires FreshAtCheck(st, last, slack) && Can(st, e) && Delay(st, e) <= slack && 0 <= slack && st.timeout <= slack
    requires h in Next(st, e).table && Next(st, e).table[h].online
    ensures Next(st, e).table[h].lastHeartbeat >= (if e.Check? then st.now else last) - slack
  {
  }

  lemma {:induction false} AgeIsBounded(st: State, es: seq<Event>, last: int, period: int, delay: int, h: Host)
    requires FreshAtCheck(st, last, Max(st.timeout, delay)) && st.timeout >= 0
    requires Run(st, es) && Timely(st, es, last, period, delay)
    requires h in After(st, es).table && After(st, es).table[h].online
    ensures After(st, es).now - After(st, es).table[h].lastHeartbeat <= Max(st.timeout, delay) + period
    decreases |es|
  {
    if es != [] {
      FreshKept(st, es[0], last, Max(st.timeout, delay));
      AgeIsBounded(Next(st, es[0]), es[1..], if es[0].Check? then st.now else last, period, delay, h);
    }
  }

  /** If checks come at most `period` apart, from the start on, and registrations are no slower than the
      timeout, no record is online more than timeout plus period after its last heartbeat.  With
      slower registrations their delay takes the timeout's place. */
  lemma SilenceIsBounded(st: State, es: seq<Event>, period: int, delay: int, h: Host)
    requires Started(st) && st.timeout >= 0
    requires Run(st, es) && Timely(st, es, st.now, period, delay)
    requires var end := After(st, es); h in end.table && end.table[h].online
    ensures After(st, es).now - After(st, es).table[h].lastHeartbeat <= Max(st.timeout, delay) + period
  {
    AgeIsBounded(st, es, st.now, period, delay, h);
  }

  /** A record goes offline only by a check, and exactly if it is older than the timeout then. */
  lemma OfflineMeansOld(st: State, e: Event, h: Host)
    requires Ownership(st) && Can(st, e) && h in st.table && st.table[h].online && h in Next(st, e).table
    ensures !Next(st, e).table[h].online <==> e.Check? && st.now - st.table[h].lastHeartbeat > st.timeout
  {
    RouteIsNotRejected(st, e, h);
    StepOnRecord(st, e, h);
  }

  // ----- offline callbacks -----

  /** The hosts the offline callbacks are called with. */
  function Called(st: State, e: Event): set<Host>
    requires Can(st, e)
  {
    if e.Check? then JustOffline(st.table, st.now, st.timeout) else {}
  }

  /** The step processes a heartbeat or a registration of `h`. */
  predicate Hears(st: State, e: Event, h: Host)
    requires Can(st, e)
  {
    || PutsFor(st, e, h)
    || (e.Beat? && st.handlers[e.s].req.host == h)
    || (e.Refresh? && st.handlers[e.s].doing.host == h)
  }

  ghost predicate Silent(st: State, es: seq<Event>, h: Host)
    requires Run(st, es)
    decreases |es|
  {
    es == [] || (!Hears(st, es[0], h) && Silent(Next(st, es[0]), es[1..], h))
  }

  predicate NotOnline(t: Table, h: Host) {
    h in t ==> !t[h].online
  }

  lemma StaysOffline(st: State, e: Event, h: Host)
    requires NotOnline(st.table, h) && Can(st, e) && !Hears(st, e, h)
    ensures NotOnline(Next(st, e).table, h)
  {
    if h !in st.table {
      StepOnNoRecord(st, e, h);
    }
  }

  lemma {:induction false} StaysOfflineAlong(st: State, es: seq<Event>, h: Host)
    requires NotOnline(st.table, h) && Run(st, es) && Silent(st, es, h)
    ensures NotOnline(After(st, es).table, h)
    decreases |es|
  {
    if es != [] {
      StaysOffline(st, es[0], h);
      StaysOfflineAlong(Next(st, es[0]), es[1..], h);
    }
  }

  /** Two offline callbacks for one host are always separated by a heartbeat or a registration of
      it, whatever connections close and open in between. */
  lemma CallbacksAreSeparated(st: State, es: seq<Event>, h: Host)
    requires Can(st, Check) && h in Called(st, Check)
    requires Run(Next(st, Check), es)
    requires h in Called(After(Next(st, Check), es), Check)
    ensures !Silent(Next(st, Check), es, h)
  {
    if Silent(Next(st, Check), es, h) {
      StaysOfflineAlong(Next(st, Check), es, h);
      assert false;
    }
  }
}
