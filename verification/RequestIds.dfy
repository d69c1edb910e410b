/** Request IDs as strings, and why they differ. */
module RequestIds {
  import opened Tunnel
  import FanOut
  import Protocol
  import opened ProtocolTheorems

  // ----- numbers -----

  function Digit(d: nat): char
    requires d < 10
  {
    '0' + d as char
  }

  function Decimal(n: nat): (s: string)
    ensures s != "" && '-' !in s
  {
    if n < 10 then [Digit(n)] else Decimal(n / 10) + [Digit(n % 10)]
  }

  /** A signed number, as `%d` prints it. */
  function Signed(n: int): string {
    if n < 0 then "-" + Decimal(-n) else Decimal(n)
  }

  lemma {:induction false} DecimalIsInjective(m: nat, n: nat)
    requires Decimal(m) == Decimal(n)
    ensures m == n
  {
    var s := Decimal(m);
    assert s[|s| - 1] == Digit(m % 10) == Digit(n % 10);
    if m >= 10 && n >= 10 {
      assert Decimal(m / 10) == s[..|s| - 1] == Decimal(n / 10);
      DecimalIsInjective(m / 10, n / 10);
    }
  }

  // ----- separators -----

  /** What stands before the first dash, and what behind it. */
  lemma FirstDash(a: string, x: string, b: string, y: string)
    requires '-' !in a && '-' !in b && a + "-" + x == b + "-" + y
    ensures a == b && x == y
  {
    var s := a + "-" + x;
    assert s[|a|] == '-' && s[|b|] == '-';
    assert |a| == |b|;
    assert a == s[..|a|] == b;
    assert x == s[|a| + 1..] == y;
  }

  /** What stands behind the last dash. */
  lemma LastDash(x: string, a: string, y: string, b: string)
    requires '-' !in a && '-' !in b && x + "-" + a == y + "-" + b
    ensures a == b && x == y
  {
    var s := x + "-" + a;
    assert s[|x|] == '-' && s[|y|] == '-';
    assert |x| == |y|;
    assert x == s[..|x|] == y;
    assert a == s[|x| + 1..] == b;
  }

  lemma SignShows(n: int)
    ensures Signed(n) != "" && (Signed(n)[0] == '-' <==> n < 0)
  {
    if n >= 0 {
      assert Decimal(n)[0] in Decimal(n);
    }
  }

  lemma FirstOfThree(a: string, x: string)
    requires a != ""
    ensures (a + "-" + x)[0] == a[0] && (a + "-" + x)[1..] == a[1..] + "-" + x
  {
  }

  /** Both are behind a minus sign or neither is, so the digits and the rest agree. */
  lemma DigitsThenDash(m: int, x: string, n: int, y: string)
    requires Signed(m) + "-" + x == Signed(n) + "-" + y
    ensures m < 0 <==> n < 0
    ensures Decimal(if m < 0 then -m else m) + "-" + x == Decimal(if n < 0 then -n else n) + "-" + y
  {
    hide Decimal, Signed;
    SignShows(m);
    SignShows(n);
    FirstOfThree(Signed(m), x);
    FirstOfThree(Signed(n), y);
    SignedDigits(m);
    SignedDigits(n);
  }

  lemma SignedDigits(n: int)
    ensures n < 0 ==> Signed(n) != "" && Signed(n)[1..] == Decimal(-n)
    ensures n >= 0 ==> Signed(n) == Decimal(n)
  {
    hide Decimal;
  }

  lemma SignedThenDash(m: int, x: string, n: int, y: string)
    requires Signed(m) + "-" + x == Signed(n) + "-" + y
    ensures m == n && x == y
  {
    hide Decimal, Signed;
    DigitsThenDash(m, x, n, y);
    var k, l := if m < 0 then -m else m, if n < 0 then -n else n;
    FirstDash(Decimal(k), x, Decimal(l), y);
    DecimalIsInjective(k, l);
  }

  // ----- generated IDs -----

  function Generated(prefix: string, nanos: int, counter: nat): Id {
    prefix + "-" + Signed(nanos) + "-" + Decimal(counter)
  }

  /** Generated IDs with different counters differ, whatever their prefixes and clock readings. */
  lemma CountersTellIdsApart(p: string, t: int, m: nat, q: string, u: int, n: nat)
    requires m != n
    ensures Generated(p, t, m) != Generated(q, u, n)
  {
    if Generated(p, t, m) == Generated(q, u, n) {
      LastDash(p + "-" + Signed(t), Decimal(m), q + "-" + Signed(u), Decimal(n));
      DecimalIsInjective(m, n);
      assert false;
    }
  }

  const WRAP: nat := 0x1_0000_0000_0000_0000

  /** The counter after `k` more IDs. */
  function Ticked(counter: nat, k: nat): (n: nat)
    ensures n < WRAP
  {
    (counter + k) % WRAP
  }

  lemma TickedOnce(counter: nat, k: nat)
    requires counter < WRAP
    ensures Ticked(counter, 0) == counter
    ensures Ticked(counter, k + 1) == (Ticked(counter, k) + 1) % WRAP
  {
  }

  lemma TicksDiffer(counter: nat, k: nat, m: nat)
    requires k < m < k + WRAP
    ensures Ticked(counter, k) != Ticked(counter, m)
  {
  }

  /** The process-wide counter, which wraps at 64 bits. */
  class Generator {
    var counter: nat

    predicate Valid()
      reads this
    {
      counter < WRAP
    }

    constructor ()
      ensures Valid() && counter == 0
    {
      counter := 0;
    }

    method NewRequestID(prefix: string, nanos: int) returns (id: Id)
      requires Valid()
      modifies this
      ensures Valid() && counter == (old(counter) + 1) % WRAP
      ensures id == Generated(prefix, nanos, counter)
    {
      counter := (counter + 1) % WRAP;
      id := prefix + "-" + Signed(nanos) + "-" + Decimal(counter);
    }
  }

  /** What is asked for with each ID: its prefix, and what the clock says. */
  datatype Wish = Wish(prefix: string, nanos: int)

  function Granted(wishes: seq<Wish>, from: nat): seq<Id> {
    seq(|wishes|, i requires 0 <= i < |wishes| =>
      Generated(wishes[i].prefix, wishes[i].nanos, Ticked(from, i + 1)))
  }

  /** The IDs of consecutive calls. */
  method GenerateAll(g: Generator, wishes: seq<Wish>) returns (ids: seq<Id>)
    requires g.Valid()
    modifies g
    ensures g.Valid() && ids == Granted(wishes, old(g.counter))
  {
    hide Generated, Ticked;
    ids := [];
    ghost var from := g.counter;
    TickedOnce(from, 0);
    for i := 0 to |wishes|
      invariant g.Valid() && |ids| == i && g.counter == Ticked(from, i)
      invariant forall k | 0 <= k < i :: ids[k] == Generated(wishes[k].prefix, wishes[k].nanos, Ticked(from, k + 1))
    {
      TickedOnce(from, i);
      var id := g.NewRequestID(wishes[i].prefix, wishes[i].nanos);
      ids := ids + [id];
    }
  }

  /** As long as the counter has not come round, all generated IDs are different, whatever the clock
      does. */
  lemma GeneratedIdsAreDifferent(wishes: seq<Wish>, from: nat)
    requires |wishes| <= WRAP
    ensures AllDifferent(Granted(wishes, from))
  {
    hide Generated, Ticked;
    var ids := Granted(wishes, from);
    forall i, j | 0 <= i < j < |ids| ensures ids[i] != ids[j] {
      TicksDiffer(from, i + 1, j + 1);
      CountersTellIdsApart(wishes[i].prefix, wishes[i].nanos, Ticked(from, i + 1),
                           wishes[j].prefix, wishes[j].nanos, Ticked(from, j + 1));
    }
  }

  // ----- the calls of invocations -----

  /** One tool call of an invocation, whose ID is generated from a clock reading and the counter.  A
      template call appends its node to that ID, a builtin call uses it as it is, so the targets of
      one builtin invocation are all the same `Builtin` value. */
  datatype InvocationCall =
    | Template(nanos: int, counter: nat, node: Host)
    | Builtin(nanos: int, counter: nat)

  function InvocationId(c: InvocationCall): Id {
    Generated("inv", c.nanos, c.counter)
  }

  function CallId(c: InvocationCall): Id {
    match c
    case Template(_, _, node) => InvocationId(c) + "-" + node
    case Builtin(_, _) => InvocationId(c)
  }

  /** What follows the clock reading. */
  function Tail(c: InvocationCall): string {
    match c
    case Template(_, counter, node) => Decimal(counter) + "-" + node
    case Builtin(_, counter) => Decimal(counter)
  }

  lemma CallIdParts(c: InvocationCall)
    ensures CallId(c) == "inv" + "-" + (Signed(c.nanos) + "-" + Tail(c))
  {
  }

  lemma TailDecodes(a: InvocationCall, b: InvocationCall)
    requires Tail(a) == Tail(b) && a.nanos == b.nanos
    ensures a == b
  {
    if a.Template? && b.Template? {
      FirstDash(Decimal(a.counter), a.node, Decimal(b.counter), b.node);
    } else if a.Template? {
      DashInside(a);
    } else if b.Template? {
      DashInside(b);
    }
    DecimalIsInjective(a.counter, b.counter);
  }

  lemma DashInside(c: InvocationCall)
    requires c.Template?
    ensures '-' in Tail(c)
  {
    assert Tail(c)[|Decimal(c.counter)|] == '-';
  }

  /** Kind, invocation and node can be read off the ID, whatever the clock says and the node is
      called: different calls have different IDs. */
  lemma CallIdDecodes(a: InvocationCall, b: InvocationCall)
    requires CallId(a) == CallId(b)
    ensures a == b
  {
    hide Signed, Decimal, Tail, CallId;
    CallIdParts(a);
    CallIdParts(b);
    FirstDash("inv", Signed(a.nanos) + "-" + Tail(a), "inv", Signed(b.nanos) + "-" + Tail(b));
    SignedThenDash(a.nanos, Tail(a), b.nanos, Tail(b));
    TailDecodes(a, b);
  }

  predicate DifferentCalls(calls: seq<InvocationCall>) {
    forall i, j | 0 <= i < j < |calls| :: calls[i] != calls[j]
  }

  function CallIds(calls: seq<InvocationCall>): seq<Id> {
    seq(|calls|, i requires 0 <= i < |calls| => CallId(calls[i]))
  }

  /** The IDs of a list of calls are all different exactly if the calls are: templates may fan out to
      any number of different nodes, a builtin may not fan out at all. */
  lemma CallIdsAreDifferent(calls: seq<InvocationCall>)
    ensures AllDifferent(CallIds(calls)) <==> DifferentCalls(calls)
  {
    var ids := CallIds(calls);
    forall i, j | 0 <= i < j < |calls| ensures ids[i] == ids[j] <==> calls[i] == calls[j] {
      if CallId(calls[i]) == CallId(calls[j]) {
        CallIdDecodes(calls[i], calls[j]);
      }
    }
  }

  // ----- the calls of a run -----

  /** An invocation: its ID is the one generated `tick` IDs after the start of the process, and it
      names its targets. */
  datatype Invocation = Invocation(template: bool, nanos: int, tick: nat, names: seq<string>)

  /** The calls of one invocation, one for each of its targets. */
  function CallsOf(inv: Invocation): seq<InvocationCall> {
    var targets, counter := FanOut.Targets(inv.names), Ticked(0, inv.tick);
    seq(|targets|, i requires 0 <= i < |targets| =>
      if inv.template then Template(inv.nanos, counter, targets[i]) else Builtin(inv.nanos, counter))
  }

  function AllCalls(invs: seq<Invocation>): seq<InvocationCall> {
    if invs == [] then [] else AllCalls(invs[..|invs| - 1]) + CallsOf(invs[|invs| - 1])
  }

  /** The invocations come one after another, before the counter has come round. */
  predicate Numbered(invs: seq<Invocation>) {
    forall i, j | 0 <= i < j < |invs| :: invs[i].tick < invs[j].tick < WRAP
  }

  predicate OneTarget(inv: Invocation) {
    |FanOut.Targets(inv.names)| <= 1
  }

  /** Within one invocation the calls differ, unless it is a builtin with several targets. */
  lemma CallsOfOneDiffer(inv: Invocation)
    ensures DifferentCalls(CallsOf(inv)) <==> inv.template || OneTarget(inv)
  {
    var calls, targets := CallsOf(inv), FanOut.Targets(inv.names);
    FanOut.TargetsAreTheNames(inv.names, "");
    if !inv.template && !OneTarget(inv) {
      assert calls[0] == calls[1];
    }
  }

  lemma {:induction false} CallsHaveCounters(invs: seq<Invocation>, c: InvocationCall)
    requires c in AllCalls(invs)
    ensures exists k :: 0 <= k < |invs| && c.counter == Ticked(0, invs[k].tick)
  {
    var n := |invs| - 1;
    if c in CallsOf(invs[n]) {
      assert c.counter == Ticked(0, invs[n].tick);
    } else {
      CallsHaveCounters(invs[..n], c);
      var k :| 0 <= k < n && c.counter == Ticked(0, invs[..n][k].tick);
      assert c.counter == Ticked(0, invs[k].tick);
    }
  }

  lemma DifferentTogether(a: seq<InvocationCall>, b: seq<InvocationCall>)
    requires forall x, y | x in a && y in b :: x != y
    ensures DifferentCalls(a + b) <==> DifferentCalls(a) && DifferentCalls(b)
  {
    if DifferentCalls(a + b) {
      forall i, j | 0 <= i < j < |a| ensures a[i] != a[j] {
        assert (a + b)[i] != (a + b)[j];
      }
      forall i, j | 0 <= i < j < |b| ensures b[i] != b[j] {
        assert (a + b)[|a| + i] != (a + b)[|a| + j];
      }
    }
    if DifferentCalls(a) && DifferentCalls(b) {
      forall i, j | 0 <= i < j < |a + b| ensures (a + b)[i] != (a + b)[j] {
        assert i < |a| <= j ==> a[i] in a && b[j - |a|] in b;
      }
    }
  }

  /** Calls of the last of numbered invocations have another counter than those before. */
  lemma LastCallsApart(invs: seq<Invocation>, x: InvocationCall, y: InvocationCall)
    requires Numbered(invs) && invs != []
    requires x in AllCalls(invs[..|invs| - 1]) && y in CallsOf(invs[|invs| - 1])
    ensures x != y
  {
    hide CallsOf, AllCalls, Ticked;
    var before, last := invs[..|invs| - 1], invs[|invs| - 1];
    CallsHaveCounters(before, x);
    var k :| 0 <= k < |before| && x.counter == Ticked(0, before[k].tick);
    CountersOf(last, y);
    TicksDiffer(0, invs[k].tick, last.tick);
  }

  /** All calls of numbered invocations differ exactly if every builtin has at most one target. */
  lemma {:induction false} AllCallsDiffer(invs: seq<Invocation>)
    requires Numbered(invs)
    ensures DifferentCalls(AllCalls(invs)) <==> forall inv | inv in invs :: inv.template || OneTarget(inv)
  {
    if invs != [] {
      hide CallsOf, OneTarget, DifferentCalls;
      var before, last := invs[..|invs| - 1], invs[|invs| - 1];
      AllCallsDiffer(before);
      CallsOfOneDiffer(last);
      forall x, y | x in AllCalls(before) && y in CallsOf(last) ensures x != y {
        LastCallsApart(invs, x, y);
      }
      DifferentTogether(AllCalls(before), CallsOf(last));
      assert AllCalls(invs) == AllCalls(before) + CallsOf(last);
      assert invs == before + [last];
      assert forall inv :: inv in invs <==> inv in before || inv == last;
    }
  }

  lemma CountersOf(inv: Invocation, c: InvocationCall)
    requires c in CallsOf(inv)
    ensures c.counter == Ticked(0, inv.tick)
  {
  }

  lemma {:induction false} CountOfDifferent(ids: seq<Id>, id: Id)
    ensures AllDifferent(ids) ==> multiset(ids)[id] <= 1
  {
    if ids != [] {
      CountOfDifferent(ids[1..], id);
      assert ids == [ids[0]] + ids[1..];
    }
  }

  lemma SomeOfDifferent(some: seq<Id>, ids: seq<Id>)
    requires multiset(some) <= multiset(ids) && AllDifferent(ids)
    ensures AllDifferent(some)
  {
    forall i, j | 0 <= i < j < |some| ensures some[i] != some[j] {
      CountOfDifferent(ids, some[i]);
      assert some == some[..i] + [some[i]] + some[i + 1..j] + [some[j]] + some[j + 1..];
    }
  }

  /** That is what the protocol asks of request IDs.  If the calls of a history are calls of
      invocations, in any order and not necessarily all of them, and every builtin has at most one
      target, then every call starts with a free ID: the counter and the removal of double targets
      see to it. */
  lemma InvocationCallsStartFree(st: Protocol.State, es: seq<Protocol.Event>, invs: seq<Invocation>)
    requires Protocol.Initial(st) && Legal(st, es)
    requires Numbered(invs) && forall inv | inv in invs :: inv.template || OneTarget(inv)
    requires multiset(BeginIds(es)) <= multiset(CallIds(AllCalls(invs)))
    ensures Protocol.Run(st, es) && Protocol.After(st, es) == Play(st, es)
  {
    hide Legal, Play, BeginIds, CallIds, AllDifferent, AllCalls, Protocol.Run, Protocol.After, Protocol.Initial;
    AllCallsDiffer(invs);
    CallIdsAreDifferent(AllCalls(invs));
    SomeOfDifferent(BeginIds(es), CallIds(AllCalls(invs)));
    DistinctIdsAreFree(st, es);
  }

  // ----- sending to several hosts -----

  function MultiId(base: string, host: Host): Id {
    base + "_" + host
  }

  /** The calls of one `SendMulti` share an ID exactly if they are for the same host. */
  lemma MultiIdsDiffer(base: string, a: Host, b: Host)
    ensures MultiId(base, a) == MultiId(base, b) <==> a == b
  {
    if MultiId(base, a) == MultiId(base, b) {
      assert a == MultiId(base, a)[|base| + 1..] == b;
    }
  }

  datatype MultiResult<R> = MultiResult(host: Host, result: R)

  /** `send` is what `Send` returns in the call for the record at an index, under a request ID; two
      calls with one ID need not return the same.  The calls end in any order, and each result is
      stored at the index of its record. */
  method SendMulti<R(0)>(records: seq<Host>, base: string, send: (nat, Id) -> R) returns (results: seq<MultiResult<R>>)
    ensures |results| == |records|
    ensures forall i | 0 <= i < |records| :: results[i] == MultiResult(records[i], send(i, MultiId(base, records[i])))
  {
    var slots := new MultiResult<R>[|records|];
    var waiting: set<nat> := {};
    for i := 0 to |records|
      invariant forall k: nat :: k in waiting <==> k < i
    {
      waiting := waiting + {i};
    }
    while waiting != {}
      invariant forall i | i in waiting :: i < |records|
      invariant forall i | 0 <= i < |records| && i !in waiting ::
                  slots[i] == MultiResult(records[i], send(i, MultiId(base, records[i])))
      decreases |waiting|
    {
      var i :| i in waiting;
      slots[i] := MultiResult(records[i], send(i, base + "_" + records[i]));
      waiting := waiting - {i};
    }
    results := slots[..];
  }
}
