/** The invocation service itself, each call running by itself. */
module InvocationService {
  import opened Tunnel
  import opened FanOut
  import opened Text
  import opened InvocationTables

  /** The result each target will have. */
  type Outcomes = map<string, Result>

  predicate Covers(outcomes: Outcomes, targets: seq<string>) {
    forall n | n in targets :: n in outcomes && outcomes[n].node == n && Terminal(outcomes[n].status)
  }

  function InOrder(outcomes: Outcomes, targets: seq<string>): seq<Result>
    requires Covers(outcomes, targets)
  {
    seq(|targets|, i requires 0 <= i < |targets| => outcomes[targets[i]])
  }

  lemma {:induction false} CountOne(rs: seq<Result>, r: Result)
    requires OnePerNode(rs)
    ensures multiset(rs)[r] == if r in rs then 1 else 0
  {
    if rs != [] {
      CountOne(rs[1..], r);
      assert rs == [rs[0]] + rs[1..];
    }
  }

  /** However the targets take turns, the sorted results are those of the targets in the order
      requested. */
  lemma AnyOrderSortsTheSame(done: seq<Result>, outcomes: Outcomes, targets: seq<string>)
    requires Covers(outcomes, targets) && Distinct(targets) && OnePerNode(done)
    requires forall r :: r in done <==> r.node in targets && r == outcomes[r.node]
    ensures SortByNode(done) == SortByNode(InOrder(outcomes, targets))
  {
    var ordered := InOrder(outcomes, targets);
    assert OnePerNode(ordered);
    forall r ensures r in done <==> r in ordered {
      if r in done {
        var i :| 0 <= i < |targets| && targets[i] == r.node;
        assert ordered[i] == r;
      }
    }
    forall r ensures multiset(done)[r] == multiset(ordered)[r] {
      CountOne(done, r);
      CountOne(ordered, r);
    }
    assert multiset(done) == multiset(ordered);
    StoredResultsIgnoreOrder(done, ordered);
  }

  /** An invocation from start to finish, its audit included. */
  function Executed(t: Tables, id: Id, started: int, finished: int, rs: seq<Result>, aborted: bool): Tables {
    var status := Verdict(Statuses(rs), aborted);
    AuditFinished(Finished(MarkedRunning(t, id, started), id, status, started, finished, rs),
                  id, status, finished)
  }

  function WholeInvocation(targets: seq<string>, rs: seq<Result>, aborted: bool, started: int, finished: int): Invocation {
    Invocation(false, targets, Verdict(Statuses(rs), aborted), Some(started), Some(finished))
  }

  lemma ExecutedFromStart(t: Tables, id: Id, event: Id, targets: seq<string>, rs: seq<Result>,
                          aborted: bool, started: int, finished: int)
    requires id !in t.invocations && event !in t.audits && event != ""
    ensures var inv := WholeInvocation(targets, rs, aborted, started, finished);
            Executed(AuditStarted(Created(t, id, false, targets), id, event), id, started, finished, rs, aborted)
            == Tables(t.invocations[id := inv], t.results[id := rs],
                      t.audits[event := AuditEvent(id, Ended(inv.status), inv.finishedAt)],
                      t.auditByInvoke[id := event])
  {
    hide Verdict, Statuses;
    var inv := WholeInvocation(targets, rs, aborted, started, finished);
    var t1 := AuditStarted(Created(t, id, false, targets), id, event);
    var t2 := MarkedRunning(t1, id, started);
    var t3 := Finished(t2, id, inv.status, started, finished, rs);
    assert t3.invocations == t.invocations[id := inv];
    assert t3.results == t.results[id := rs];
    var t4 := AuditFinished(t3, id, inv.status, finished);
    assert t4.audits == t.audits[event := AuditEvent(id, Ended(inv.status), inv.finishedAt)];
  }

  class Service {
    var invocations: map<Id, Invocation>
    var results: map<Id, seq<Result>>
    var audits: map<Id, AuditEvent>
    var auditByInvoke: map<Id, Id>
    var cancelFns: set<Id>

    function View(): Tables
      reads this
    {
      Tables(invocations, results, audits, auditByInvoke)
    }

    constructor ()
      ensures View() == Tables(map[], map[], map[], map[]) && cancelFns == {}
    {
      invocations, results, audits, auditByInvoke, cancelFns := map[], map[], map[], map[], {};
    }

    method RecordAuditStart(id: Id, event: Id)
      modifies this
      ensures View() == AuditStarted(old(View()), id, event) && cancelFns == old(cancelFns)
    {
      audits := audits[event := AuditEvent(id, Accepted, None)];
      auditByInvoke := auditByInvoke[id := event];
    }

    method FinishAudit(id: Id, decision: Status, finished: int)
      modifies this
      ensures View() == AuditFinished(old(View()), id, decision, finished) && cancelFns == old(cancelFns)
    {
      var event := if id in auditByInvoke then auditByInvoke[id] else "";
      if event == "" {
        return;
      }
      if event in audits {
        audits := audits[event := audits[event].(decision := Ended(decision), finishedAt := Some(finished))];
      }
    }

    /** The targets' goroutines, one after another in any order. */
    method RunTargets(targets: seq<string>, outcomes: Outcomes) returns (rs: seq<Result>)
      requires Covers(outcomes, targets) && Distinct(targets)
      ensures rs == SortByNode(InOrder(outcomes, targets))
    {
      var done: seq<Result> := [];
      var waiting := set n | n in targets;
      while waiting != {}
        invariant waiting <= set n | n in targets
        invariant OnePerNode(done)
        invariant forall r :: r in done <==> r.node in targets && r.node !in waiting && r == outcomes[r.node]
        decreases |waiting|
      {
        var n :| n in waiting;
        done, waiting := done + [outcomes[n]], waiting - {n};
      }
      AnyOrderSortsTheSame(done, outcomes, targets);
      rs := SortByNode(done);
    }

    method ExecuteInvocation(id: Id, targets: seq<string>, outcomes: Outcomes, aborted: bool,
                             started: int, finished: int)
      returns (rs: seq<Result>)
      requires Covers(outcomes, targets) && Distinct(targets)
      modifies this
      ensures rs == SortByNode(InOrder(outcomes, targets))
      ensures View() == Executed(old(View()), id, started, finished, rs, aborted)
      ensures cancelFns == old(cancelFns) - {id}
    {
      if id in invocations {
        invocations := invocations[id := invocations[id].(status := Running, startedAt := Some(started))];
      }
      rs := RunTargets(targets, outcomes);
      var status := SummarizeInvocationStatus(rs, aborted);
      if id in invocations {
        var inv := invocations[id];
        invocations := invocations[id := inv.(
          status := status, finishedAt := Some(finished),
          startedAt := if inv.startedAt == None then Some(started) else inv.startedAt)];
      }
      results := results[id := rs];
      FinishAudit(id, status, finished);
      cancelFns := cancelFns - {id};
    }

    /** A synchronous invocation of the targets named. */
    method CreateInvocation(id: Id, event: Id, names: seq<string>, outcomes: Outcomes, aborted: bool,
                            started: int, finished: int)
      returns (inv: Invocation, rs: seq<Result>)
      requires id !in invocations && event !in audits && event != ""
      requires Covers(outcomes, Targets(names))
      modifies this
      ensures rs == SortByNode(InOrder(outcomes, Targets(names)))
      ensures inv == WholeInvocation(Targets(names), rs, aborted, started, finished)
      ensures invocations == old(invocations)[id := inv] && results == old(results)[id := rs]
      ensures auditByInvoke == old(auditByInvoke)[id := event]
      ensures audits == old(audits)[event := AuditEvent(id, Ended(inv.status), inv.finishedAt)]
    {
      hide Executed, AuditStarted, Covers, Targets, Distinct, InOrder, SortByNode, Statuses;
      var targets := Dedupe(names);
      TargetsAreTheNames(names, "");
      invocations := invocations[id := Invocation(false, targets, Pending, None, None)];
      results := results[id := []];
      assert View() == Created(old(View()), id, false, targets);
      RecordAuditStart(id, event);
      rs := ExecuteInvocation(id, targets, outcomes, aborted, started, finished);
      ExecutedFromStart(old(View()), id, event, targets, rs, aborted, started, finished);
      inv := invocations[id];
    }

    /** The cancel request: it returns the invocation as it is, and says whether a cancel function
        was called. */
    method CancelInvocation(id: Id) returns (inv: Option<Invocation>, fired: bool)
      ensures inv == if id in invocations then Some(invocations[id]) else None
      ensures fired <==> id in invocations && !Terminal(invocations[id].status) && id in cancelFns
    {
      if id !in invocations {
        return None, false;
      }
      inv := Some(invocations[id]);
      fired := !Terminal(invocations[id].status) && id in cancelFns;
    }
  }
}
