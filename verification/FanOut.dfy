/** The fan-out of one invocation to its targets: which targets there are, in which order their
    results are stored, and how the results are summed up. */
module FanOut {
  import opened Sorting
  import opened Text

  datatype Status = Pending | Running | Succeeded | Failed | Canceled | Partial

  predicate Terminal(s: Status) {
    s != Pending && s != Running
  }

  /** The result of one target; a target ends succeeded, failed or canceled. */
  datatype Result = Result(node: string, status: Status, data: string)

  // ----- targets -----

  /** The targets a request names: trimmed, without blanks, each at its first mention. */
  function Targets(values: seq<string>): seq<string> {
    if values == [] then []
    else
      var before, v := Targets(values[..|values| - 1]), TrimSpace(values[|values| - 1]);
      if v == "" || v in before then before else before + [v]
  }

  predicate Distinct(names: seq<string>) {
    forall i, j | 0 <= i < j < |names| :: names[i] != names[j]
  }

  lemma {:induction false} TargetsAreTrimmed(values: seq<string>, name: string)
    ensures Distinct(Targets(values))
    ensures name in Targets(values) <==> name != "" && exists v :: v in values && TrimSpace(v) == name
  {
    if values != [] {
      var before, last := values[..|values| - 1], values[|values| - 1];
      TargetsAreTrimmed(before, name);
      assert values == before + [last];
      assert forall v :: v in values <==> v in before || v == last;
    }
  }

  /** Every name that is not blank is a target, without the white space at its ends, exactly once. */
  lemma TargetsAreTheNames(values: seq<string>, name: string)
    ensures Distinct(Targets(values))
    ensures name in Targets(values) <==> name != "" && exists v :: v in values && IsTrimmed(v, name)
  {
    TargetsAreTrimmed(values, name);
    forall v | v in values ensures IsTrimmed(v, name) <==> TrimSpace(v) == name {
      IsTrimSpace(v, name);
    }
  }

  lemma IsTrimSpace(v: string, name: string)
    ensures IsTrimmed(v, name) <==> TrimSpace(v) == name
  {
    TrimmedIsTheMiddle(v);
    if IsTrimmed(v, name) {
      TrimmedIsUnique(v, name, TrimSpace(v));
    }
  }

  /** `name` is mentioned at `k`, and `later` not up to there. */
  ghost predicate MentionedFirst(values: seq<string>, name: string, later: string, k: nat) {
    k < |values| && IsTrimmed(values[k], name) && forall m | 0 <= m <= k :: !IsTrimmed(values[m], later)
  }

  /** The targets stand in the order in which they are first mentioned. */
  lemma {:induction false} TargetsInOrderOfMention(values: seq<string>, i: nat, j: nat)
    requires i < j < |Targets(values)|
    ensures exists k :: MentionedFirst(values, Targets(values)[i], Targets(values)[j], k)
  {
    hide IsTrimmed;
    var before, last := values[..|values| - 1], values[|values| - 1];
    var a, b := Targets(values)[i], Targets(values)[j];
    var k: nat;
    if j < |Targets(before)| {
      TargetsInOrderOfMention(before, i, j);
      k :| MentionedFirst(before, a, b, k);
    } else {
      TargetsAreTheNames(before, a);
      TargetsAreTheNames(before, b);
      assert a in Targets(before) && b !in Targets(before) && b == TrimSpace(last);
      var v :| v in before && IsTrimmed(v, a);
      k :| 0 <= k < |before| && before[k] == v;
      forall m | 0 <= m <= k ensures !IsTrimmed(before[m], b) {
        assert before[m] in before;
      }
    }
    assert MentionedFirst(values, a, b, k);
  }

  method Dedupe(values: seq<string>) returns (targets: seq<string>)
    ensures targets == Targets(values)
    ensures Distinct(targets)
    ensures forall name :: name in targets <==> name != "" && exists v :: v in values && IsTrimmed(v, name)
  {
    hide IsTrimmed;
    var seen: set<string> := {};
    targets := [];
    for i := 0 to |values|
      invariant targets == Targets(values[..i])
      invariant forall v :: v in seen <==> v in targets
    {
      assert values[..i + 1][..i] == values[..i];
      var value := TrimSpace(values[i]);
      if value != "" && value !in seen {
        seen := seen + {value};
        targets := targets + [value];
      }
    }
    assert values[..|values|] == values;
    forall name ensures name in targets <==> name != "" && exists v :: v in values && IsTrimmed(v, name) {
      TargetsAreTheNames(values, name);
    }
    TargetsAreTheNames(values, "");
  }

  // ----- the stored results -----

  function NodeOf(r: Result): string {
    r.node
  }

  predicate OnePerNode(rs: seq<Result>) {
    forall i, j | 0 <= i < j < |rs| :: rs[i].node != rs[j].node
  }

  function SortByNode(rs: seq<Result>): seq<Result> {
    SortBy(rs, NodeOf)
  }

  /** Whatever order the targets finish in, the same results are stored. */
  lemma StoredResultsIgnoreOrder(finished: seq<Result>, other: seq<Result>)
    requires multiset(finished) == multiset(other) && OnePerNode(finished) && OnePerNode(other)
    ensures SortByNode(finished) == SortByNode(other)
  {
    SortedElements(finished, NodeOf);
    SortedElements(other, NodeOf);
    SortedAscending(finished, NodeOf);
    SortedAscending(other, NodeOf);
    AscendingIsUnique(SortByNode(finished), SortByNode(other), NodeOf);
  }

  // ----- the summary -----

  function Statuses(rs: seq<Result>): set<Status> {
    set r | r in rs :: r.status
  }

  /** The final status, from which statuses occur and whether the context was canceled. */
  function Verdict(seen: set<Status>, canceled: bool): Status {
    if canceled then Canceled
    else if seen == {Canceled} then Canceled
    else if seen == {Succeeded} then Succeeded
    else if Succeeded !in seen then Failed
    else Partial
  }

  /** What a final status says about the results: all succeeded; the context or all of them canceled; some
      but not all succeeded; or none of these. */
  predicate SaysHow(status: Status, rs: seq<Result>, canceled: bool) {
    && (status == Succeeded <==> !canceled && rs != [] && forall r | r in rs :: r.status == Succeeded)
    && (status == Canceled <==> canceled || (rs != [] && forall r | r in rs :: r.status == Canceled))
    && (status == Partial <==> && !canceled && (exists r :: r in rs && r.status == Succeeded)
                               && (exists r :: r in rs && r.status != Succeeded))
    && (status == Failed <==> && !canceled && (forall r | r in rs :: r.status != Succeeded)
                              && (rs == [] || exists r :: r in rs && r.status != Canceled))
  }

  /** The verdict is determined by that. */
  lemma VerdictSaysHow(rs: seq<Result>, canceled: bool, status: Status)
    ensures SaysHow(status, rs, canceled) <==> status == Verdict(Statuses(rs), canceled)
  {
    AllTheSame(rs, Canceled);
    AllTheSame(rs, Succeeded);
    assert Succeeded in Statuses(rs) <==> exists r :: r in rs && r.status == Succeeded;
    if rs != [] {
      assert rs[0] in rs;
    }
  }

  method SummarizeInvocationStatus(results: seq<Result>, ctxCanceled: bool) returns (status: Status)
    ensures status == Verdict(Statuses(results), ctxCanceled)
    ensures Terminal(status) && SaysHow(status, results, ctxCanceled)
  {
    VerdictSaysHow(results, ctxCanceled, Verdict(Statuses(results), ctxCanceled));
    hide SaysHow;
    if ctxCanceled {
      return Canceled;
    }
    var success, canceled := 0, 0;
    for i := 0 to |results|
      invariant 0 <= success && 0 <= canceled && success + canceled <= i
      invariant success == 0 <==> Succeeded !in Statuses(results[..i])
      invariant success == i <==> forall r | r in results[..i] :: r.status == Succeeded
      invariant canceled == i <==> forall r | r in results[..i] :: r.status == Canceled
    {
      assert results[..i + 1] == results[..i] + [results[i]];
      StatusesOneMore(results[..i], results[i]);
      if results[i].status == Succeeded {
        success := success + 1;
      } else if results[i].status == Canceled {
        canceled := canceled + 1;
      }
    }
    assert results[..|results|] == results;
    AllTheSame(results, Canceled);
    AllTheSame(results, Succeeded);
    if canceled == |results| && |results| > 0 {
      status := Canceled;
    } else if success == |results| && |results| > 0 {
      status := Succeeded;
    } else if success == 0 {
      status := Failed;
    } else {
      status := Partial;
    }
  }

  lemma StatusesOneMore(rs: seq<Result>, r: Result)
    ensures Statuses(rs + [r]) == Statuses(rs) + {r.status}
  {
    assert forall x :: x in rs + [r] <==> x in rs || x == r;
  }

  lemma AllTheSame(rs: seq<Result>, s: Status)
    ensures Statuses(rs) == {s} <==> |rs| > 0 && forall r | r in rs :: r.status == s
  {
    if |rs| > 0 {
      assert rs[0] in rs;
      assert rs[0].status in Statuses(rs);
    }
    if Statuses(rs) == {s} {
      assert s in Statuses(rs);
      forall r | r in rs ensures r.status == s {
        assert r.status in Statuses(rs);
      }
    }
  }

  /** The final status does not depend on the order in which the targets finish either. */
  lemma VerdictIgnoresOrder(finished: seq<Result>, other: seq<Result>, canceled: bool)
    requires multiset(finished) == multiset(other)
    ensures Verdict(Statuses(finished), canceled) == Verdict(Statuses(other), canceled)
  {
    forall r ensures r in finished <==> r in other {
      assert r in multiset(finished) <==> r in multiset(other);
    }
    assert Statuses(finished) == Statuses(other);
  }
}
