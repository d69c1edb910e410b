/** Reading a file by lines, by its tail and by ranges. */
module FileReads {

  // ----- joining lines -----

  /** The lines separated by newlines. */
  function Join(lines: seq<string>): string {
    if lines == [] then ""
    else if |lines| == 1 then lines[0]
    else Join(lines[..|lines| - 1]) + "\n" + lines[|lines| - 1]
  }

  /** The pieces between newlines. */
  function Split(s: string): (pieces: seq<string>)
    ensures pieces != []
  {
    if s == "" then [""]
    else
      var before, c := Split(s[..|s| - 1]), s[|s| - 1];
      if c == '\n' then before + [""] else before[..|before| - 1] + [before[|before| - 1] + [c]]
  }

  lemma {:induction false} SplitAppend(s: string, line: string)
    requires '\n' !in line
    ensures var before := Split(s);
            Split(s + line) == before[..|before| - 1] + [before[|before| - 1] + line]
  {
    if line == "" {
      assert s + line == s;
      assert Split(s)[|Split(s)| - 1] + line == Split(s)[|Split(s)| - 1];
    } else {
      var init, c := line[..|line| - 1], line[|line| - 1];
      SplitAppend(s, init);
      assert s + line == (s + init) + [c];
      assert (s + line)[..|s + line| - 1] == s + init;
      assert c in line;
      assert init + [c] == line;
      var last := Split(s)[|Split(s)| - 1];
      assert (last + init) + [c] == last + line;
    }
  }

  lemma SplitNewline(s: string)
    ensures Split(s + "\n") == Split(s) + [""]
  {
    assert (s + "\n")[..|s|] == s;
  }

  /** Splitting what was joined gives the lines back, except that no lines at all look like one
      empty line. */
  lemma {:induction false} SplitOfJoin(lines: seq<string>)
    requires forall l | l in lines :: '\n' !in l
    ensures Split(Join(lines)) == if lines == [] then [""] else lines
  {
    hide Split;
    SplitNothing();
    if |lines| == 1 {
      assert lines[0] in lines;
      SplitAppend("", lines[0]);
      assert "" + lines[0] == lines[0];
    } else if |lines| > 1 {
      var init, last := lines[..|lines| - 1], lines[|lines| - 1];
      SplitOfJoin(init);
      assert last in lines;
      SplitNewline(Join(init));
      SplitAppend(Join(init) + "\n", last);
      assert "" + last == last;
      assert (init + [""])[..|init|] + [last] == lines;
    }
  }

  lemma SplitNothing()
    ensures Split("") == [""]
  {
  }

  method JoinLines(lines: seq<string>) returns (content: string)
    ensures content == Join(lines)
  {
    if |lines| == 0 {
      return "";
    }
    content := "";
    for i := 0 to |lines|
      invariant content == if i == |lines| then Join(lines) else if i == 0 then "" else Join(lines[..i]) + "\n"
    {
      content := content + lines[i];
      assert lines[..i + 1][..i] == lines[..i];
      if i < |lines| - 1 {
        content := content + "\n";
      } else {
        assert lines[..i + 1] == lines;
      }
    }
  }

  // ----- the last lines -----

  function Last(lines: seq<string>, n: nat): seq<string> {
    if |lines| <= n then lines else lines[|lines| - n..]
  }

  lemma SmallMultiple(n: int, d: int)
    requires n > 0 && -n < n * d < n
    ensures d == 0
  {
  }

  lemma SameRemainder(q: int, n: nat, r: nat)
    requires r < n
    ensures (q * n + r) % n == r
  {
    var k := q * n + r;
    assert n * (q - k / n) == k % n - r;
    SmallMultiple(n, q - k / n);
  }

  /** In a ring of `n` places, positions less than `n` apart share no place. */
  lemma DifferentPlaces(a: nat, b: nat, n: nat)
    requires n > 0 && a < b < a + n
    ensures a % n != b % n
  {
    if a % n == b % n {
      SmallMultiple(n, b / n - a / n);
    }
  }

  /** The place of a line in a ring of `n`. */
  function Place(k: nat, n: nat): (p: nat)
    requires n > 0
    ensures p < n
  {
    k % n
  }

  lemma Places(total: nat, n: nat)
    requires n > 0
    ensures forall k | 0 <= k < total && total - n < k :: Place(k, n) != Place(total, n)
    ensures total < n ==> Place(total, n) == total
  {
    forall k | 0 <= k < total && total - n < k ensures Place(k, n) != Place(total, n) {
      DifferentPlaces(k, total, n);
    }
    if total < n {
      SameRemainder(0, n, total);
    }
  }

  /** The place where the line `t` lines after the oldest one kept is found. */
  lemma OldestFirst(total: nat, n: nat, t: nat)
    requires 0 < n <= total && t < n
    ensures var start := Place(total, n);
            Place(total - n + t, n) == if start + t < n then start + t else start + t - n
  {
    var start, q := total % n, total / n;
    assert total == q * n + start;
    if start + t < n {
      assert total - n + t == (q - 1) * n + (start + t);
      SameRemainder(q - 1, n, start + t);
    } else {
      assert total - n + t == q * n + (start + t - n);
      SameRemainder(q, n, start + t - n);
    }
  }

  /** The last `n` lines in their order, by way of a ring that is overwritten as the lines come;
      truncated exactly if there were more. */
  method ReadTail(file: seq<string>, n: nat) returns (lines: seq<string>, truncated: bool)
    requires n > 0
    ensures lines == Last(file, n)
    ensures |lines| == (if |file| < n then |file| else n) && lines == file[|file| - |lines|..]
    ensures truncated <==> |file| > n
  {
    hide Place;
    var ring := new string[n](_ => "");
    var total := 0;
    while total < |file|
      invariant total <= |file|
      invariant forall k | 0 <= k < total && total - n <= k :: ring[Place(k, n)] == file[k]
    {
      Places(total, n);
      ring[Place(total, n)] := file[total];
      total := total + 1;
    }
    if total <= n {
      forall k | 0 <= k < total ensures ring[k] == file[k] {
        Places(k, n);
      }
      lines := ring[..total];
    } else {
      var start := Place(total, n);
      lines := ring[start..] + ring[..start];
      forall t | 0 <= t < n ensures lines[t] == file[total - n + t] {
        OldestFirst(total, n, t);
        assert ring[Place(total - n + t, n)] == file[total - n + t];
      }
    }
    truncated := total > n;
  }

  // ----- the first lines -----

  /** The smallest of the two bounds that are positive, or 0 if neither is. */
  function Bound(head: int, maxLines: int): (bound: nat)
    ensures bound > 0 <==> head > 0 || maxLines > 0
    ensures (head > 0 ==> bound <= head) && (maxLines > 0 ==> bound <= maxLines)
    ensures bound > 0 ==> bound == head || bound == maxLines
  {
    if head <= 0 then (if maxLines <= 0 then 0 else maxLines)
    else if maxLines <= 0 || head <= maxLines then head
    else maxLines
  }

  /** The bound cuts in: the file has at least as many lines. */
  predicate Reached(file: seq<string>, bound: nat) {
    bound > 0 && |file| >= bound
  }

  /** Reading from the front, up to `head` or `maxLines` lines if these are positive. */
  method ReadLines(file: seq<string>, head: int, maxLines: int) returns (lines: seq<string>, truncated: bool)
    ensures var bound := Bound(head, maxLines);
            && lines == (if Reached(file, bound) then file[..bound] else file)
            && truncated == Reached(file, bound)
  {
    lines, truncated := [], false;
    while |lines| < |file|
      invariant lines <= file
      invariant head > 0 ==> |lines| < head
      invariant maxLines > 0 ==> |lines| < maxLines
      decreases |file| - |lines|
    {
      lines := lines + [file[|lines|]];
      if head > 0 && |lines| >= head {
        return lines, true;
      }
      if maxLines > 0 && |lines| >= maxLines {
        return lines, true;
      }
    }
  }

  /** The flag says whether lines are missing, exactly unless the file has as many lines as the
      bound: then it says so although none are. */
  lemma TruncationIsRightUnlessFileEndsAtBound(file: seq<string>, head: int, maxLines: int)
    ensures var bound := Bound(head, maxLines);
            var lines := if Reached(file, bound) then file[..bound] else file;
            (Reached(file, bound) <==> lines != file) <==> bound == 0 || |file| != bound
  {
    var bound := Bound(head, maxLines);
    if Reached(file, bound) && |file| == bound {
      assert file[..bound] == file;
    }
  }

  /** A file of one line, of which the first line is asked for. */
  lemma OneLineFileIsCalledTruncated(line: string)
    ensures Reached([line], Bound(1, 0)) && [line][..Bound(1, 0)] == [line]
  {
  }

  // ----- ranges -----

  type byte = bv8

  datatype Range = Refused | Bytes(content: seq<byte>, truncated: bool)

  method ReadRange(file: seq<byte>, offset: int, length: int) returns (r: Range)
    ensures r.Refused? <==> offset < 0
    ensures offset >= 0 ==>
              var wanted := if length <= 0 then 4096 else length;
              && (offset <= |file| ==>
                    r.content <= file[offset..] && |r.content| == if offset + wanted <= |file| then wanted else |file| - offset)
              && (offset > |file| ==> r.content == [])
              && (r.truncated <==> offset + |r.content| < |file|)
  {
    if offset < 0 {
      return Refused;
    }
    var readLen := if length <= 0 then 4096 else length;
    var remaining := |file| - offset;
    if remaining < 0 {
      remaining := 0;
    }
    if remaining < readLen {
      readLen := remaining;
    }
    var content := if readLen == 0 then [] else file[offset..offset + readLen];
    r := Bytes(content, offset + |content| < |file|);
  }

  /** Reading a file that does not change range by range, each from where the last one ended, for as
      long as the answer is truncated, ends and gives the file. */
  method ReadAllRanges(file: seq<byte>, length: nat) returns (all: seq<byte>, calls: nat)
    requires length > 0
    ensures all == file
    ensures (calls - 1) * length < |file| <= calls * length || (file == [] && calls == 1)
  {
    all, calls := [], 0;
    var more := true;
    while more
      invariant all <= file
      invariant !more ==> all == file && calls > 0
      invariant more ==> |all| == calls * length && (calls > 0 ==> |all| < |file|)
      invariant !more ==> ((calls - 1) * length < |file| <= calls * length || (file == [] && calls == 1))
      decreases |file| - |all|, more
    {
      var r := ReadRange(file, |all|, length);
      all := all + r.content;
      calls := calls + 1;
      more := r.truncated;
    }
  }
}
