/** The bounded buffer that collects a process's output. */
module LimitBuffer {

  type byte = bv8

  function Concat(chunks: seq<seq<byte>>): seq<byte> {
    if chunks == [] then [] else Concat(chunks[..|chunks| - 1]) + chunks[|chunks| - 1]
  }

  function Kept(limit: int, all: seq<byte>): seq<byte> {
    if limit <= 0 then [] else if |all| <= limit then all else all[..limit]
  }

  /** An empty write to a buffer that was already full. */
  predicate EmptyWhenFull(limit: int, chunks: seq<seq<byte>>) {
    exists k :: 0 <= k < |chunks| && chunks[k] == [] && |Concat(chunks[..k])| >= limit
  }

  /** What `Truncated` says after the chunks. */
  predicate Reports(limit: int, chunks: seq<seq<byte>>) {
    limit > 0 && (|Concat(chunks)| > limit || EmptyWhenFull(limit, chunks))
  }

  class Buffer {
    const limit: int
    var buf: seq<byte>
    var truncated: bool
    ghost var Written: seq<seq<byte>>  // the chunks so far

    /** The buffer holds the first `limit` bytes of everything written, however it was cut into
        chunks.  Truncation is reported exactly if there was more, or if an empty chunk came when
        the buffer was full; a buffer without a positive limit keeps and reports nothing. */
    ghost predicate Valid()
      reads this
    {
      && buf == Kept(limit, Concat(Written))
      && truncated == Reports(limit, Written)
    }

    constructor (limit: int)
      ensures Valid() && this.limit == limit && Written == []
    {
      this.limit := limit;
      buf, truncated, Written := [], false, [];
    }

    method Write(p: seq<byte>) returns (n: nat)
      requires Valid()
      modifies this
      ensures Valid() && Written == old(Written) + [p]
      ensures n == |p|
    {
      n := |p|;
      OneMore(limit, Written, p);
      Written := Written + [p];
      if limit <= 0 {
        return;
      }
      var remaining := limit - |buf|;
      if remaining > 0 {
        if |p| > remaining {
          buf := buf + p[..remaining];
          truncated := true;
          return;
        }
        buf := buf + p;
        return;
      }
      truncated := true;
    }
  }

  lemma OneMore(limit: int, chunks: seq<seq<byte>>, p: seq<byte>)
    ensures Concat(chunks + [p]) == Concat(chunks) + p
    ensures EmptyWhenFull(limit, chunks + [p]) <==>
            EmptyWhenFull(limit, chunks) || (p == [] && |Concat(chunks)| >= limit)
  {
    assert (chunks + [p])[..|chunks|] == chunks;
    forall k | 0 <= k < |chunks| ensures (chunks + [p])[..k] == chunks[..k] {
    }
    if EmptyWhenFull(limit, chunks) {
      var k :| 0 <= k < |chunks| && chunks[k] == [] && |Concat(chunks[..k])| >= limit;
      assert (chunks + [p])[k] == [] && |Concat((chunks + [p])[..k])| >= limit;
    }
    if p == [] && |Concat(chunks)| >= limit {
      assert (chunks + [p])[|chunks|] == [];
    }
    if EmptyWhenFull(limit, chunks + [p]) {
      var k :| 0 <= k < |chunks + [p]| && (chunks + [p])[k] == [] && |Concat((chunks + [p])[..k])| >= limit;
      assert k < |chunks| ==> chunks[k] == [] && |Concat(chunks[..k])| >= limit;
    }
  }

  /** Any number of writes to a fresh buffer. */
  method Collect(limit: int, chunks: seq<seq<byte>>) returns (content: seq<byte>, truncated: bool)
    ensures content == Kept(limit, Concat(chunks))
    ensures truncated == Reports(limit, chunks)
  {
    var b := new Buffer(limit);
    for i := 0 to |chunks|
      invariant b.Valid() && b.Written == chunks[..i] && b.limit == limit
      invariant fresh(b)
    {
      var n := b.Write(chunks[i]);
    }
    assert chunks[..|chunks|] == chunks;
    content, truncated := b.buf, b.truncated;
  }

  /** An empty chunk that comes when the buffer is exactly full makes it report truncation although
      nothing is missing. */
  lemma EmptyChunkOverstates(limit: int, chunks: seq<seq<byte>>)
    requires limit > 0 && |Concat(chunks)| == limit
    ensures Reports(limit, chunks + [[]]) && Kept(limit, Concat(chunks + [[]])) == Concat(chunks + [[]])
  {
    OneMore(limit, chunks, []);
  }

  /** With no empty chunk, the first min(limit, total) bytes are kept and truncation is reported exactly if
      there is a limit and there were more, however the output is cut; without a positive limit nothing
      is kept. */
  lemma ChunkingDoesNotShow(limit: int, chunks: seq<seq<byte>>)
    requires [] !in chunks
    ensures Kept(limit, Concat(chunks)) <= Concat(chunks)
    ensures |Kept(limit, Concat(chunks))|
            == if limit <= 0 then 0 else if |Concat(chunks)| <= limit then |Concat(chunks)| else limit
    ensures Reports(limit, chunks) <==> 0 < limit < |Concat(chunks)|
  {
  }
}
