/** `receive_all` of HandControl2.py and Client_VideoTranslation_OpenCv.py:
    read from a TCP socket until `count` bytes are in, or the peer has
    closed. The peer's side is a script of segments: each `recv(n)` hands out
    at most `n` bytes of the next segment, and an empty segment, or the end of
    the script, is the peer closing the connection. */
module Stream {
  type Bytes = seq<bv8>

  function Min(a: int, b: int): int {
    if a < b then a else b
  }

  function Max(a: int, b: int): int {
    if a < b then b else a
  }

  /** The bytes the peer sends before closing: the segments up to the first
      empty one. */
  function Available(segments: seq<Bytes>): Bytes
    decreases |segments|
  {
    if segments == [] || segments[0] == [] then [] else segments[0] + Available(segments[1..])
  }

  /** One `recv(n)`: the first `n` bytes of the next segment, whose remainder
      stays for the next call; empty once the peer has closed. */
  function NextChunk(segments: seq<Bytes>, n: int): (r: (Bytes, seq<Bytes>))
    requires n > 0
    ensures |r.0| <= n
    ensures r.0 == [] <==> Available(segments) == []
  {
    if segments == [] then ([], [])
    else if |segments[0]| <= n then (segments[0], segments[1..])
    else (segments[0][..n], [segments[0][n..]] + segments[1..])
  }

  lemma AvailableCons(s: Bytes, tail: seq<Bytes>)
    requires s != []
    ensures Available([s] + tail) == s + Available(tail)
  {
    assert ([s] + tail)[1..] == tail;
  }

  /** A `recv` hands out the front of what the peer still sends, and leaves
      the rest of it in order. */
  lemma NextChunkTakesFront(segments: seq<Bytes>, n: int)
    requires n > 0
    ensures var r := NextChunk(segments, n);
      && r.0 == Available(segments)[..|r.0|]
      && (r.0 != [] ==> Available(r.1) == Available(segments)[|r.0|..])
  {
    if segments != [] && segments[0] != [] {
      var s := segments[0];
      assert segments == [s] + segments[1..];
      AvailableCons(s, segments[1..]);
      if |s| > n {
        AvailableCons(s[n..], segments[1..]);
        assert s == s[..n] + s[n..];
      }
    }
  }

  /** What a `receive_all` did: the chunks `recv` returned, in order, the
      sizes it asked for, and what the peer had left. */
  datatype Reading = Reading(chunks: seq<Bytes>, asked: seq<int>, rest: seq<Bytes>)

  function Concat(chunks: seq<Bytes>): Bytes
    decreases |chunks|
  {
    if chunks == [] then [] else chunks[0] + Concat(chunks[1..])
  }

  /** The loop with `have` bytes already in `buf`: while fewer than `count`
      are in, ask for the missing `count - have`, and stop at an empty
      chunk. */
  function ReceiveFrom(segments: seq<Bytes>, count: int, have: nat): (r: Reading)
    ensures |r.asked| == |r.chunks|
    decreases count - have
  {
    if have >= count then Reading([], [], segments)
    else
      var (chunk, rest) := NextChunk(segments, count - have);
      if chunk == [] then Reading([chunk], [count - have], rest)
      else
        var more := ReceiveFrom(rest, count, have + |chunk|);
        Reading([chunk] + more.chunks, [count - have] + more.asked, more.rest)
  }

  /** A turn of the loop whose `recv` comes back empty is the last. */
  lemma StepClosed(segments: seq<Bytes>, count: int, have: nat)
    requires have < count && NextChunk(segments, count - have).0 == []
    ensures ReceiveFrom(segments, count, have)
      == Reading([[]], [count - have], NextChunk(segments, count - have).1)
  {
  }

  /** A turn of the loop whose `recv` brings bytes goes on from them. */
  lemma StepChunk(segments: seq<Bytes>, count: int, have: nat, chunk: Bytes, rest: seq<Bytes>)
    requires have < count && NextChunk(segments, count - have) == (chunk, rest) && chunk != []
    ensures ReceiveFrom(segments, count, have)
      == Reading([chunk] + ReceiveFrom(rest, count, have + |chunk|).chunks,
                 [count - have] + ReceiveFrom(rest, count, have + |chunk|).asked,
                 ReceiveFrom(rest, count, have + |chunk|).rest)
  {
  }

  /** `receive_all(sock, count)`: one request per chunk, and none at all when
      nothing is wanted. */
  function Receive(segments: seq<Bytes>, count: int): (r: Reading)
    ensures |r.asked| == |r.chunks|
    ensures count <= 0 ==> r == Reading([], [], segments)
  {
    ReceiveFrom(segments, count, 0)
  }

  /** The bytes received are the first `count` bytes the peer sends, or all
      of them when it closes before that: never more than `count`, and
      exactly `count` unless the peer closed early. */
  lemma {:induction false} ReceiveFromReadsFront(segments: seq<Bytes>, count: int, have: nat)
    ensures var buf := Concat(ReceiveFrom(segments, count, have).chunks);
      && |buf| == Min(Max(count - have, 0), |Available(segments)|)
      && buf == Available(segments)[..|buf|]
    decreases count - have
  {
    if have < count {
      var next := NextChunk(segments, count - have);
      var chunk := next.0;
      NextChunkTakesFront(segments, count - have);
      if chunk == [] {
        StepClosed(segments, count, have);
      } else {
        StepChunk(segments, count, have, chunk, next.1);
        ReceiveFromReadsFront(next.1, count, have + |chunk|);
        var c := ReceiveFrom(segments, count, have).chunks;
        var more := ReceiveFrom(next.1, count, have + |chunk|).chunks;
        assert c[1..] == more;
        assert Concat(c) == chunk + Concat(more);
        var a := Available(segments);
        assert a == chunk + a[|chunk|..];
      }
    }
  }

  lemma ReceiveReadsFront(segments: seq<Bytes>, count: int)
    ensures var buf := Concat(Receive(segments, count).chunks);
      && |buf| == Min(Max(count, 0), |Available(segments)|)
      && buf == Available(segments)[..|buf|]
  {
    ReceiveFromReadsFront(segments, count, 0);
  }

  /** Every request asks for what is still missing, `count - len(buf)`. */
  lemma {:induction false} ReceiveFromAsksMissing(segments: seq<Bytes>, count: int, have: nat)
    ensures forall k :: 0 <= k < |ReceiveFrom(segments, count, have).asked| ==>
      ReceiveFrom(segments, count, have).asked[k]
        == count - have - |Concat(ReceiveFrom(segments, count, have).chunks[..k])| > 0
    decreases count - have
  {
    var r := ReceiveFrom(segments, count, have);
    if have < count {
      var next := NextChunk(segments, count - have);
      var chunk := next.0;
      if chunk != [] {
        var have' := have + |chunk|;
        ReceiveFromAsksMissing(next.1, count, have');
        var more := ReceiveFrom(next.1, count, have');
        assert r.asked == [count - have] + more.asked;
        assert r.chunks == [chunk] + more.chunks;
        forall k | 1 <= k < |r.asked|
          ensures r.asked[k] == count - have - |Concat(r.chunks[..k])|
        {
          var j := k - 1;
          assert more.asked[j] == count - have' - |Concat(more.chunks[..j])|;
          assert r.chunks[..k] == [chunk] + more.chunks[..j];
          assert r.chunks[..k][1..] == more.chunks[..j];
        }
      }
    }
  }

  /** Only the last chunk can be empty. */
  lemma {:induction false} ReceiveFromEmptyOnlyLast(segments: seq<Bytes>, count: int, have: nat)
    ensures forall k :: 0 <= k < |ReceiveFrom(segments, count, have).chunks| - 1 ==>
      ReceiveFrom(segments, count, have).chunks[k] != []
    decreases count - have
  {
    if have < count {
      var next := NextChunk(segments, count - have);
      if next.0 != [] {
        var have' := have + |next.0|;
        ReceiveFromEmptyOnlyLast(next.1, count, have');
        var c := ReceiveFrom(segments, count, have).chunks;
        var more := ReceiveFrom(next.1, count, have').chunks;
        assert c == [next.0] + more;
        forall k | 1 <= k < |c| - 1 ensures c[k] != [] {
          assert c[k] == more[k - 1];
        }
      }
    }
  }

  /** A read that stops short of `count` ended on an empty chunk: the peer
      closed. */
  lemma {:induction false} ReceiveFromShortMeansClosed(segments: seq<Bytes>, count: int, have: nat)
    ensures var c := ReceiveFrom(segments, count, have).chunks;
      have + |Concat(c)| < count ==> c != [] && c[|c| - 1] == []
    decreases count - have
  {
    if have < count {
      var next := NextChunk(segments, count - have);
      if next.0 != [] {
        var have' := have + |next.0|;
        ReceiveFromShortMeansClosed(next.1, count, have');
        var c := ReceiveFrom(segments, count, have).chunks;
        var more := ReceiveFrom(next.1, count, have').chunks;
        assert c == [next.0] + more;
        assert c[1..] == more;
        assert Concat(c) == next.0 + Concat(more);
        if more != [] {
          assert c[|c| - 1] == more[|more| - 1];
        }
      }
    }
  }

  /** With `count` of zero or less there is no `recv` at all. */
  lemma NothingWanted(segments: seq<Bytes>, count: int)
    requires count <= 0
    ensures Receive(segments, count) == Reading([], [], segments)
  {
  }

  /** The socket, with the peer's script still to come and the sizes every
      `recv` asked for so far. */
  class Socket {
    var segments: seq<Bytes>
    var asked: seq<int>

    constructor (segments: seq<Bytes>)
      ensures this.segments == segments && asked == []
    {
      this.segments := segments;
      asked := [];
    }

    /** `sock.recv(n)`. */
    method Recv(n: int) returns (chunk: Bytes)
      requires n > 0
      modifies this
      ensures (chunk, segments) == NextChunk(old(segments), n)
      ensures asked == old(asked) + [n]
    {
      var r := NextChunk(segments, n);
      chunk := r.0;
      segments := r.1;
      asked := asked + [n];
    }
  }

  /** The reading `whole` is the chunks and requests so far followed by the
      reading `rest` still to come. */
  predicate Resumes(whole: Reading, chunks: seq<Bytes>, asked: seq<int>, rest: Reading) {
    whole == Reading(chunks + rest.chunks, asked + rest.asked, rest.rest)
  }

  lemma ResumesStep(whole: Reading, chunks: seq<Bytes>, asked: seq<int>, chunk: Bytes, ask: int, more: Reading)
    requires Resumes(whole, chunks, asked, Reading([chunk] + more.chunks, [ask] + more.asked, more.rest))
    ensures Resumes(whole, chunks + [chunk], asked + [ask], more)
  {
    assert chunks + ([chunk] + more.chunks) == (chunks + [chunk]) + more.chunks;
    assert asked + ([ask] + more.asked) == (asked + [ask]) + more.asked;
  }

  /** A loop that has nothing left to read has read all of `whole`. */
  lemma ResumesDone(whole: Reading, chunks: seq<Bytes>, asked: seq<int>, rest: Reading)
    requires Resumes(whole, chunks, asked, rest) && rest.chunks == [] && rest.asked == []
    ensures whole == Reading(chunks, asked, rest.rest)
  {
    assert chunks + [] == chunks && asked + [] == asked;
  }

  /** A loop whose last `recv` came back empty has read all of `whole`. */
  lemma ResumesClosed(whole: Reading, chunks: seq<Bytes>, asked: seq<int>, ask: int, rest: seq<Bytes>)
    requires Resumes(whole, chunks, asked, Reading([[]], [ask], rest))
    ensures whole == Reading(chunks + [[]], asked + [ask], rest)
  {
  }

  /** `receive_all` on a socket. */
  method ReceiveAll(sock: Socket, count: int) returns (buf: Bytes)
    modifies sock
    ensures buf == Concat(Receive(old(sock.segments), count).chunks)
    ensures sock.segments == Receive(old(sock.segments), count).rest
    ensures sock.asked == old(sock.asked) + Receive(old(sock.segments), count).asked
  {
    buf := [];
    ghost var chunks: seq<Bytes> := [];
    ghost var asked: seq<int> := [];
    ghost var whole := Receive(sock.segments, count);
    while |buf| < count
      invariant buf == Concat(chunks)
      invariant sock.asked == old(sock.asked) + asked
      invariant Resumes(whole, chunks, asked, ReceiveFrom(sock.segments, count, |buf|))
      decreases count - |buf|
    {
      ghost var before := sock.segments;
      var newBuf := sock.Recv(count - |buf|);
      if newBuf == [] {
        StepClosed(before, count, |buf|);
        ResumesClosed(whole, chunks, asked, count - |buf|, sock.segments);
        ConcatEmptyLast(chunks);
        AppendOne(old(sock.asked), asked, count - |buf|);
        chunks, asked := chunks + [[]], asked + [count - |buf|];
        break;
      }
      ghost var more := ReceiveFrom(sock.segments, count, |buf| + |newBuf|);
      StepChunk(before, count, |buf|, newBuf, sock.segments);
      ResumesStep(whole, chunks, asked, newBuf, count - |buf|, more);
      ConcatAppend(chunks, newBuf);
      AppendOne(old(sock.asked), asked, count - |buf|);
      chunks, asked := chunks + [newBuf], asked + [count - |buf|];
      buf := buf + newBuf;
    }
    if count <= |buf| {
      ResumesDone(whole, chunks, asked, ReceiveFrom(sock.segments, count, |buf|));
    }
  }

  lemma {:induction false} ConcatAppend(chunks: seq<Bytes>, chunk: Bytes)
    ensures Concat(chunks + [chunk]) == Concat(chunks) + chunk
    decreases |chunks|
  {
    if chunks != [] {
      assert (chunks + [chunk])[1..] == chunks[1..] + [chunk];
      ConcatAppend(chunks[1..], chunk);
    }
  }

  lemma AppendOne(prior: seq<int>, asked: seq<int>, ask: int)
    ensures (prior + asked) + [ask] == prior + (asked + [ask])
  {
  }

  lemma ConcatEmptyLast(chunks: seq<Bytes>)
    ensures Concat(chunks + [[]]) == Concat(chunks)
  {
    ConcatAppend(chunks, []);
  }
}
