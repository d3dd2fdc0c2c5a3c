/**
 Fixed-size frames over a byte stream. TCP keeps the order of the bytes but cuts them into arbitrary
 segments; `io.ReadFull` with a buffer of the frame size puts the frames together again.
 */
module Framing {
  import opened Bytes
  import opened Words

  /** The whole frames at the front of a stream. */
  function Frames(stream: seq<byte>, size: nat): (frames: seq<seq<byte>>)
    requires size > 0
    ensures forall f <- frames :: |f| == size
  {
    if |stream| < size then [] else [stream[..size]] + Frames(stream[size..], size)
  }

  /** The next whole frame, if there is one. */
  lemma NextFrame(stream: seq<byte>, size: nat)
    requires size > 0
    ensures |stream| < size <==> Frames(stream, size) == []
    ensures |stream| >= size ==>
              && Frames(stream, size)[0] == stream[..size]
              && Frames(stream, size)[1..] == Frames(stream[size..], size)
  {
  }

  /** Whatever follows them, frames that were written one after the other are the frames that are read. */
  lemma {:induction false} FramesRecovered(frames: seq<seq<byte>>, tail: seq<byte>, size: nat)
    requires size > 0 && |tail| < size
    requires forall f <- frames :: |f| == size
    ensures Frames(Flatten(frames) + tail, size) == frames
  {
    if frames != [] {
      var stream, rest := Flatten(frames) + tail, Flatten(frames[1..]) + tail;
      assert stream == frames[0] + rest;
      FramesRecovered(frames[1..], tail, size);
      NextFrame(stream, size);
      assert stream[..size] == frames[0] && stream[size..] == rest;
      hide Frames, Flatten;
      assert Frames(stream, size) == [frames[0]] + frames[1..];
    }
  }

  /** The reading side of a connection. */
  class Stream {
    /** The segments that have not been read yet. */
    var segments: seq<seq<byte>>
    var closed: bool

    ghost function Pending(): seq<byte>
      reads `segments
    {
      Flatten(segments)
    }

    constructor (segments: seq<seq<byte>>)
      ensures this.segments == segments && !closed
    {
      this.segments := segments;
      closed := false;
    }

    method Close()
      modifies `closed
      ensures closed
    {
      closed := true;
    }

    /** `conn.Read(buf[at:])`: as much of the next segment as fits. */
    method Read(buf: array<byte>, at: nat) returns (n: nat)
      requires segments != [] && at < buf.Length
      modifies `segments, buf
      ensures at + n <= buf.Length
      ensures n <= |old(Pending())| && Pending() == old(Pending())[n..]
      ensures buf[..] == Overwritten(old(buf[..]), at, old(Pending())[..n])
      ensures n == buf.Length - at || |segments| < |old(segments)|
    {
      var segment, room := segments[0], buf.Length - at;
      n := if |segment| <= room then |segment| else room;
      assert Pending() == segment[..n] + (segment[n..] + Flatten(segments[1..]));
      assert old(Pending())[..n] == segment[..n];
      Copy(buf, at, segment[..n]);
      segments := if n == |segment| then segments[1..] else [segment[n..]] + segments[1..];
      assert Pending() == segment[n..] + Flatten(old(segments)[1..]);
    }

    /**
     `io.ReadFull(conn, buf)`: fills the buffer, or fails when the stream ends first; in that case the
     buffer holds a partial frame in front of its old contents.
     */
    method ReadFull(buf: array<byte>) returns (ok: bool)
      modifies `segments, buf
      ensures ok <==> |old(Pending())| >= buf.Length
      ensures ok ==> buf[..] == old(Pending())[..buf.Length] && Pending() == old(Pending())[buf.Length..]
      ensures !ok ==> buf[..] == Overwritten(old(buf[..]), 0, old(Pending())) && Pending() == []
    {
      var at := 0;
      ghost var pending, before := Pending(), buf[..];
      assert Filled(before, pending, 0, buf[..], Pending());
      while at < buf.Length && segments != []
        invariant at <= buf.Length
        invariant Filled(before, pending, at, buf[..], Pending())
        decreases buf.Length - at, |segments|
      {
        ghost var sofar, rest := buf[..], Pending();
        var n := Read(buf, at);
        FilledOn(before, pending, at, sofar, rest, n);
        at := at + n;
      }
      ok := at == buf.Length;
      assert !ok ==> Pending() == [];
      FilledEnd(before, pending, at, buf[..], Pending());
    }

    /** What a receive loop over one reused buffer sees: every whole frame, in order, and nothing else. */
    method ReadFrames(size: nat) returns (frames: seq<seq<byte>>)
      requires size > 0
      modifies `segments
      ensures frames == Frames(old(Pending()), size)
    {
      var buf := new byte[size](_ => 0);
      frames := [];
      var ok := true;
      while ok
        invariant ok ==> Frames(old(Pending()), size) == frames + Frames(Pending(), size)
        invariant !ok ==> Frames(old(Pending()), size) == frames
        decreases ok, |Pending()|
      {
        ghost var pending := Pending();
        ok := ReadFull(buf);
        if ok {
          frames := frames + [buf[..]];
          assert Frames(pending, size) == [pending[..size]] + Frames(pending[size..], size);
        }
      }
    }
  }

  /** A read in progress: `at` bytes of `pending` have moved to the front of the buffer. */
  ghost predicate Filled(before: seq<byte>, pending: seq<byte>, at: nat, now: seq<byte>, rest: seq<byte>) {
    && at <= |pending| && at <= |before|
    && now == Overwritten(before, 0, pending[..at])
    && rest == pending[at..]
  }

  lemma FilledOn(before: seq<byte>, pending: seq<byte>, at: nat, now: seq<byte>, rest: seq<byte>, n: nat)
    requires Filled(before, pending, at, now, rest)
    requires at + n <= |before| && n <= |rest|
    ensures Filled(before, pending, at + n, Overwritten(now, at, rest[..n]), rest[n..])
  {
    assert pending[..at] + rest[..n] == pending[..at + n];
  }

  lemma FilledEnd(before: seq<byte>, pending: seq<byte>, at: nat, now: seq<byte>, rest: seq<byte>)
    requires Filled(before, pending, at, now, rest)
    ensures at == |before| ==> now == pending[..at]
    ensures rest == [] ==> at == |pending| && now == Overwritten(before, 0, pending)
  {
    assert at == |pending| ==> pending[..at] == pending;
  }

  /** For every segmentation, the receive loop recovers exactly the frames that were written. */
  method ReadWritten(written: seq<seq<byte>>, segments: seq<seq<byte>>, size: nat) returns (frames: seq<seq<byte>>)
    requires size > 0 && forall f <- written :: |f| == size
    requires Flatten(segments) == Flatten(written)
    ensures frames == written
  {
    var stream := new Stream(segments);
    FramesRecovered(written, [], size);
    assert Flatten(written) + [] == Flatten(written);
    frames := stream.ReadFrames(size);
  }
}
