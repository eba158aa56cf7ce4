/** The TCP message loop (`_handle_tcp`, src/astropath/data_plane/server.py:259-286) and its
    two-byte length framing (section 8 of RFC 7766).

    The peer's bytes are one finite stream that then ends.  What the pipeline makes of the
    `k`-th message is an oracle, and so is whether the server is draining once its reply has
    been flushed. */
module Framing {
  import opened Names
  import opened Wire

  /** A message that fits a length prefix. */
  type Payload = b: Bytes | |b| < 0x1_0000 witness []

  datatype Handled = Reply(bytes: Payload) | NoReply | Raised

  type Handler = (nat, Payload) -> Handled

  function Frame(p: Payload): (r: Bytes)
    ensures |r| == 2 + |p|
  {
    U16(|p|) + p
  }

  function FrameAll(ps: seq<Payload>): Bytes {
    if ps == [] then [] else Frame(ps[0]) + FrameAll(ps[1..])
  }

  /** The stream starts with a complete frame. */
  predicate HasFrame(stream: Bytes) {
    |stream| >= 2 && |stream| >= 2 + U16At(stream, 0)
  }

  function FirstFrame(stream: Bytes): (p: Payload)
    requires HasFrame(stream)
  {
    stream[2..2 + U16At(stream, 0)]
  }

  /** The complete frames at the front of a stream. */
  function Deframe(stream: Bytes): (ps: seq<Payload>) {
    if !HasFrame(stream) then []
    else [FirstFrame(stream)] + Deframe(stream[2 + U16At(stream, 0)..])
  }

  lemma FrameFirst(p: Payload, rest: Bytes)
    ensures HasFrame(Frame(p) + rest) && FirstFrame(Frame(p) + rest) == p
    ensures U16At(Frame(p) + rest, 0) == |p| && (Frame(p) + rest)[2 + |p|..] == rest
  {
    var s := Frame(p) + rest;
    assert s[0] == U16(|p|)[0] && s[1] == U16(|p|)[1];
    assert s[2..2 + |p|] == p;
  }

  /** Framing round trip, also with an unfinished frame behind: nothing is lost or made up. */
  lemma {:induction false} FramingRoundTrip(ps: seq<Payload>, tail: Bytes)
    requires !HasFrame(tail)
    ensures Deframe(FrameAll(ps) + tail) == ps
  {
    if ps == [] {
      assert FrameAll(ps) + tail == tail;
    } else {
      var rest := FrameAll(ps[1..]) + tail;
      assert FrameAll(ps) + tail == Frame(ps[0]) + rest;
      FrameFirst(ps[0], rest);
      FramingRoundTrip(ps[1..], tail);
    }
  }

  /** Every stream is its complete frames followed by an unfinished one. */
  lemma {:induction false} StreamIsFrames(stream: Bytes) returns (tail: Bytes)
    ensures stream == FrameAll(Deframe(stream)) + tail && !HasFrame(tail)
    decreases |stream|
  {
    if !HasFrame(stream) {
      tail := stream;
      assert FrameAll([]) + tail == tail;
    } else {
      var n := U16At(stream, 0);
      tail := StreamIsFrames(stream[2 + n..]);
      assert stream == Frame(FirstFrame(stream)) + stream[2 + n..] by {
        assert U16(n) == stream[..2];
      }
      assert Deframe(stream)[1..] == Deframe(stream[2 + n..]);
    }
  }

  lemma DeframeStep(stream: Bytes, p: Payload)
    requires HasFrame(stream) && p == FirstFrame(stream)
    ensures Deframe(stream) != [] && Deframe(stream)[0] == p
    ensures Deframe(stream)[1..] == Deframe(stream[2 + |p|..])
  {
  }

  // ---------------------------------------------------------------- the loop

  /** The replies to messages `k, k+1, ...` as long as each gets one. */
  function Replies(ps: seq<Payload>, handle: Handler, k: nat): seq<Payload> {
    if ps == [] then []
    else
      var h := handle(k, ps[0]);
      if h.Reply? then [h.bytes] + Replies(ps[1..], handle, k + 1) else []
  }

  /** How many messages are taken up: stop after one without a reply, or once draining. */
  function Taken(ps: seq<Payload>, handle: Handler, draining: nat -> bool, k: nat): (n: nat)
    ensures n <= |ps|
  {
    if ps == [] then 0
    else if !handle(k, ps[0]).Reply? || draining(k) then 1
    else 1 + Taken(ps[1..], handle, draining, k + 1)
  }

  /** One connection, message by message: what is handled and what is written. */
  function Serve(stream: Bytes, handle: Handler, draining: nat -> bool, k: nat): (seq<Payload>, Bytes) {
    if !HasFrame(stream) then ([], [])  // the peer closed, perhaps inside a frame
    else
      var p := FirstFrame(stream);
      var h := handle(k, p);
      if !h.Reply? then ([p], [])       // malformed, or an unexpected error: close
      else if draining(k) then ([p], Frame(h.bytes))
      else
        var (handled, output) := Serve(stream[2 + |p|..], handle, draining, k + 1);
        ([p] + handled, Frame(h.bytes) + output)
  }

  /** The same, carrying along what has been handled and written so far. */
  function ServeFrom(stream: Bytes, handle: Handler, draining: nat -> bool, handled: seq<Payload>, output: Bytes)
    : (seq<Payload>, Bytes)
    decreases |stream|
  {
    if !HasFrame(stream) then (handled, output)
    else
      var p, k := FirstFrame(stream), |handled|;
      var h := handle(k, p);
      if !h.Reply? then (handled + [p], output)
      else if draining(k) then (handled + [p], output + Frame(h.bytes))
      else ServeFrom(stream[2 + |p|..], handle, draining, handled + [p], output + Frame(h.bytes))
  }

  lemma {:induction false} ServeFromAppends(stream: Bytes, handle: Handler, draining: nat -> bool,
                                           handled: seq<Payload>, output: Bytes)
    ensures ServeFrom(stream, handle, draining, handled, output).0
              == handled + Serve(stream, handle, draining, |handled|).0
    ensures ServeFrom(stream, handle, draining, handled, output).1
              == output + Serve(stream, handle, draining, |handled|).1
    decreases |stream|
  {
    if HasFrame(stream) {
      var p, k := FirstFrame(stream), |handled|;
      var h := handle(k, p);
      if h.Reply? && !draining(k) {
        ServeFromAppends(stream[2 + |p|..], handle, draining, handled + [p], output + Frame(h.bytes));
      }
    }
  }

  method HandleTcp(input: Bytes, handle: Handler, draining: nat -> bool)
    returns (handled: seq<Payload>, output: Bytes)
    ensures handled == Serve(input, handle, draining, 0).0 && output == Serve(input, handle, draining, 0).1
  {
    ServeFromAppends(input, handle, draining, [], []);
    handled, output := [], [];
    var rest := input;  // what the reader has not consumed
    while true
      invariant ServeFrom(rest, handle, draining, handled, output) == ServeFrom(input, handle, draining, [], [])
      decreases |rest|
    {
      if |rest| < 2 {
        return;
      }
      var length := U16At(rest, 0);
      if |rest| < 2 + length {
        return;
      }
      var payload: Payload := rest[2..2 + length];
      var k := |handled|;
      var result := handle(k, payload);
      handled := handled + [payload];
      rest := rest[2 + length..];
      if !result.Reply? {
        return;
      }
      output := output + Frame(result.bytes);
      if draining(k) {
        return;
      }
    }
  }

  /** The messages handled are the frames taken, and the bytes written their framed replies. */
  lemma {:induction false} ServeIsFramed(stream: Bytes, handle: Handler, draining: nat -> bool, k: nat)
    ensures var (handled, output) := Serve(stream, handle, draining, k);
            && handled == Deframe(stream)[..Taken(Deframe(stream), handle, draining, k)]
            && output == FrameAll(Replies(handled, handle, k))
    decreases |stream|
  {
    if HasFrame(stream) {
      var p := FirstFrame(stream);
      DeframeStep(stream, p);
      var rest := stream[2 + |p|..];
      assert Deframe(stream) == [p] + Deframe(rest);
      if handle(k, p).Reply? && !draining(k) {
        ServeIsFramed(rest, handle, draining, k + 1);
        ServeStep(p, Deframe(rest), handle, draining, k, Serve(rest, handle, draining, k + 1).0);
      } else {
        assert Deframe(stream)[..1] == [p];
        assert FrameAll([]) == [];
        if handle(k, p).Reply? { assert Frame(handle(k, p).bytes) + [] == Frame(handle(k, p).bytes); }
      }
    }
  }

  lemma ServeStep(p: Payload, ps: seq<Payload>, handle: Handler, draining: nat -> bool, k: nat, handled: seq<Payload>)
    requires handle(k, p).Reply? && !draining(k)
    requires handled == ps[..Taken(ps, handle, draining, k + 1)]
    ensures [p] + handled == ([p] + ps)[..Taken([p] + ps, handle, draining, k)]
    ensures FrameAll(Replies([p] + handled, handle, k))
              == Frame(handle(k, p).bytes) + FrameAll(Replies(handled, handle, k + 1))
  {
    assert ([p] + ps)[1..] == ps && ([p] + handled)[1..] == handled;
  }

  // ---------------------------------------------------------------- what the peer sees

  const NEVER: nat -> bool := _ => false

  /** Only the last of the handled messages can have gone without a reply. */
  predicate LastUnanswered(handled: seq<Payload>, handle: Handler) {
    handled != [] && !handle(|handled| - 1, handled[|handled| - 1]).Reply?
  }

  /** With a shutdown at any moment: every message but the last one taken up got a reply while the
      server was not draining, and the loop stopped early only after a message without a reply or
      after the reply that found the server draining. */
  lemma HandledUntilDraining(input: Bytes, handle: Handler, draining: nat -> bool, handled: seq<Payload>)
    requires handled == Serve(input, handle, draining, 0).0
    ensures handled <= Deframe(input)
    ensures forall i :: 0 <= i < |handled| - 1 ==> handle(i, handled[i]).Reply? && !draining(i)
    ensures handled != Deframe(input) ==>
              LastUnanswered(handled, handle) || (handled != [] && draining(|handled| - 1))
  {
    ServeIsFramed(input, handle, draining, 0);
    var frames := Deframe(input);
    StopsExact(frames, handle, draining, 0);
    var n: int := Taken(frames, handle, draining, 0);
    forall i | 0 <= i < n - 1 ensures handle(i, handled[i]).Reply? && !draining(i) {
      assert handle(0 + i, frames[i]).Reply? && !draining(0 + i);
    }
  }

  lemma {:induction false} StopsExact(ps: seq<Payload>, handle: Handler, draining: nat -> bool, k: nat)
    ensures var n := Taken(ps, handle, draining, k);
            && (forall i :: 0 <= i < n - 1 ==> handle(k + i, ps[i]).Reply? && !draining(k + i))
            && (n < |ps| ==> n > 0 && (!handle(k + n - 1, ps[n - 1]).Reply? || draining(k + n - 1)))
    decreases |ps|
  {
    if ps != [] {
      StopsExact(ps[1..], handle, draining, k + 1);
      var n := Taken(ps, handle, draining, k);
      forall i | 0 <= i < n - 1 ensures handle(k + i, ps[i]).Reply? && !draining(k + i) {
        if i > 0 { assert handle(k + 1 + (i - 1), ps[1..][i - 1]).Reply? && !draining(k + 1 + (i - 1)); }
      }
    }
  }

  /** Without a shutdown the messages handled are exactly the complete frames of
      the stream, in order, up to and including the first one that gets no reply. */
  lemma HandledIsExact(input: Bytes, handle: Handler, handled: seq<Payload>)
    requires handled == Serve(input, handle, NEVER, 0).0
    ensures handled <= Deframe(input)
    ensures forall i :: 0 <= i < |handled| - 1 ==> handle(i, handled[i]).Reply?
    ensures handled != Deframe(input) ==> LastUnanswered(handled, handle)
  {
    HandledUntilDraining(input, handle, NEVER, handled);
  }

  /** A peer that deframes the output gets exactly the replies to the handled
      messages, in their order. */
  lemma PeerSeesReplies(input: Bytes, handle: Handler, handled: seq<Payload>, output: Bytes)
    requires handled == Serve(input, handle, NEVER, 0).0 && output == Serve(input, handle, NEVER, 0).1
    ensures var seen := Deframe(output);
            && |seen| == |handled| - (if LastUnanswered(handled, handle) then 1 else 0)
            && forall i :: 0 <= i < |seen| ==> handle(i, handled[i]) == Reply(seen[i])
  {
    HandledIsExact(input, handle, handled);
    ServeIsFramed(input, handle, NEVER, 0);
    AllButLastAnswered(handled, handle);
    DeframeFrames(Replies(handled, handle, 0));
  }

  lemma AllButLastAnswered(handled: seq<Payload>, handle: Handler)
    requires forall i :: 0 <= i < |handled| - 1 ==> handle(i, handled[i]).Reply?
    ensures var rs := Replies(handled, handle, 0);
            && |rs| == |handled| - (if LastUnanswered(handled, handle) then 1 else 0)
            && forall i :: 0 <= i < |rs| ==> handle(i, handled[i]) == Reply(rs[i])
  {
    forall i | 0 <= i < |handled| - 1 ensures handle(0 + i, handled[i]).Reply? {}
    RepliesExact(handled, handle, 0);
    var rs := Replies(handled, handle, 0);
    forall i | 0 <= i < |rs| ensures handle(i, handled[i]) == Reply(rs[i]) {
      assert handle(0 + i, handled[i]) == Reply(rs[i]);
    }
  }

  lemma DeframeFrames(ps: seq<Payload>)
    ensures Deframe(FrameAll(ps)) == ps
  {
    FramingRoundTrip(ps, []);
    assert FrameAll(ps) + [] == FrameAll(ps);
  }

  lemma {:induction false} RepliesExact(ps: seq<Payload>, handle: Handler, k: nat)
    requires forall i :: 0 <= i < |ps| - 1 ==> handle(k + i, ps[i]).Reply?
    ensures var rs := Replies(ps, handle, k);
            && |rs| == |ps| - (if ps != [] && !handle(k + |ps| - 1, ps[|ps| - 1]).Reply? then 1 else 0)
            && forall i :: 0 <= i < |rs| ==> handle(k + i, ps[i]) == Reply(rs[i])
    decreases |ps|
  {
    if ps != [] {
      var rest := ps[1..];
      forall i | 0 <= i < |rest| - 1 ensures handle(k + 1 + i, rest[i]).Reply? {
        assert handle(k + (i + 1), ps[i + 1]).Reply?;
      }
      RepliesExact(rest, handle, k + 1);
      var rs := Replies(ps, handle, k);
      forall i | 0 <= i < |rs| ensures handle(k + i, ps[i]) == Reply(rs[i]) {
        if i > 0 { assert handle(k + 1 + (i - 1), rest[i - 1]) == Reply(Replies(rest, handle, k + 1)[i - 1]); }
      }
    }
  }
}
