/**
  The newline framing of bounded_stdio.py (Model Context Protocol specification,
  Transports section, stdio).  The validator `parse` stands for
  `JSONRPCMessage.model_validate_json` followed by the response-or-error test.
*/
module BoundedStdio {
  import opened Wrappers

  type Byte = bv8
  type Frame = seq<Byte>

  const NEWLINE: Byte := 10

  datatype Event<+M> = Delivered(message: M) | Fault

  // ---------- the specification: one function of the whole stream ----------

  /** `bytes.find(b"\n", start)`, with the length of the data for "not found". */
  function NextNewline(data: Frame, start: nat): (k: nat)
    requires start <= |data|
    ensures start <= k <= |data|
    ensures forall i | start <= i < k :: data[i] != NEWLINE
    ensures k < |data| ==> data[k] == NEWLINE
    decreases |data| - start
  {
    if start == |data| then start
    else if data[start] == NEWLINE then start
    else NextNewline(data, start + 1)
  }

  /** A line: bytes without a newline. */
  predicate IsLine(line: Frame) {
    forall i | 0 <= i < |line| :: line[i] != NEWLINE
  }

  /** What the session receives for a stream that ends here. */
  function Received<M>(stream: Frame, limit: nat, parse: Frame -> Option<M>): (events: seq<Event<M>>)
    decreases |stream|
  {
    var k := NextNewline(stream, 0);
    if k == |stream| then (if stream == [] then [] else [Fault])
    else if k > limit || parse(stream[..k]).None? then [Fault]
    else [Delivered(parse(stream[..k]).value)] + Received(stream[k + 1..], limit, parse)
  }

  function Concat(chunks: seq<Frame>): Frame {
    if chunks == [] then [] else chunks[0] + Concat(chunks[1..])
  }

  /** The bytes before the end of the stream: an empty chunk ends it. */
  function Effective(chunks: seq<Frame>): Frame {
    if chunks == [] || chunks[0] == [] then [] else chunks[0] + Effective(chunks[1..])
  }

  // ---------- facts about the specification ----------

  /** A terminated line is consumed as one step, whatever follows it. */
  lemma LineStep<M>(line: Frame, rest: Frame, limit: nat, parse: Frame -> Option<M>)
    requires IsLine(line)
    ensures Received(line + [NEWLINE] + rest, limit, parse) ==
            if |line| > limit || parse(line).None? then [Fault]
            else [Delivered(parse(line).value)] + Received(rest, limit, parse)
  {
    var stream := line + [NEWLINE] + rest;
    assert stream[..|line|] == line;
    assert stream[|line|] == NEWLINE && NextNewline(stream, 0) == |line|;
    assert stream[|line| + 1..] == rest;
  }

  /** An over-long line faults before its newline is seen. */
  lemma OverlongFaults<M>(line: Frame, rest: Frame, limit: nat, parse: Frame -> Option<M>)
    requires IsLine(line) && |line| > limit
    ensures Received(line + rest, limit, parse) == [Fault]
  {
    assert NextNewline(line + rest, 0) >= |line|;
  }

  lemma TailFaults<M>(line: Frame, limit: nat, parse: Frame -> Option<M>)
    requires IsLine(line)
    ensures Received(line, limit, parse) == if line == [] then [] else [Fault]
  {
  }

  /** Delivered messages first, and at most one fault, which is last. */
  lemma {:induction false} FaultIsLast<M>(stream: Frame, limit: nat, parse: Frame -> Option<M>, i: nat)
    requires i < |Received(stream, limit, parse)|
    ensures Received(stream, limit, parse)[i].Fault? ==> i == |Received(stream, limit, parse)| - 1
    decreases |stream|
  {
    var k := NextNewline(stream, 0);
    if k < |stream| && k <= limit && parse(stream[..k]).Some? && i > 0 {
      FaultIsLast(stream[k + 1..], limit, parse, i - 1);
    }
  }

  // ---------- the reader ----------

  /** `events` have been sent, and what is still to come is what `rest` yields. */
  predicate Owes<M(==)>(total: seq<Event<M>>, events: seq<Event<M>>, rest: Frame, limit: nat, parse: Frame -> Option<M>) {
    total == events + Received(rest, limit, parse)
  }

  lemma OwesAll<M>(rest: Frame, limit: nat, parse: Frame -> Option<M>)
    ensures Owes(Received(rest, limit, parse), [], rest, limit, parse)
  {
  }

  lemma OwesLine<M>(total: seq<Event<M>>, events: seq<Event<M>>, line: Frame, rest: Frame, limit: nat, parse: Frame -> Option<M>)
    requires IsLine(line) && |line| <= limit
    requires Owes(total, events, line + ([NEWLINE] + rest), limit, parse)
    ensures parse(line).None? ==> total == events + [Fault]
    ensures parse(line).Some? ==> Owes(total, events + [Delivered(parse(line).value)], rest, limit, parse)
  {
    assert line + ([NEWLINE] + rest) == line + [NEWLINE] + rest;
    LineStep(line, rest, limit, parse);
    hide Received;
    if parse(line).Some? {
      var first := [Delivered(parse(line).value)];
      assert events + (first + Received(rest, limit, parse)) == (events + first) + Received(rest, limit, parse);
    }
  }

  lemma OwesOverlong<M>(total: seq<Event<M>>, events: seq<Event<M>>, line: Frame, rest: Frame, limit: nat, parse: Frame -> Option<M>)
    requires IsLine(line) && |line| > limit
    requires Owes(total, events, line + rest, limit, parse)
    ensures total == events + [Fault]
  {
    OverlongFaults(line, rest, limit, parse);
  }

  lemma OwesTail<M>(total: seq<Event<M>>, events: seq<Event<M>>, line: Frame, limit: nat, parse: Frame -> Option<M>)
    requires IsLine(line) && Owes(total, events, line + [], limit, parse)
    ensures total == if line == [] then events else events + [Fault]
  {
    assert line + [] == line;
    TailFaults(line, limit, parse);
  }

  /** Debts add up: what one chunk owes is part of what the stream owes. */
  lemma OwesTogether<M>(total: seq<Event<M>>, events: seq<Event<M>>, before: Frame, sent: seq<Event<M>>, after: Frame,
                        limit: nat, parse: Frame -> Option<M>)
    requires Owes(total, events, before, limit, parse)
    requires Owes(Received(before, limit, parse), sent, after, limit, parse)
    ensures Owes(total, events + sent, after, limit, parse)
  {
    hide Received;
    assert events + (sent + Received(after, limit, parse)) == (events + sent) + Received(after, limit, parse);
  }

  lemma Cut(chunk: Frame, start: nat, end: nat, buffer: Frame, later: Frame)
    requires start <= end <= |chunk|
    ensures buffer + (chunk[start..] + later) == (buffer + chunk[start..end]) + (chunk[end..] + later)
    ensures end < |chunk| ==> chunk[end..] + later == [chunk[end]] + ([] + (chunk[end + 1..] + later))
    ensures end == |chunk| ==> chunk[end..] + later == later
  {
  }

  lemma LineGrows(buffer: Frame, chunk: Frame, start: nat, end: nat)
    requires IsLine(buffer) && start <= end <= |chunk| && forall i | start <= i < end :: chunk[i] != NEWLINE
    ensures IsLine(buffer + chunk[start..end])
  {
  }

  /**
    The inner loop of `stdout_reader`: consume one chunk, with `later` still to come.
    What was owed before the chunk is what was sent and what is owed after it.
  */
  method ReadChunk<M>(chunk: Frame, limit: nat, parse: Frame -> Option<M>, buffer0: Frame, ghost later: Frame)
    returns (buffer: Frame, sent: seq<Event<M>>, failed: bool, ghost peak: nat)
    requires IsLine(buffer0) && |buffer0| <= limit
    ensures failed ==> sent == Received(buffer0 + (chunk + later), limit, parse)
    ensures !failed ==> IsLine(buffer) && Owes(Received(buffer0 + (chunk + later), limit, parse), sent, buffer + later, limit, parse)
    ensures |buffer| <= limit && peak <= limit
  {
    hide Received, Owes, IsLine, NextNewline;
    ghost var total := Received(buffer0 + (chunk + later), limit, parse);
    buffer, sent, failed, peak := buffer0, [], false, |buffer0|;
    var start := 0;
    assert chunk[0..] == chunk;
    OwesAll(buffer0 + (chunk + later), limit, parse);
    while start < |chunk|
      invariant 0 <= start <= |chunk|
      invariant IsLine(buffer) && |buffer| <= limit && peak <= limit && !failed
      invariant Owes(total, sent, buffer + (chunk[start..] + later), limit, parse)
      decreases |chunk| - start
    {
      var end := NextNewline(chunk, start);
      var segment := chunk[start..end];
      Cut(chunk, start, end, buffer, later);
      LineGrows(buffer, chunk, start, end);
      if |buffer| + |segment| > limit {
        OwesOverlong(total, sent, buffer + segment, chunk[end..] + later, limit, parse);
        buffer, sent, failed := [], sent + [Fault], true;
        return;
      }
      buffer := buffer + segment;
      peak := if |buffer| > peak then |buffer| else peak;
      if end == |chunk| {
        return;
      }
      var frame := buffer;
      buffer := [];
      OwesLine(total, sent, frame, buffer + (chunk[end + 1..] + later), limit, parse);
      var message := parse(frame);
      if message.None? {
        sent, failed := sent + [Fault], true;
        return;
      }
      sent := sent + [Delivered(message.value)];
      start := end + 1;
      EmptyIsLine();
    }
    Cut(chunk, start, start, buffer, later);
  }

  lemma EmptyIsLine()
    ensures IsLine([])
  {
  }

  lemma EffectiveStep(chunks: seq<Frame>, next: nat)
    requires next <= |chunks|
    ensures Effective(chunks[next..]) ==
            if next == |chunks| || chunks[next] == [] then [] else chunks[next] + Effective(chunks[next + 1..])
  {
    if next < |chunks| {
      assert chunks[next..][1..] == chunks[next + 1..];
    }
  }

  /** `stdout_reader`: the outer loop over the chunks; `peak` is the largest size the buffer ever had. */
  method ReadFrames<M>(chunks: seq<Frame>, limit: nat, parse: Frame -> Option<M>)
    returns (events: seq<Event<M>>, ghost peak: nat)
    ensures events == Received(Effective(chunks), limit, parse)
    ensures peak <= limit
  {
    hide Received, Owes, IsLine, Effective;
    ghost var total := Received(Effective(chunks), limit, parse);
    var buffer: Frame := [];
    events, peak := [], 0;
    var next := 0;
    assert chunks[0..] == chunks && buffer + Effective(chunks) == Effective(chunks);
    OwesAll(Effective(chunks), limit, parse);
    EmptyIsLine();
    while next < |chunks|
      invariant 0 <= next <= |chunks|
      invariant IsLine(buffer) && |buffer| <= limit && peak <= limit
      invariant Owes(total, events, buffer + Effective(chunks[next..]), limit, parse)
    {
      var chunk := chunks[next];
      EffectiveStep(chunks, next);
      if chunk == [] {
        break;
      }
      ghost var later := Effective(chunks[next + 1..]);
      ghost var before := buffer + (chunk + later);
      var sent, failed;
      ghost var high;
      buffer, sent, failed, high := ReadChunk(chunk, limit, parse, buffer, later);
      if failed {
        OwesExactly(total, events, before, limit, parse);
      } else {
        OwesTogether(total, events, before, sent, buffer + later, limit, parse);
      }
      events := events + sent;
      peak := if high > peak then high else peak;
      if failed {
        return;
      }
      next := next + 1;
    }
    EffectiveStep(chunks, next);
    OwesTail(total, events, buffer, limit, parse);
    if buffer != [] {
      buffer := [];
      events := events + [Fault];
    }
  }

  lemma OwesExactly<M>(total: seq<Event<M>>, events: seq<Event<M>>, rest: Frame, limit: nat, parse: Frame -> Option<M>)
    requires Owes(total, events, rest, limit, parse)
    ensures total == events + Received(rest, limit, parse)
  {
  }

  // ---------- chunking independence ----------

  lemma {:induction false} EffectiveIsConcat(chunks: seq<Frame>)
    requires [] !in chunks
    ensures Effective(chunks) == Concat(chunks)
  {
    if chunks != [] {
      assert chunks[0] in chunks;
      EffectiveIsConcat(chunks[1..]);
    }
  }

  /** Bytes after an empty chunk are never read. */
  lemma {:induction false} EmptyChunkEnds(before: seq<Frame>, after: seq<Frame>)
    ensures Effective(before + [[]] + after) == Effective(before)
  {
    if before != [] {
      assert (before + [[]] + after)[1..] == before[1..] + [[]] + after;
      EmptyChunkEnds(before[1..], after);
    }
  }

  /** Two ways of cutting one stream into non-empty chunks are read alike. */
  lemma ChunkingIndependent<M>(one: seq<Frame>, two: seq<Frame>, limit: nat, parse: Frame -> Option<M>)
    requires [] !in one && [] !in two && Concat(one) == Concat(two)
    ensures Received(Effective(one), limit, parse) == Received(Effective(two), limit, parse)
  {
    EffectiveIsConcat(one);
    EffectiveIsConcat(two);
  }

  // ---------- the writer and the round trip ----------

  /** The bytes `stdin_writer` sends for a list of encoded messages. */
  function Wire(messages: seq<Frame>): Frame {
    if messages == [] then [] else messages[0] + [NEWLINE] + Wire(messages[1..])
  }

  function Sendable(messages: seq<Frame>, limit: nat): nat {
    if messages == [] || |messages[0]| > limit then 0 else 1 + Sendable(messages[1..], limit)
  }

  lemma {:induction false} SendableBound(messages: seq<Frame>, limit: nat)
    ensures Sendable(messages, limit) <= |messages|
    ensures Sendable(messages, limit) < |messages| ==> |messages[Sendable(messages, limit)]| > limit
    ensures forall i | 0 <= i < Sendable(messages, limit) :: |messages[i]| <= limit
  {
    if messages != [] && |messages[0]| <= limit {
      SendableBound(messages[1..], limit);
    }
  }

  lemma {:induction false} WireAppend(messages: seq<Frame>, m: Frame)
    ensures Wire(messages + [m]) == Wire(messages) + (m + [NEWLINE])
  {
    if messages == [] {
      assert Wire([m][1..]) == [];
    } else {
      assert (messages + [m])[1..] == messages[1..] + [m];
      WireAppend(messages[1..], m);
    }
  }

  /** `stdin_writer`: sends each message with its newline, and stops at the first over-long one. */
  method WriteFrames(messages: seq<Frame>, limit: nat) returns (wire: Frame, failed: bool)
    ensures var n := Sendable(messages, limit);
      n <= |messages| && wire == Wire(messages[..n]) && (failed <==> n < |messages|)
  {
    SendableBound(messages, limit);
    wire := [];
    failed := false;
    var n := 0;
    while n < |messages|
      invariant 0 <= n <= |messages|
      invariant forall i | 0 <= i < n :: |messages[i]| <= limit
      invariant wire == Wire(messages[..n])
    {
      if |messages[n]| > limit {
        failed := true;
        return;
      }
      assert messages[..n + 1] == messages[..n] + [messages[n]];
      WireAppend(messages[..n], messages[n]);
      wire := wire + (messages[n] + [NEWLINE]);
      n := n + 1;
    }
  }

  function Deliveries<M>(messages: seq<Frame>, parse: Frame -> Option<M>): seq<Event<M>>
    requires forall m | m in messages :: parse(m).Some?
  {
    if messages == [] then [] else [Delivered(parse(messages[0]).value)] + Deliveries(messages[1..], parse)
  }

  function Newlines(stream: Frame): nat {
    if stream == [] then 0 else Newlines(stream[1..]) + (if stream[0] == NEWLINE then 1 else 0)
  }

  lemma {:induction false} NewlinesAdd(a: Frame, b: Frame)
    ensures Newlines(a + b) == Newlines(a) + Newlines(b)
  {
    if a == [] {
      assert a + b == b;
    } else {
      assert (a + b)[1..] == a[1..] + b;
      NewlinesAdd(a[1..], b);
    }
  }

  lemma {:induction false} NewlinesZero(a: Frame)
    ensures Newlines(a) == 0 <==> IsLine(a)
  {
    if a != [] {
      NewlinesZero(a[1..]);
      assert forall i | 0 <= i < |a| :: i == 0 || a[i] == a[1..][i - 1];
    }
  }

  lemma NewlinesOfLine(stream: Frame, k: nat)
    requires k < |stream| && stream[k] == NEWLINE && IsLine(stream[0..k])
    ensures Newlines(stream) == 1 + Newlines(stream[k + 1..])
  {
    assert stream == stream[0..k] + ([NEWLINE] + stream[k + 1..]);
    NewlinesAdd(stream[0..k], [NEWLINE] + stream[k + 1..]);
    NewlinesAdd([NEWLINE], stream[k + 1..]);
    NewlinesZero(stream[0..k]);
  }

  /** A stream read without a fault yields one message for each newline. */
  lemma {:induction false} OneMessagePerNewline<M>(stream: Frame, limit: nat, parse: Frame -> Option<M>)
    requires Fault !in Received(stream, limit, parse)
    ensures |Received(stream, limit, parse)| == Newlines(stream)
    decreases |stream|
  {
    var k := NextNewline(stream, 0);
    assert Fault in [Event<M>.Fault];
    if k < |stream| {
      var rest := Received(stream[k + 1..], limit, parse);
      assert k <= limit && parse(stream[..k]).Some?;
      assert Received(stream, limit, parse) == [Delivered(parse(stream[..k]).value)] + rest;
      OneMessagePerNewline(stream[k + 1..], limit, parse);
      NewlinesOfLine(stream, k);
    } else {
      assert stream != [] ==> Received(stream, limit, parse) == [Fault];
    }
  }

  lemma {:induction false} NewlinesOfWire(messages: seq<Frame>)
    ensures Newlines(Wire(messages)) >= |messages|
    ensures Newlines(Wire(messages)) == |messages| <==> forall m | m in messages :: IsLine(m)
  {
    if messages != [] {
      NewlinesOfWire(messages[1..]);
      NewlinesAdd(messages[0] + [NEWLINE], Wire(messages[1..]));
      NewlinesAdd(messages[0], [NEWLINE]);
      NewlinesZero(messages[0]);
      assert forall m | m in messages :: m == messages[0] || m in messages[1..];
    }
  }

  lemma {:induction false} DeliveriesShape<M>(messages: seq<Frame>, parse: Frame -> Option<M>)
    requires forall m | m in messages :: parse(m).Some?
    ensures |Deliveries(messages, parse)| == |messages|
    ensures Fault !in Deliveries(messages, parse)
  {
    if messages != [] {
      DeliveriesShape(messages[1..], parse);
    }
  }

  lemma {:induction false} CleanRoundTrip<M>(messages: seq<Frame>, limit: nat, parse: Frame -> Option<M>)
    requires forall m | m in messages :: parse(m).Some? && |m| <= limit && IsLine(m)
    ensures Received(Wire(messages), limit, parse) == Deliveries(messages, parse)
  {
    if messages != [] {
      LineStep(messages[0], Wire(messages[1..]), limit, parse);
      CleanRoundTrip(messages[1..], limit, parse);
    }
  }

  /**
    The framing round trip at the exact bound: messages the writer sends and the
    validator accepts come back as exactly themselves, under any chunking, if and
    only if none of them contains a newline.
  */
  lemma RoundTrip<M>(messages: seq<Frame>, chunks: seq<Frame>, limit: nat, parse: Frame -> Option<M>)
    requires forall m | m in messages :: parse(m).Some?
    requires Sendable(messages, limit) == |messages|
    requires [] !in chunks && Concat(chunks) == Wire(messages)
    ensures Received(Effective(chunks), limit, parse) == Deliveries(messages, parse)
            <==> forall m | m in messages :: IsLine(m)
  {
    EffectiveIsConcat(chunks);
    SendableBound(messages, limit);
    if forall m | m in messages :: IsLine(m) {
      CleanRoundTrip(messages, limit, parse);
    } else if Received(Wire(messages), limit, parse) == Deliveries(messages, parse) {
      DeliveriesShape(messages, parse);
      OneMessagePerNewline(Wire(messages), limit, parse);
      NewlinesOfWire(messages);
    }
  }
}
