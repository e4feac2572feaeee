/** The send loop of the publisher: it walks the tags of an open FLV file,
    hands every audio and video tag to the RTMP connection as a packet, and
    holds back while the clock is behind the last sent timestamp and a key
    frame comes next.

    The clock and the connection are inputs: `start` is the clock reading
    taken before the loop, `readings[k]` the one taken at the head of turn
    `k`; `isConnected(i)` and `sendAccepted(i)` are what the connection
    answers when asked about the packet with index `i`. The loop's turns
    that read a tag are the turns of the walk `Demux` from the first tag. */
module Publisher {
  import opened ByteOrder
  import opened FlvDemux
  import opened FlvReader

  /** How a run of the send loop ends. `ClockExhausted` is the end of the
      given clock readings, where the program would go on taking turns,
      waiting while the gate holds and reading the next tag otherwise. */
  datatype Outcome = EndOfStream | LinkDown | SendRejected | ClockExhausted

  /** What the loop does at the head of a turn: hold back, or read a tag. */
  datatype Step = Wait | Proceed

  // ---------------------------------------------------------------------
  // The loop's variables after the first `n` events of the walk.

  /** The packets sent for the first `n` events. */
  function SentBefore(events: seq<Event>, n: nat): seq<Packet>
    requires n <= |events|
  {
    if n == 0 then []
    else SentBefore(events, n - 1) + (if events[n - 1].Forwarded? then [events[n - 1].packet] else [])
  }

  /** `pre_frame_time`: the timestamp of the last packet among the first `n`
      events; 0 before the first. */
  function PreFrameTime(events: seq<Event>, n: nat): nat
    requires n <= |events|
  {
    if n == 0 then 0
    else if events[n - 1].Forwarded? then events[n - 1].packet.timestamp
    else PreFrameTime(events, n - 1)
  }

  /** `next_is_key`: false at first, then set by every lookahead that
      reached a video tag. */
  function NextIsKey(events: seq<Event>, n: nat): bool
    requires n <= |events|
  {
    if n == 0 then false
    else if events[n - 1].Forwarded? then KeyAfter(events[n - 1].look, NextIsKey(events, n - 1))
    else NextIsKey(events, n - 1)
  }

  // ---------------------------------------------------------------------
  // The pacing gate.

  /** A clock reading of `RTMP_GetTime`, in milliseconds: a `uint32_t`. */
  type Millis = x: int | 0 <= x < 0x1_0000_0000

  /** The milliseconds since the start, as `uint32_t` subtraction gives
      them: the difference modulo 2^32. */
  function Elapsed(start: Millis, now: Millis): (t: nat)
    ensures t < 0x1_0000_0000
    ensures start <= now ==> t == now - start
  {
    if start <= now then now - start else now - start + 0x1_0000_0000
  }

  /** `Elapsed` is the difference of the two readings modulo 2^32, as
      unsigned 32-bit subtraction gives it. */
  lemma ElapsedWraps(start: Millis, now: Millis)
    ensures Elapsed(start, now) == (now - start) % 0x1_0000_0000
  {
  }

  /** The gate holds the loop back while less time has passed than the last
      sent timestamp and a key frame comes next. */
  predicate Held(elapsed: nat, preFrameTime: nat, nextIsKey: bool) {
    elapsed < preFrameTime && nextIsKey
  }

  /** What the gate decides at clock reading `now` once the first `n`
      events have been handled: it waits only after a packet was sent, while
      the clock is behind that packet's timestamp and a key frame is next. */
  function Decide(start: Millis, now: Millis, events: seq<Event>, n: nat): Step
    requires n <= |events|
  {
    if Held(Elapsed(start, now), PreFrameTime(events, n), NextIsKey(events, n)) then Wait else Proceed
  }

  /** The gate waits exactly when a packet has been sent, a key frame is
      pending, and less time has passed than that packet's timestamp. */
  lemma DecideWaits(start: Millis, now: Millis, events: seq<Event>, n: nat)
    requires n <= |events|
    ensures var sent := SentBefore(events, n);
      Decide(start, now, events, n) == Wait <==>
        && sent != [] && NextIsKey(events, n)
        && Elapsed(start, now) < sent[|sent| - 1].timestamp
  {
    PreFrameTimeIsLast(events, n);
  }

  /** The test at line 81 is the gate's decision. */
  lemma GateDecides(start: Millis, now: Millis, events: seq<Event>, n: nat, preFrameTime: nat, nextIsKey: bool)
    requires n <= |events| && preFrameTime == PreFrameTime(events, n) && nextIsKey == NextIsKey(events, n)
    ensures Decide(start, now, events, n) ==
      if Elapsed(start, now) < preFrameTime && nextIsKey then Wait else Proceed
  {
  }

  /** The number of turns that read a tag. */
  function Proceeds(log: seq<Step>): (n: nat)
    ensures n <= |log|
  {
    if log == [] then 0 else Proceeds(log[..|log| - 1]) + (if log[|log| - 1] == Proceed then 1 else 0)
  }

  /** Every turn of the log took the gate's decision for its clock reading
      and the events handled before it. */
  predicate Paced(start: Millis, readings: seq<Millis>, events: seq<Event>, log: seq<Step>) {
    && |log| <= |readings|
    && Proceeds(log) <= |events|
    && (log != [] ==>
         var before := log[..|log| - 1];
         && Paced(start, readings, events, before)
         && log[|log| - 1] == Decide(start, readings[|log| - 1], events, Proceeds(before)))
  }

  /** A turn appended to a paced log keeps it paced when it takes the
      gate's decision. */
  lemma PacedExtend(start: Millis, readings: seq<Millis>, events: seq<Event>, log: seq<Step>, step: Step)
    requires Paced(start, readings, events, log) && |log| < |readings|
    requires step == Decide(start, readings[|log|], events, Proceeds(log))
    requires step == Proceed ==> Proceeds(log) < |events|
    ensures Paced(start, readings, events, log + [step])
    ensures Proceeds(log + [step]) == Proceeds(log) + (if step == Proceed then 1 else 0)
  {
    assert (log + [step])[..|log|] == log;
  }

  /** A paced log took the gate's decision at every turn: turn `k` waited
      exactly when the gate held, given the clock reading of that turn and
      the events handled in the turns before it. */
  lemma {:induction false} PacedEveryTurn(start: Millis, readings: seq<Millis>, events: seq<Event>, log: seq<Step>)
    requires Paced(start, readings, events, log)
    ensures forall k | 0 <= k < |log| ::
      Proceeds(log[..k]) <= |events| && log[k] == Decide(start, readings[k], events, Proceeds(log[..k]))
    decreases |log|
  {
    if log != [] {
      var before := log[..|log| - 1];
      PacedEveryTurn(start, readings, events, before);
      forall k | 0 <= k < |log|
        ensures Proceeds(log[..k]) <= |events| && log[k] == Decide(start, readings[k], events, Proceeds(log[..k]))
      {
        if k < |before| {
          assert log[..k] == before[..k];
          assert log[k] == before[k];
        }
      }
    }
  }

  /** The first turn of a paced log never waits: `pre_frame_time` and
      `next_is_key` start out clear. */
  lemma FirstTurnProceeds(start: Millis, readings: seq<Millis>, events: seq<Event>, log: seq<Step>)
    requires Paced(start, readings, events, log) && log != []
    ensures log[0] == Proceed
  {
    PacedEveryTurn(start, readings, events, log);
    assert log[..0] == [];
  }

  /** The turn of the log that read the tag of event `e`: the turn that
      proceeded after `e` earlier turns had. */
  function TurnOf(log: seq<Step>, e: nat): (k: nat)
    requires e < Proceeds(log)
    ensures k < |log| && log[k] == Proceed && Proceeds(log[..k]) == e
    decreases |log|
  {
    var before := log[..|log| - 1];
    if log[|log| - 1] == Proceed && Proceeds(before) == e then
      |log| - 1
    else
      var k := TurnOf(before, e);
      assert log[..k] == before[..k];
      k
  }

  /** No tag is read while the gate holds: the turn that read the tag of
      event `e` took a clock reading at which, with the variables the
      first `e` events had set, the gate was open. */
  lemma ReadWhenGateOpen(start: Millis, readings: seq<Millis>, events: seq<Event>, log: seq<Step>, e: nat)
    requires Paced(start, readings, events, log) && e < Proceeds(log)
    ensures e < |events|
    ensures !Held(Elapsed(start, readings[TurnOf(log, e)]), PreFrameTime(events, e), NextIsKey(events, e))
  {
    PacedEveryTurn(start, readings, events, log);
    var k := TurnOf(log, e);
    assert log[k] == Decide(start, readings[k], events, Proceeds(log[..k]));
  }

  // ---------------------------------------------------------------------
  // What the gate's variables mean.

  /** The packets sent for the first `n` events are the packets among
      them. */
  lemma {:induction false} SentBeforePackets(events: seq<Event>, n: nat)
    requires n <= |events|
    ensures SentBefore(events, n) == Packets(events[..n])
    decreases n
  {
    if n > 0 {
      SentBeforePackets(events, n - 1);
      PacketsSnoc(events, n - 1);
    } else {
      assert events[..0] == [];
    }
  }

  /** They are a prefix of all the packets of the walk: a shorter one when
      a packet is next, all of them after the last event. */
  lemma SentBeforePrefix(events: seq<Event>, n: nat)
    requires n <= |events|
    ensures SentBefore(events, n) <= Packets(events)
    ensures n < |events| && events[n].Forwarded? ==> |SentBefore(events, n)| < |Packets(events)|
    ensures n == |events| ==> SentBefore(events, n) == Packets(events)
  {
    SentBeforePackets(events, n);
    PacketsPrefix(events, n);
    assert events[..|events|] == events;
  }

  /** `pre_frame_time` is the timestamp of the last packet sent so far, or
      0 when none was sent. */
  lemma {:induction false} PreFrameTimeIsLast(events: seq<Event>, n: nat)
    requires n <= |events|
    ensures SentBefore(events, n) == [] ==> PreFrameTime(events, n) == 0
    ensures SentBefore(events, n) != [] ==>
      PreFrameTime(events, n) == SentBefore(events, n)[|SentBefore(events, n)| - 1].timestamp
    decreases n
  {
    if n > 0 {
      PreFrameTimeIsLast(events, n - 1);
    }
  }

  /** `next_is_key` is set only by the lookahead after a sent packet, so it
      is clear until the first packet has been sent. */
  lemma {:induction false} NextIsKeyAfterSend(events: seq<Event>, n: nat)
    requires n <= |events|
    ensures NextIsKey(events, n) ==> SentBefore(events, n) != []
    decreases n
  {
    if n > 0 {
      NextIsKeyAfterSend(events, n - 1);
    }
  }

  /** A lookahead that reached a video tag. */
  predicate Marked(e: Event) {
    e.Forwarded? && e.look.Mark?
  }

  /** Events without such a lookahead leave `next_is_key` as it was. */
  lemma {:induction false} NextIsKeyKept(events: seq<Event>, i: nat, n: nat)
    requires i <= n <= |events|
    requires forall j | i <= j < n :: !Marked(events[j])
    ensures NextIsKey(events, n) == NextIsKey(events, i)
    decreases n
  {
    if n > i {
      NextIsKeyKept(events, i, n - 1);
    }
  }

  /** `next_is_key` is what the last lookahead that reached a video tag
      saw ... */
  lemma NextIsKeyIsLastMark(events: seq<Event>, i: nat, n: nat)
    requires i < n <= |events| && Marked(events[i])
    requires forall j | i < j < n :: !Marked(events[j])
    ensures NextIsKey(events, n) == events[i].look.isKey
  {
    NextIsKeyKept(events, i + 1, n);
  }

  /** ... and false while no lookahead has reached one. */
  lemma NextIsKeyUnmarked(events: seq<Event>, n: nat)
    requires n <= |events|
    requires forall j | 0 <= j < n :: !Marked(events[j])
    ensures !NextIsKey(events, n)
  {
    NextIsKeyKept(events, 0, n);
  }

  /** Without a pending key frame the gate never holds the loop back. */
  lemma NoKeyNeverWaits(start: Millis, now: Millis, events: seq<Event>, n: nat)
    requires n <= |events| && !NextIsKey(events, n)
    ensures Decide(start, now, events, n) == Proceed
  {
  }

  // ---------------------------------------------------------------------
  // The turns of the loop.

  /** Lines 92-95: the four header fields, in order; the first read that
      fails ends the attempt. */
  method ReadTagHeader(file: FlvFile, tagType: bv32, dataLength: bv32, timestamp: bv32, streamId: bv32)
    returns (ok: bool, tagType': bv32, dataLength': bv32, timestamp': bv32, streamId': bv32)
    requires tagType < 0x100
    modifies file
    ensures ok <==> old(file.pos) + TagHeaderSize <= |file.data|
    ensures tagType' < 0x100
    ensures ok ==> file.pos == old(file.pos) + TagHeaderSize
    ensures ok ==> tagType' == Bits(file.data[old(file.pos)]) as bv32
    ensures ok ==> Unsigned(dataLength') == HeaderAt(file.data, old(file.pos)).dataLength
    ensures ok ==> Unsigned(timestamp') == HeaderAt(file.data, old(file.pos)).timestamp
    ensures ok ==> Unsigned(streamId') == HeaderAt(file.data, old(file.pos)).streamId
  {
    ghost var off := file.pos;
    tagType', dataLength', timestamp', streamId' := tagType, dataLength, timestamp, streamId;
    ok, tagType' := file.ReadUnsigned8(tagType);
    if !ok {
      return;
    }
    ok, dataLength' := file.ReadUnsigned24(dataLength);
    if !ok {
      return;
    }
    ok, timestamp' := file.ReadTime(timestamp);
    if !ok {
      return;
    }
    ok, streamId' := file.ReadUnsigned24(streamId);
    if !ok {
      return;
    }
    assert file.data[off + 4..off + 8][..3] == file.data[off + 4..off + 7];
  }

  /** Lines 125-136: past the PreviousTagSize field, peek at the type of the
      next tag and, for a video tag, at its first body byte, 11 bytes on;
      the cursor ends at the next tag. */
  method LookAhead(file: FlvFile, tagType: bv32, nextIsKey: bool, preTagSize: bv32)
    returns (ok: bool, tagType': bv32, nextIsKey': bool, preTagSize': bv32)
    requires tagType < 0x100
    modifies file
    ensures ok <==> !LookaheadFrom(file.data, old(file.pos) + PreviousTagSizeLength).Stop?
    ensures tagType' < 0x100
    ensures ok ==> file.pos == old(file.pos) + PreviousTagSizeLength
    ensures nextIsKey' == KeyAfter(LookaheadFrom(file.data, old(file.pos) + PreviousTagSizeLength), nextIsKey)
  {
    tagType', nextIsKey' := tagType, nextIsKey;
    ok, preTagSize' := file.ReadUnsigned32(preTagSize);
    if !ok {
      return;
    }
    ok, tagType' := file.PeekUnsigned8(tagType');
    if !ok {
      return;
    }
    BitsOfConstants();
    WidenInjective(file.data[file.pos], VideoTag);
    if tagType' == 0x09 {
      var forward := file.SeekCur(11);
      ok, tagType' := file.PeekUnsigned8(tagType');
      if !ok {
        return;
      }
      WidenInjective(file.data[file.pos], AvcKeyFrame);
      nextIsKey' := tagType' == 0x17;
      var back := file.SeekCur(-11);
    }
  }

  /** The gate's variables and the packets sent after the first `n` events,
      with a connection that was up for, and took, every packet so far. */
  predicate Gated(events: seq<Event>, n: nat, sent: seq<Packet>, preFrameTime: nat, nextIsKey: bool,
                  isConnected: nat -> bool, sendAccepted: nat -> bool)
  {
    && n <= |events|
    && sent == SentBefore(events, n)
    && preFrameTime == PreFrameTime(events, n)
    && nextIsKey == NextIsKey(events, n)
    && forall i | 0 <= i < |sent| :: isConnected(i) && sendAccepted(i)
  }

  /** The state of the loop at the head of a turn that reads a tag, after
      the first `n` events of the walk: the cursor where the walk stands,
      and the variables the events so far have set. */
  predicate Walked(data: seq<byte>, pos: nat, n: nat, sent: seq<Packet>, preFrameTime: nat, nextIsKey: bool,
                   isConnected: nat -> bool, sendAccepted: nat -> bool)
  {
    && n < |Demux(data, FirstTagOffset)|
    && pos == TurnOffset(data, FirstTagOffset, n)
    && Gated(Demux(data, FirstTagOffset), n, sent, preFrameTime, nextIsKey, isConnected, sendAccepted)
  }

  /** How a turn that read a tag ends: the loop goes on, or the function
      returns. */
  datatype TurnEnd = GoOn | Stopped(outcome: Outcome)

  /** The loop's variables after handling event `e`: a packet is sent and
      sets the gate's variables, any other event changes nothing. */
  predicate Handled(e: Event, sent: seq<Packet>, sent': seq<Packet>, preFrameTime: nat, preFrameTime': nat,
                    nextIsKey: bool, nextIsKey': bool)
  {
    if e.Forwarded? then
      sent' == sent + [e.packet] && preFrameTime' == e.packet.timestamp && nextIsKey' == KeyAfter(e.look, nextIsKey)
    else
      sent' == sent && preFrameTime' == preFrameTime && nextIsKey' == nextIsKey
  }

  /** Handling event `n` as the loop does gives the variables after `n + 1`
      events. */
  lemma GatedNext(events: seq<Event>, n: nat, sent: seq<Packet>, sent': seq<Packet>,
                  preFrameTime: nat, preFrameTime': nat, nextIsKey: bool, nextIsKey': bool,
                  isConnected: nat -> bool, sendAccepted: nat -> bool)
    requires Gated(events, n, sent, preFrameTime, nextIsKey, isConnected, sendAccepted) && n < |events|
    requires Handled(events[n], sent, sent', preFrameTime, preFrameTime', nextIsKey, nextIsKey')
    requires events[n].Forwarded? ==> isConnected(|sent|) && sendAccepted(|sent|)
    ensures Gated(events, n + 1, sent', preFrameTime', nextIsKey', isConnected, sendAccepted)
  {
    forall i | 0 <= i < |sent'|
      ensures isConnected(i) && sendAccepted(i)
    {
      if i < |sent| {
        assert isConnected(i) && sendAccepted(i);
      }
    }
  }

  /** What a run of the loop that ended with `outcome` after `turns` turns
      that read a tag reports about the packets it sent: they are the
      packets of the events those turns handled, except for a last turn
      that found the link down before sending its packet; at the end of the
      file every event was handled, and a run stopped by the clock had
      events left; the connection was up for each packet sent and took every
      one of them, except the last when the run ends on a rejected send,
      whose packet is that of the last event read. */
  predicate Reported(events: seq<Event>, outcome: Outcome, turns: nat, sent: seq<Packet>,
                     isConnected: nat -> bool, sendAccepted: nat -> bool)
  {
    && turns <= |events|
    && (outcome == LinkDown ==>
         && 0 < turns && events[turns - 1].Forwarded?
         && sent == SentBefore(events, turns - 1) && !isConnected(|sent|))
    && (outcome != LinkDown ==> sent == SentBefore(events, turns))
    && (outcome == EndOfStream ==> turns == |events|)
    && (outcome == ClockExhausted ==> turns < |events|)
    && (forall i | 0 <= i < |sent| :: isConnected(i))
    && (forall i | 0 <= i < |sent| - 1 :: sendAccepted(i))
    && (outcome != SendRejected ==> forall i | 0 <= i < |sent| :: sendAccepted(i))
    && (outcome == SendRejected ==>
         && 0 < turns && events[turns - 1].Forwarded?
         && |sent| > 0 && !sendAccepted(|sent| - 1))
  }

  /** A reported run sent the first packets of the walk: all of them at the
      end of the file, fewer when the link was found down. */
  lemma ReportedPackets(events: seq<Event>, outcome: Outcome, turns: nat, sent: seq<Packet>,
                        isConnected: nat -> bool, sendAccepted: nat -> bool)
    requires Reported(events, outcome, turns, sent, isConnected, sendAccepted)
    ensures sent <= Packets(events)
    ensures outcome == EndOfStream ==> sent == Packets(events)
    ensures outcome == LinkDown ==> |sent| < |Packets(events)|
  {
    if outcome == LinkDown {
      SentBeforePrefix(events, turns - 1);
    } else {
      SentBeforePrefix(events, turns);
    }
  }

  /** A reported run ends on a rejected send exactly when the connection
      refused the last packet sent. */
  lemma RejectedIffRefused(events: seq<Event>, outcome: Outcome, turns: nat, sent: seq<Packet>,
                           isConnected: nat -> bool, sendAccepted: nat -> bool)
    requires Reported(events, outcome, turns, sent, isConnected, sendAccepted)
    ensures outcome == SendRejected <==> |sent| > 0 && !sendAccepted(|sent| - 1)
  {
    if outcome != SendRejected && |sent| > 0 {
      assert sendAccepted(|sent| - 1);
    }
  }

  /** The event among the first `n` whose packet is packet `i` of those sent
      for them; the packets sent before it are the first `i`. */
  function EventOfPacket(events: seq<Event>, n: nat, i: nat): (e: nat)
    requires n <= |events| && i < |SentBefore(events, n)|
    ensures e < n && events[e].Forwarded? && events[e].packet == SentBefore(events, n)[i]
    ensures SentBefore(events, e) == SentBefore(events, n)[..i]
    decreases n
  {
    var before := SentBefore(events, n - 1);
    if i < |before| then
      var e := EventOfPacket(events, n - 1, i);
      assert SentBefore(events, n)[..i] == before[..i];
      e
    else
      assert SentBefore(events, n)[..i] == before;
      n - 1
  }

  /** Every packet a paced run sent was read at a turn at which the gate was
      open: at that turn's clock reading, either fewer milliseconds had
      passed than the previous packet's timestamp (0 for the first packet)
      or no key frame was pending. */
  lemma SentWhenGateOpen(start: Millis, readings: seq<Millis>, events: seq<Event>, log: seq<Step>,
                         outcome: Outcome, sent: seq<Packet>, isConnected: nat -> bool, sendAccepted: nat -> bool,
                         i: nat)
    requires Paced(start, readings, events, log)
    requires Reported(events, outcome, Proceeds(log), sent, isConnected, sendAccepted)
    requires i < |sent|
    ensures var m := if outcome == LinkDown then Proceeds(log) - 1 else Proceeds(log);
      var e := EventOfPacket(events, m, i);
      && e < Proceeds(log) && events[e].packet == sent[i]
      && !Held(Elapsed(start, readings[TurnOf(log, e)]), if i == 0 then 0 else sent[i - 1].timestamp,
               NextIsKey(events, e))
  {
    var m := if outcome == LinkDown then Proceeds(log) - 1 else Proceeds(log);
    assert sent == SentBefore(events, m);
    var e := EventOfPacket(events, m, i);
    ReadWhenGateOpen(start, readings, events, log, e);
    PreFrameTimeIsLast(events, e);
    assert SentBefore(events, e) == sent[..i];
    assert PreFrameTime(events, e) == if i == 0 then 0 else sent[i - 1].timestamp;
  }

  /** A run that stops at the head of a turn reports the packets sent so
      far. */
  lemma GatedReported(events: seq<Event>, n: nat, sent: seq<Packet>, preFrameTime: nat, nextIsKey: bool,
                      isConnected: nat -> bool, sendAccepted: nat -> bool)
    requires Gated(events, n, sent, preFrameTime, nextIsKey, isConnected, sendAccepted) && n < |events|
    ensures Reported(events, ClockExhausted, n, sent, isConnected, sendAccepted)
  {
    SentBeforePrefix(events, n);
  }

  /** After the last event every packet of the walk has been sent. */
  lemma GatedAll(events: seq<Event>, sent: seq<Packet>, preFrameTime: nat, nextIsKey: bool,
                 isConnected: nat -> bool, sendAccepted: nat -> bool)
    requires Gated(events, |events|, sent, preFrameTime, nextIsKey, isConnected, sendAccepted)
    ensures Reported(events, EndOfStream, |events|, sent, isConnected, sendAccepted)
  {
    SentBeforePrefix(events, |events|);
  }

  /** Before a forwarded event the link is found down: the run stops short
      of the walk's packets. */
  lemma GatedLinkDown(events: seq<Event>, n: nat, sent: seq<Packet>, preFrameTime: nat, nextIsKey: bool,
                      isConnected: nat -> bool, sendAccepted: nat -> bool)
    requires Gated(events, n, sent, preFrameTime, nextIsKey, isConnected, sendAccepted)
    requires n < |events| && events[n].Forwarded? && !isConnected(|sent|)
    ensures Reported(events, LinkDown, n + 1, sent, isConnected, sendAccepted)
  {
    SentBeforePrefix(events, n);
  }

  /** A forwarded event whose packet the connection refuses: that packet is
      the last one sent. */
  lemma GatedRejected(events: seq<Event>, n: nat, sent: seq<Packet>, preFrameTime: nat, nextIsKey: bool,
                      isConnected: nat -> bool, sendAccepted: nat -> bool)
    requires Gated(events, n, sent, preFrameTime, nextIsKey, isConnected, sendAccepted)
    requires n < |events| && events[n].Forwarded? && isConnected(|sent|) && !sendAccepted(|sent|)
    ensures Reported(events, SendRejected, n + 1, sent + [events[n].packet], isConnected, sendAccepted)
  {
    assert SentBefore(events, n + 1) == sent + [events[n].packet];
    SentBeforePrefix(events, n + 1);
    forall i | 0 <= i < |sent| + 1
      ensures isConnected(i)
    {
      if i < |sent| {
        assert isConnected(i) && sendAccepted(i);
      }
    }
  }

  /** A turn that goes on leaves the loop in the state after one more
      event. */
  lemma TurnGoesOn(data: seq<byte>, off: nat, next: nat, n: nat,
                   sent: seq<Packet>, sent': seq<Packet>, preFrameTime: nat, preFrameTime': nat,
                   nextIsKey: bool, nextIsKey': bool, isConnected: nat -> bool, sendAccepted: nat -> bool)
    requires Walked(data, off, n, sent, preFrameTime, nextIsKey, isConnected, sendAccepted)
    requires !Final(TagStep(data, off).0) && next == TagStep(data, off).1
    requires Handled(TagStep(data, off).0, sent, sent', preFrameTime, preFrameTime', nextIsKey, nextIsKey')
    requires TagStep(data, off).0.Forwarded? ==> isConnected(|sent|) && sendAccepted(|sent|)
    ensures Walked(data, next, n + 1, sent', preFrameTime', nextIsKey', isConnected, sendAccepted)
  {
    DemuxAt(data, FirstTagOffset, n);
    DemuxFinalAt(data, FirstTagOffset, n);
    TurnOffsetNext(data, FirstTagOffset, n);
    GatedNext(Demux(data, FirstTagOffset), n, sent, sent', preFrameTime, preFrameTime', nextIsKey, nextIsKey',
              isConnected, sendAccepted);
  }

  /** A turn that ends the walk sent the last of the packets. */
  lemma TurnEnds(data: seq<byte>, off: nat, n: nat,
                 sent: seq<Packet>, sent': seq<Packet>, preFrameTime: nat, preFrameTime': nat,
                 nextIsKey: bool, nextIsKey': bool, isConnected: nat -> bool, sendAccepted: nat -> bool)
    requires Walked(data, off, n, sent, preFrameTime, nextIsKey, isConnected, sendAccepted)
    requires Final(TagStep(data, off).0)
    requires Handled(TagStep(data, off).0, sent, sent', preFrameTime, preFrameTime', nextIsKey, nextIsKey')
    requires TagStep(data, off).0.Forwarded? ==> isConnected(|sent|) && sendAccepted(|sent|)
    ensures Reported(Demux(data, FirstTagOffset), EndOfStream, n + 1, sent', isConnected, sendAccepted)
  {
    DemuxAt(data, FirstTagOffset, n);
    DemuxFinalAt(data, FirstTagOffset, n);
    GatedNext(Demux(data, FirstTagOffset), n, sent, sent', preFrameTime, preFrameTime', nextIsKey, nextIsKey',
              isConnected, sendAccepted);
    GatedAll(Demux(data, FirstTagOffset), sent', preFrameTime', nextIsKey', isConnected, sendAccepted);
  }

  /** A turn that found the link down had a packet to send. */
  lemma TurnLinkDown(data: seq<byte>, off: nat, n: nat, sent: seq<Packet>,
                     preFrameTime: nat, nextIsKey: bool, isConnected: nat -> bool, sendAccepted: nat -> bool)
    requires Walked(data, off, n, sent, preFrameTime, nextIsKey, isConnected, sendAccepted)
    requires TagStep(data, off).0.Forwarded? && !isConnected(|sent|)
    ensures Reported(Demux(data, FirstTagOffset), LinkDown, n + 1, sent, isConnected, sendAccepted)
  {
    DemuxAt(data, FirstTagOffset, n);
    GatedLinkDown(Demux(data, FirstTagOffset), n, sent, preFrameTime, nextIsKey, isConnected, sendAccepted);
  }

  /** A turn whose send was rejected sent the next packet of the walk. */
  lemma TurnRejected(data: seq<byte>, off: nat, n: nat, sent: seq<Packet>, sent': seq<Packet>,
                     preFrameTime: nat, nextIsKey: bool, isConnected: nat -> bool, sendAccepted: nat -> bool)
    requires Walked(data, off, n, sent, preFrameTime, nextIsKey, isConnected, sendAccepted)
    requires TagStep(data, off).0.Forwarded? && sent' == sent + [TagStep(data, off).0.packet]
    requires isConnected(|sent|) && !sendAccepted(|sent|)
    ensures Reported(Demux(data, FirstTagOffset), SendRejected, n + 1, sent', isConnected, sendAccepted)
  {
    DemuxAt(data, FirstTagOffset, n);
    GatedRejected(Demux(data, FirstTagOffset), n, sent, preFrameTime, nextIsKey, isConnected, sendAccepted);
  }

  /** Lines 92-136: one turn that reads the tag at the cursor, skips it or
      builds its packet (lines 92-111) and hands that to `Deliver`. It is one turn of the walk: the event is
      `TagStep` at the cursor, and the cursor ends at the next tag. */
  method SendTag(file: FlvFile, isConnected: nat -> bool, sendAccepted: nat -> bool,
                 tagType: bv32, dataLength: bv32, timestamp: bv32, streamId: bv32, preTagSize: bv32,
                 preFrameTime: nat, nextIsKey: bool, sent: seq<Packet>)
    returns (turn: TurnEnd, ret: bool, tagType': bv32, dataLength': bv32, timestamp': bv32, streamId': bv32,
             preTagSize': bv32, preFrameTime': nat, nextIsKey': bool, sent': seq<Packet>)
    requires tagType < 0x100
    modifies file
    ensures tagType' < 0x100
    ensures ret <==> !(turn == Stopped(LinkDown) || turn == Stopped(SendRejected))
    ensures turn.Stopped? ==> turn.outcome != ClockExhausted
    ensures turn == GoOn ==>
      && !Final(TagStep(file.data, old(file.pos)).0)
      && file.pos == TagStep(file.data, old(file.pos)).1
    ensures turn == GoOn || turn == Stopped(EndOfStream) ==>
      && Handled(TagStep(file.data, old(file.pos)).0, sent, sent', preFrameTime, preFrameTime', nextIsKey, nextIsKey')
      && (TagStep(file.data, old(file.pos)).0.Forwarded? ==> isConnected(|sent|) && sendAccepted(|sent|))
    ensures turn == Stopped(EndOfStream) ==> Final(TagStep(file.data, old(file.pos)).0)
    ensures turn == Stopped(LinkDown) ==>
      TagStep(file.data, old(file.pos)).0.Forwarded? && sent' == sent && !isConnected(|sent|)
    ensures turn == Stopped(SendRejected) ==>
      && TagStep(file.data, old(file.pos)).0.Forwarded?
      && sent' == sent + [TagStep(file.data, old(file.pos)).0.packet]
      && isConnected(|sent|) && !sendAccepted(|sent|)
  {
    ghost var off := file.pos;
    ret, preFrameTime', nextIsKey', sent', preTagSize' := true, preFrameTime, nextIsKey, sent, preTagSize;
    var ok;
    ok, tagType', dataLength', timestamp', streamId' := ReadTagHeader(file, tagType, dataLength, timestamp, streamId);
    if !ok {
      StepEnds(file.data, off);
      return Stopped(EndOfStream), ret, tagType', dataLength', timestamp', streamId', preTagSize', preFrameTime', nextIsKey', sent';
    }
    BitsOfConstants();
    LoadedIs(file.data[off], tagType', AudioTag);
    LoadedIs(file.data[off], tagType', VideoTag);
    if tagType' != 0x08 && tagType' != 0x09 {
      var skippedTag := file.SeekCur(Unsigned(dataLength') + 4);
      StepSkips(file.data, off);
      return GoOn, ret, tagType', dataLength', timestamp', streamId', preTagSize', preFrameTime', nextIsKey', sent';
    }
    turn, ret, tagType', nextIsKey', preTagSize', preFrameTime', sent' :=
      ForwardTag(file, off, isConnected, sendAccepted, tagType', Unsigned(dataLength'), Unsigned(timestamp'), preTagSize,
                 preFrameTime, nextIsKey, sent);
  }

  /** Lines 104-136: the body of an audio or video tag whose header has just
      been read: it is read whole into a packet, which `Deliver` hands on, or
      the turn ends the walk when the body is cut short. */
  method ForwardTag(file: FlvFile, ghost off: nat, isConnected: nat -> bool, sendAccepted: nat -> bool,
                    tagType: bv32, dataLength: nat, timestamp: nat, preTagSize: bv32,
                    preFrameTime: nat, nextIsKey: bool, sent: seq<Packet>)
    returns (turn: TurnEnd, ret: bool, tagType': bv32, nextIsKey': bool, preTagSize': bv32,
             preFrameTime': nat, sent': seq<Packet>)
    requires off + TagHeaderSize <= |file.data| && file.pos == off + TagHeaderSize && IsMedia(file.data[off])
    requires tagType == Bits(file.data[off]) as bv32
    requires dataLength == HeaderAt(file.data, off).dataLength
    requires timestamp == HeaderAt(file.data, off).timestamp
    modifies file
    ensures tagType' < 0x100
    ensures ret <==> !(turn == Stopped(LinkDown) || turn == Stopped(SendRejected))
    ensures turn.Stopped? ==> turn.outcome != ClockExhausted
    ensures turn == GoOn ==>
      && !Final(TagStep(file.data, off).0)
      && file.pos == TagStep(file.data, off).1
    ensures turn == GoOn || turn == Stopped(EndOfStream) ==>
      && Handled(TagStep(file.data, off).0, sent, sent', preFrameTime, preFrameTime', nextIsKey, nextIsKey')
      && (TagStep(file.data, off).0.Forwarded? ==> isConnected(|sent|) && sendAccepted(|sent|))
    ensures turn == Stopped(EndOfStream) ==> Final(TagStep(file.data, off).0)
    ensures turn == Stopped(LinkDown) ==>
      TagStep(file.data, off).0.Forwarded? && sent' == sent && !isConnected(|sent|)
    ensures turn == Stopped(SendRejected) ==>
      && TagStep(file.data, off).0.Forwarded?
      && sent' == sent + [TagStep(file.data, off).0.packet]
      && isConnected(|sent|) && !sendAccepted(|sent|)
  {
    tagType', nextIsKey', preTagSize', preFrameTime', sent' := tagType, nextIsKey, preTagSize, preFrameTime, sent;
    var body := file.Fread(dataLength);
    if |body| != dataLength {
      StepTruncated(file.data, off);
      return Stopped(EndOfStream), true, tagType', nextIsKey', preTagSize', preFrameTime', sent';
    }
    LowByteOfLoaded(file.data[off]);
    var packet := Packet(LowByte(tagType), timestamp, dataLength, body);
    preFrameTime' := timestamp;
    StepForwards(file.data, off);
    turn, ret, tagType', nextIsKey', preTagSize', sent' :=
      Deliver(file, packet, isConnected, sendAccepted, tagType, nextIsKey, preTagSize, sent);
  }

  /** Lines 113-136: hands the packet to the connection, which must be up
      and must take it, then looks one tag ahead. */
  method Deliver(file: FlvFile, packet: Packet, isConnected: nat -> bool, sendAccepted: nat -> bool,
                 tagType: bv32, nextIsKey: bool, preTagSize: bv32, sent: seq<Packet>)
    returns (turn: TurnEnd, ret: bool, tagType': bv32, nextIsKey': bool, preTagSize': bv32, sent': seq<Packet>)
    requires tagType < 0x100
    modifies file
    ensures tagType' < 0x100
    ensures ret <==> isConnected(|sent|) && sendAccepted(|sent|)
    ensures !isConnected(|sent|) ==> turn == Stopped(LinkDown) && sent' == sent
    ensures isConnected(|sent|) ==> sent' == sent + [packet]
    ensures isConnected(|sent|) && !sendAccepted(|sent|) ==> turn == Stopped(SendRejected)
    ensures isConnected(|sent|) && sendAccepted(|sent|) ==>
      && turn == (if LookaheadFrom(file.data, old(file.pos) + PreviousTagSizeLength).Stop? then Stopped(EndOfStream) else GoOn)
      && nextIsKey' == KeyAfter(LookaheadFrom(file.data, old(file.pos) + PreviousTagSizeLength), nextIsKey)
      && (turn == GoOn ==> file.pos == old(file.pos) + PreviousTagSizeLength)
  {
    tagType', nextIsKey', preTagSize', sent' := tagType, nextIsKey, preTagSize, sent;
    if !isConnected(|sent|) {
      return Stopped(LinkDown), false, tagType', nextIsKey', preTagSize', sent';
    }
    sent' := sent + [packet];
    if !sendAccepted(|sent|) {
      return Stopped(SendRejected), false, tagType', nextIsKey', preTagSize', sent';
    }
    ret := true;
    var ok;
    ok, tagType', nextIsKey', preTagSize' := LookAhead(file, tagType, nextIsKey, preTagSize);
    turn := if ok then GoOn else Stopped(EndOfStream);
  }

  /** One turn that reads a tag, as a step of the walk: from the state after
      `n` events it reaches the state after `n + 1`, or it ends the run with
      what the run promises about the packets sent. */
  method TakeTurn(file: FlvFile, isConnected: nat -> bool, sendAccepted: nat -> bool,
                  tagType: bv32, dataLength: bv32, timestamp: bv32, streamId: bv32, preTagSize: bv32,
                  preFrameTime: nat, nextIsKey: bool, sent: seq<Packet>, ghost n: nat)
    returns (turn: TurnEnd, ret: bool, tagType': bv32, dataLength': bv32, timestamp': bv32, streamId': bv32,
             preTagSize': bv32, preFrameTime': nat, nextIsKey': bool, sent': seq<Packet>)
    requires tagType < 0x100
    requires Walked(file.data, file.pos, n, sent, preFrameTime, nextIsKey, isConnected, sendAccepted)
    modifies file
    ensures tagType' < 0x100
    ensures ret <==> !(turn == Stopped(LinkDown) || turn == Stopped(SendRejected))
    ensures turn.Stopped? ==> turn.outcome != ClockExhausted
    ensures turn == GoOn ==>
      Walked(file.data, file.pos, n + 1, sent', preFrameTime', nextIsKey', isConnected, sendAccepted)
    ensures turn.Stopped? ==> Reported(Demux(file.data, FirstTagOffset), turn.outcome, n + 1, sent', isConnected, sendAccepted)
  {
    ghost var off := file.pos;
    turn, ret, tagType', dataLength', timestamp', streamId', preTagSize', preFrameTime', nextIsKey', sent' :=
      SendTag(file, isConnected, sendAccepted, tagType, dataLength, timestamp, streamId, preTagSize,
              preFrameTime, nextIsKey, sent);
    if turn == GoOn {
      TurnGoesOn(file.data, off, file.pos, n, sent, sent', preFrameTime, preFrameTime', nextIsKey, nextIsKey',
                 isConnected, sendAccepted);
    } else if turn == Stopped(EndOfStream) {
      TurnEnds(file.data, off, n, sent, sent', preFrameTime, preFrameTime', nextIsKey, nextIsKey',
               isConnected, sendAccepted);
    } else if turn == Stopped(LinkDown) {
      TurnLinkDown(file.data, off, n, sent, preFrameTime, nextIsKey, isConnected, sendAccepted);
    } else {
      TurnRejected(file.data, off, n, sent, sent', preFrameTime, nextIsKey, isConnected, sendAccepted);
    }
  }

  /** Lines 79-136: one turn of the loop. It takes a clock reading and
      either waits, as the gate at line 81 decides, or reads a tag with
      `TakeTurn`. The log gains that turn's decision and stays paced, and
      the loop state is after the events of every turn that read a tag. */
  method PacedTurn(file: FlvFile, start: Millis, readings: seq<Millis>, isConnected: nat -> bool, sendAccepted: nat -> bool,
                   tagType: bv32, dataLength: bv32, timestamp: bv32, streamId: bv32, preTagSize: bv32,
                   preFrameTime: nat, nextIsKey: bool, log: seq<Step>, sent: seq<Packet>)
    returns (turn: TurnEnd, ret: bool, tagType': bv32, dataLength': bv32, timestamp': bv32, streamId': bv32,
             preTagSize': bv32, preFrameTime': nat, nextIsKey': bool, log': seq<Step>, sent': seq<Packet>)
    requires tagType < 0x100 && |log| < |readings|
    requires Walked(file.data, file.pos, Proceeds(log), sent, preFrameTime, nextIsKey, isConnected, sendAccepted)
    requires Paced(start, readings, Demux(file.data, FirstTagOffset), log)
    modifies file
    ensures tagType' < 0x100
    ensures ret <==> !(turn == Stopped(LinkDown) || turn == Stopped(SendRejected))
    ensures |log'| == |log| + 1 && Paced(start, readings, Demux(file.data, FirstTagOffset), log')
    ensures turn == GoOn ==>
      Walked(file.data, file.pos, Proceeds(log'), sent', preFrameTime', nextIsKey', isConnected, sendAccepted)
    ensures turn.Stopped? ==>
      && turn.outcome != ClockExhausted
      && log'[|log|] == Proceed
      && Reported(Demux(file.data, FirstTagOffset), turn.outcome, Proceeds(log'), sent', isConnected, sendAccepted)
  {
    ghost var n := Proceeds(log);
    ghost var events := Demux(file.data, FirstTagOffset);
    var now := readings[|log|];
    var step := if Elapsed(start, now) < preFrameTime && nextIsKey then Wait else Proceed;
    GateDecides(start, now, events, n, preFrameTime, nextIsKey);
    PacedExtend(start, readings, events, log, step);
    log' := log + [step];
    if step == Wait {
      return GoOn, true, tagType, dataLength, timestamp, streamId, preTagSize, preFrameTime, nextIsKey, log', sent;
    }
    turn, ret, tagType', dataLength', timestamp', streamId', preTagSize', preFrameTime', nextIsKey', sent' :=
      TakeTurn(file, isConnected, sendAccepted, tagType, dataLength, timestamp, streamId, preTagSize,
               preFrameTime, nextIsKey, sent, n);
  }

  /** RTMPSendPacket, lines 55-144, after the file header and the first
      PreviousTagSize have been passed over (lines 73-75). Returns what the
      function returns, how the run ended, the gate's decision at every
      turn, and the packets handed to the connection, in order: those of
      the events whose tags the proceeding turns read. */
  method SendPackets(file: FlvFile, start: Millis, readings: seq<Millis>,
                     isConnected: nat -> bool, sendAccepted: nat -> bool)
    returns (ret: bool, outcome: Outcome, log: seq<Step>, sent: seq<Packet>)
    modifies file
    ensures ret <==> outcome != LinkDown && outcome != SendRejected
    ensures !ret <==> outcome == LinkDown || (sent != [] && !sendAccepted(|sent| - 1))
    ensures Paced(start, readings, Demux(file.data, FirstTagOffset), log)
    ensures Reported(Demux(file.data, FirstTagOffset), outcome, Proceeds(log), sent, isConnected, sendAccepted)
    ensures outcome == ClockExhausted ==> |log| == |readings|
    ensures outcome != ClockExhausted ==> |log| > 0 && log[|log| - 1] == Proceed
  {
    file.SeekSet(FileHeaderSize);
    var skipped := file.SeekCur(PreviousTagSizeLength);
    ret := true;
    var nextIsKey := false;
    var preFrameTime: nat := 0;
    var tagType: bv32, dataLength: bv32, timestamp: bv32, streamId: bv32, preTagSize: bv32 := 0, 0, 0, 0, 0;
    log, sent := [], [];
    ghost var events := Demux(file.data, FirstTagOffset);
    while |log| < |readings|
      invariant tagType < 0x100 && ret
      invariant Walked(file.data, file.pos, Proceeds(log), sent, preFrameTime, nextIsKey, isConnected, sendAccepted)
      invariant Paced(start, readings, events, log)
      decreases |readings| - |log|
    {
      var turn;
      turn, ret, tagType, dataLength, timestamp, streamId, preTagSize, preFrameTime, nextIsKey, log, sent :=
        PacedTurn(file, start, readings, isConnected, sendAccepted, tagType, dataLength, timestamp, streamId,
                  preTagSize, preFrameTime, nextIsKey, log, sent);
      if turn.Stopped? {
        return ret, turn.outcome, log, sent;
      }
    }
    outcome := ClockExhausted;
    GatedReported(events, Proceeds(log), sent, preFrameTime, nextIsKey, isConnected, sendAccepted);
  }
}
