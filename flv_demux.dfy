/** The tag walk of the publisher, as a function of the file's bytes.

    From a tag's first byte the walk decodes the 11-byte tag header (type,
    data length, timestamp, stream id). A tag that is neither audio nor video
    is skipped together with the PreviousTagSize field after it. An audio or
    video tag yields a packet of exactly `data length` body bytes, after which
    the walk reads the PreviousTagSize field and looks one tag ahead: when the
    next tag is a video tag, its first body byte tells whether it is an AVC
    key frame. `Demux` lists what happens, one event per tag, in file order. */
module FlvDemux {
  import opened ByteOrder

  const AudioTag: byte := 0x08
  const VideoTag: byte := 0x09
  /** First byte of a VIDEODATA body: frame type 1 (key frame) in the high
      nibble, codec id 7 (AVC) in the low nibble. */
  const AvcKeyFrame: byte := 0x17

  const FileHeaderSize: nat := 9
  const PreviousTagSizeLength: nat := 4
  /** The walk starts after the file header and the first PreviousTagSize. */
  const FirstTagOffset: nat := FileHeaderSize + PreviousTagSizeLength
  /** type (1 byte), data length (3), timestamp (4), stream id (3). */
  const TagHeaderSize: nat := 11

  predicate IsMedia(tagType: byte) {
    tagType == AudioTag || tagType == VideoTag
  }

  datatype TagHeader = TagHeader(tagType: byte, dataLength: nat, timestamp: nat, streamId: nat)

  /** The layout of the tag header whose first byte is at `off`: the type
      byte, then the data length (3 bytes, big-endian), the timestamp as the
      reader decodes its 4 bytes, and the stream id (3 bytes, big-endian). */
  function HeaderAt(data: seq<byte>, off: nat): (h: TagHeader)
    requires off + TagHeaderSize <= |data|
    ensures h.dataLength < 0x100_0000 && h.timestamp < 0x100_0000 && h.streamId < 0x100_0000
  {
    var ts := data[off + 4..off + 8];
    assert ts[..3] == data[off + 4..off + 7];
    TagHeader(data[off], Be24(data[off + 1..off + 4]), TimeValue(ts), Be24(data[off + 8..off + 11]))
  }

  /** What the publisher hands to the sink: packet type, timestamp, body size
      and body. */
  datatype Packet = Packet(packetType: byte, timestamp: nat, bodySize: nat, body: seq<byte>)

  /** The result of looking one tag ahead after a forwarded tag: the walk
      stops (a read failed), the key-frame flag is kept (the next tag is not
      video), or it is set to whether the next video tag is an AVC key frame. */
  datatype Lookahead = Stop | Keep | Mark(isKey: bool)

  datatype Event =
    | Skipped(header: TagHeader)
    | Forwarded(packet: Packet, look: Lookahead)
    | EndOfInput

  /** The event ends the walk. */
  predicate Final(e: Event) {
    e.EndOfInput? || (e.Forwarded? && e.look.Stop?)
  }

  /** The lookahead after a forwarded tag whose PreviousTagSize field ends
      at `next`: reading PreviousTagSize or peeking the next type byte fails
      at the end of the file; a video tag needs its first body byte, 11 bytes
      further on. */
  function LookaheadFrom(data: seq<byte>, next: nat): (look: Lookahead)
    ensures look == Keep <==> next < |data| && data[next] != VideoTag
    ensures look.Mark? <==> next + TagHeaderSize < |data| && data[next] == VideoTag
    ensures look.Mark? ==> (look.isKey <==> data[next + TagHeaderSize] == AvcKeyFrame)
  {
    if next >= |data| then Stop
    else if data[next] != VideoTag then Keep
    else if next + TagHeaderSize >= |data| then Stop
    else Mark(data[next + TagHeaderSize] == AvcKeyFrame)
  }

  /** The key-frame flag after a lookahead: set by a video tag, kept
      otherwise. */
  function KeyAfter(look: Lookahead, key: bool): bool {
    if look.Mark? then look.isKey else key
  }

  /** One turn of the walk at the tag starting at `off`: what happens to the
      tag and, unless that ends the walk, where the next tag starts. */
  function TagStep(data: seq<byte>, off: nat): (r: (Event, nat))
    ensures !Final(r.0) ==> off + TagHeaderSize <= |data| && r.1 > off
  {
    if off + TagHeaderSize > |data| then (EndOfInput, off)
    else
      var h := HeaderAt(data, off);
      var bodyStart := off + TagHeaderSize;
      var next := bodyStart + h.dataLength + PreviousTagSizeLength;
      if !IsMedia(h.tagType) then (Skipped(h), next)
      else if bodyStart + h.dataLength > |data| then (EndOfInput, off)
      else
        var p := Packet(h.tagType, h.timestamp, h.dataLength, data[bodyStart..bodyStart + h.dataLength]);
        (Forwarded(p, LookaheadFrom(data, next)), next)
  }

  /** The events of the walk from the tag starting at `off` to the end. */
  function Demux(data: seq<byte>, off: nat): (events: seq<Event>)
    ensures |events| >= 1
    decreases |data| - off
  {
    var step := TagStep(data, off);
    if Final(step.0) then [step.0] else [step.0] + Demux(data, step.1)
  }

  /** The packets of the forwarded events, in order. */
  function Packets(events: seq<Event>): seq<Packet> {
    if events == [] then []
    else (if events[0].Forwarded? then [events[0].packet] else []) + Packets(events[1..])
  }

  /** A well-formed packet: an audio or video type, a body of exactly the
      declared size, and values that fit the 24-bit fields they came from. */
  predicate ValidPacket(p: Packet) {
    IsMedia(p.packetType) && p.bodySize == |p.body| && p.bodySize < 0x100_0000
    && p.timestamp < 0x100_0000
  }

  // ---------------------------------------------------------------------
  // Properties of the walk.

  /** The walk ends exactly once: only its last event is final. */
  lemma {:induction false} DemuxEndsOnce(data: seq<byte>, off: nat)
    ensures Final(Demux(data, off)[|Demux(data, off)| - 1])
    ensures forall i | 0 <= i < |Demux(data, off)| - 1 :: !Final(Demux(data, off)[i])
    decreases |data| - off
  {
    var (e, next) := TagStep(data, off);
    if !Final(e) {
      DemuxEndsOnce(data, next);
      assert Demux(data, off) == [e] + Demux(data, next);
    }
  }

  /** A turn of the walk forwards only well-formed packets. */
  lemma TagStepForwardsMedia(data: seq<byte>, off: nat)
    ensures TagStep(data, off).0.Forwarded? ==> ValidPacket(TagStep(data, off).0.packet)
  {
  }

  /** Every packet the walk forwards is well formed, and no other tag types
      reach the sink. */
  lemma {:induction false} DemuxForwardsMedia(data: seq<byte>, off: nat)
    ensures forall p | p in Packets(Demux(data, off)) :: ValidPacket(p)
    decreases |data| - off
  {
    var (e, next) := TagStep(data, off);
    TagStepForwardsMedia(data, off);
    if Final(e) {
      assert Packets(Demux(data, off)) == Packets([e]);
    } else {
      DemuxForwardsMedia(data, next);
      PacketsAppend([e], Demux(data, next));
    }
  }

  /** The packets of a prefix of the events are a prefix of their packets,
      a shorter one when a packet follows. */
  lemma PacketsPrefix(events: seq<Event>, n: nat)
    requires n <= |events|
    ensures Packets(events[..n]) <= Packets(events)
    ensures n < |events| && events[n].Forwarded? ==> |Packets(events[..n])| < |Packets(events)|
  {
    assert events[..n] + events[n..] == events;
    PacketsAppend(events[..n], events[n..]);
    if n < |events| {
      assert events[n..][0] == events[n];
    }
  }

  /** The packets of one more event. */
  lemma PacketsSnoc(events: seq<Event>, n: nat)
    requires n < |events|
    ensures Packets(events[..n + 1]) == Packets(events[..n]) + (if events[n].Forwarded? then [events[n].packet] else [])
  {
    assert events[..n + 1] == events[..n] + [events[n]];
    PacketsAppend(events[..n], [events[n]]);
  }

  // ---------------------------------------------------------------------
  // The walk one turn at a time, as the publisher's loop takes it.

  /** Where the walk from `off` stands after `n` turns. */
  function TurnOffset(data: seq<byte>, off: nat, n: nat): nat
    decreases n
  {
    if n == 0 then off else TurnOffset(data, TagStep(data, off).1, n - 1)
  }

  /** One more turn starts where the last one left the cursor. */
  lemma {:induction false} TurnOffsetNext(data: seq<byte>, off: nat, n: nat)
    ensures TurnOffset(data, off, n + 1) == TagStep(data, TurnOffset(data, off, n)).1
    decreases n
  {
    if n > 0 {
      TurnOffsetNext(data, TagStep(data, off).1, n - 1);
    }
  }

  /** Event `n` of the walk is the turn at the cursor after `n` turns. */
  lemma {:induction false} DemuxAt(data: seq<byte>, off: nat, n: nat)
    requires n < |Demux(data, off)|
    ensures Demux(data, off)[n] == TagStep(data, TurnOffset(data, off, n)).0
    decreases n
  {
    var step := TagStep(data, off);
    if n > 0 {
      assert !Final(step.0);
      assert Demux(data, off)[n] == Demux(data, step.1)[n - 1];
      DemuxAt(data, step.1, n - 1);
    }
  }

  /** The event at `n` ends the walk exactly when it is the last one. */
  lemma DemuxFinalAt(data: seq<byte>, off: nat, n: nat)
    requires n < |Demux(data, off)|
    ensures Final(Demux(data, off)[n]) <==> n == |Demux(data, off)| - 1
  {
    DemuxEndsOnce(data, off);
  }

  /** A lookahead that sets the key-frame flag found a video tag at the next
      tag and read the byte 11 bytes on, the first byte of that tag's body. */
  lemma LookaheadSeesNext(data: seq<byte>, off: nat)
    requires TagStep(data, off).0.Forwarded? && TagStep(data, off).0.look.Mark?
    ensures var next := TagStep(data, off).1;
      && next + TagHeaderSize < |data| && data[next] == VideoTag
      && (TagStep(data, off).0.look.isKey <==> data[next + TagHeaderSize] == AvcKeyFrame)
  {
  }

  /** The turn when fewer than 11 bytes are left. */
  lemma StepEnds(data: seq<byte>, off: nat)
    requires off + TagHeaderSize > |data|
    ensures TagStep(data, off).0 == EndOfInput
  {
  }

  /** The turn at a tag that is neither audio nor video. */
  lemma StepSkips(data: seq<byte>, off: nat)
    requires off + TagHeaderSize <= |data| && !IsMedia(data[off])
    ensures TagStep(data, off).0 == Skipped(HeaderAt(data, off))
    ensures TagStep(data, off).1 == off + TagHeaderSize + HeaderAt(data, off).dataLength + PreviousTagSizeLength
  {
  }

  /** The turn at an audio or video tag whose body runs past the end. */
  lemma StepTruncated(data: seq<byte>, off: nat)
    requires off + TagHeaderSize <= |data| && IsMedia(data[off])
    requires off + TagHeaderSize + HeaderAt(data, off).dataLength > |data|
    ensures TagStep(data, off).0 == EndOfInput
  {
  }

  /** The turn at an audio or video tag whose body is all there. */
  lemma StepForwards(data: seq<byte>, off: nat)
    requires off + TagHeaderSize <= |data| && IsMedia(data[off])
    requires off + TagHeaderSize + HeaderAt(data, off).dataLength <= |data|
    ensures TagStep(data, off).0.Forwarded?
    ensures TagStep(data, off).0.packet
      == Packet(data[off], HeaderAt(data, off).timestamp, HeaderAt(data, off).dataLength,
                data[off + TagHeaderSize..off + TagHeaderSize + HeaderAt(data, off).dataLength])
    ensures TagStep(data, off).0.look
      == LookaheadFrom(data, off + TagHeaderSize + HeaderAt(data, off).dataLength + PreviousTagSizeLength)
    ensures TagStep(data, off).1 == off + TagHeaderSize + HeaderAt(data, off).dataLength + PreviousTagSizeLength
  {
  }

  lemma {:induction false} PacketsAppend(a: seq<Event>, b: seq<Event>)
    ensures Packets(a + b) == Packets(a) + Packets(b)
  {
    if a != [] {
      assert (a + b)[0] == a[0];
      assert (a + b)[1..] == a[1..] + b;
      PacketsAppend(a[1..], b);
    } else {
      assert a + b == b;
    }
  }
}
