/** An FLV writer used as the reference for the walk: files built from a
    list of tags, laid out as the FLV file format lays them out, and what the
    walk must make of each such file. */
module FlvEncoding {
  import opened ByteOrder
  import opened FlvDemux

  /** A tag to write, each header field given as the bytes the FLV format
      stores in it: TagType, DataSize (3 bytes), Timestamp and
      TimestampExtended (4 bytes), StreamID (3 bytes), then the body and the
      PreviousTagSize field that follows the tag (4 bytes). */
  datatype Tag = Tag(tagType: byte, dataSize: seq<byte>, timestamp: seq<byte>, streamId: seq<byte>,
                     body: seq<byte>, previousTagSize: seq<byte>)

  /** The fields have their widths, DataSize is the length of the body and
      PreviousTagSize the length of the whole tag. */
  predicate WellFormedTag(t: Tag) {
    && FieldWidths(t)
    && Be24(t.dataSize) == |t.body|
    && Be32(t.previousTagSize) == TagHeaderSize + |t.body|
  }

  predicate FieldWidths(t: Tag) {
    |t.dataSize| == 3 && |t.timestamp| == 4 && |t.streamId| == 3 && |t.previousTagSize| == 4
  }

  predicate WellFormedTags(tags: seq<Tag>) {
    forall t | t in tags :: WellFormedTag(t)
  }

  /** The 11-byte tag header. */
  function HeaderBytes(t: Tag): seq<byte> {
    [t.tagType] + t.dataSize + t.timestamp + t.streamId
  }

  /** A tag as it sits in the file: header, body, then its PreviousTagSize. */
  function EncodeTag(t: Tag): seq<byte> {
    HeaderBytes(t) + t.body + t.previousTagSize
  }

  function EncodeTags(tags: seq<Tag>): seq<byte> {
    if tags == [] then [] else EncodeTag(tags[0]) + EncodeTags(tags[1..])
  }

  /** A file: the 9-byte file header, the first PreviousTagSize (zero), and
      the tags. */
  function EncodeFile(header: seq<byte>, tags: seq<Tag>): seq<byte> {
    header + [0, 0, 0, 0] + EncodeTags(tags)
  }

  // ---------------------------------------------------------------------
  // What the walk must produce for an encoded file.

  /** The header the walk decodes: the timestamp loses TimestampExtended. */
  function HeaderOf(t: Tag): TagHeader
    requires WellFormedTag(t)
  {
    TagHeader(t.tagType, |t.body|, TimeValue(t.timestamp), Be24(t.streamId))
  }

  function PacketOf(t: Tag): Packet
    requires WellFormedTag(t)
  {
    Packet(t.tagType, TimeValue(t.timestamp), |t.body|, t.body)
  }

  /** What looking ahead at tag `u` yields: for a video tag, whether its body
      starts with the AVC key-frame byte. */
  function LookaheadAt(u: Tag): Lookahead {
    if u.tagType != VideoTag then Keep
    else Mark(|u.body| > 0 && u.body[0] == AvcKeyFrame)
  }

  function Expected(tags: seq<Tag>): seq<Event>
    requires WellFormedTags(tags)
  {
    if tags == [] then [EndOfInput]
    else
      var t := tags[0];
      if !IsMedia(t.tagType) then [Skipped(HeaderOf(t))] + Expected(tags[1..])
      else if |tags| == 1 then [Forwarded(PacketOf(t), Stop)]
      else [Forwarded(PacketOf(t), LookaheadAt(tags[1]))] + Expected(tags[1..])
  }

  /** The audio and video tags of the list, as packets, in order. */
  function MediaPackets(tags: seq<Tag>): seq<Packet>
    requires WellFormedTags(tags)
  {
    if tags == [] then []
    else (if IsMedia(tags[0].tagType) then [PacketOf(tags[0])] else []) + MediaPackets(tags[1..])
  }

  // ---------------------------------------------------------------------
  // Where the written tags sit.

  /** The number of bytes a tag takes in the file, its PreviousTagSize
      included. */
  function TagLength(t: Tag): nat {
    TagHeaderSize + |t.body| + PreviousTagSizeLength
  }

  /** The bytes from `off` hold tag `t`: its header fields, its body and
      its PreviousTagSize field. */
  predicate TagAt(data: seq<byte>, off: nat, t: Tag) {
    && off + TagLength(t) <= |data|
    && data[off] == t.tagType
    && data[off + 1..off + 4] == t.dataSize
    && data[off + 4..off + 8] == t.timestamp
    && data[off + 8..off + TagHeaderSize] == t.streamId
    && data[off + TagHeaderSize..off + TagHeaderSize + |t.body|] == t.body
    && data[off + TagHeaderSize + |t.body|..off + TagLength(t)] == t.previousTagSize
  }

  /** The bytes from `off` to the end hold the tags, one after the other. */
  predicate TagsAt(data: seq<byte>, off: nat, tags: seq<Tag>)
    decreases |tags|
  {
    if tags == [] then off == |data|
    else TagAt(data, off, tags[0]) && TagsAt(data, off + TagLength(tags[0]), tags[1..])
  }

  /** Slicing a suffix is slicing the whole. */
  lemma SliceOfSuffix(data: seq<byte>, off: nat, a: nat, b: nat)
    requires off <= |data| && a <= b <= |data| - off
    ensures data[off..][a..b] == data[off + a..off + b]
  {
  }

  lemma ConcatParts(h: seq<byte>, body: seq<byte>, size: seq<byte>, post: seq<byte>)
    ensures (h + body + size + post)[..|h|] == h
    ensures (h + body + size + post)[|h|..|h| + |body|] == body
    ensures (h + body + size + post)[|h| + |body|..|h| + |body| + |size|] == size
    ensures (h + body + size + post)[|h| + |body| + |size|..] == post
  {
    var s := h + body + size + post;
    assert forall i | 0 <= i < |h| :: s[..|h|][i] == h[i];
    assert forall i | 0 <= i < |body| :: s[|h|..|h| + |body|][i] == body[i];
    assert forall i | 0 <= i < |size| :: s[|h| + |body|..|h| + |body| + |size|][i] == size[i];
    assert forall i | 0 <= i < |post| :: s[|h| + |body| + |size|..][i] == post[i];
  }

  /** Where four parts sit in bytes from `off` that hold them. */
  lemma PartsAt(data: seq<byte>, off: nat, h: seq<byte>, body: seq<byte>, size: seq<byte>, post: seq<byte>)
    requires off <= |data| && data[off..] == h + body + size + post
    ensures off + |h| + |body| + |size| + |post| == |data|
    ensures data[off..off + |h|] == h
    ensures data[off + |h|..off + |h| + |body|] == body
    ensures data[off + |h| + |body|..off + |h| + |body| + |size|] == size
    ensures data[off + |h| + |body| + |size|..] == post
  {
    ConcatParts(h, body, size, post);
    SliceOfSuffix(data, off, 0, |h|);
    SliceOfSuffix(data, off, |h|, |h| + |body|);
    SliceOfSuffix(data, off, |h| + |body|, |h| + |body| + |size|);
    assert data[off + |h| + |body| + |size|..] == data[off..][|h| + |body| + |size|..];
  }

  lemma FourPartLayout(a: seq<byte>, b: seq<byte>, c: seq<byte>, d: seq<byte>)
    ensures (a + b + c + d)[|a|..|a| + |b|] == b
    ensures (a + b + c + d)[|a| + |b|..|a| + |b| + |c|] == c
    ensures (a + b + c + d)[|a| + |b| + |c|..|a| + |b| + |c| + |d|] == d
  {
    var s := a + b + c + d;
    assert forall i | 0 <= i < |b| :: s[|a|..|a| + |b|][i] == b[i];
    assert forall i | 0 <= i < |c| :: s[|a| + |b|..|a| + |b| + |c|][i] == c[i];
    assert forall i | 0 <= i < |d| :: s[|a| + |b| + |c|..|a| + |b| + |c| + |d|][i] == d[i];
  }

  /** Where the fields of a written header sit. */
  lemma HeaderFields(data: seq<byte>, off: nat, t: Tag)
    requires FieldWidths(t) && off + TagHeaderSize <= |data|
    requires data[off..off + TagHeaderSize] == HeaderBytes(t)
    ensures data[off] == t.tagType
    ensures data[off + 1..off + 4] == t.dataSize
    ensures data[off + 4..off + 8] == t.timestamp
    ensures data[off + 8..off + TagHeaderSize] == t.streamId
  {
    var h := data[off..off + TagHeaderSize];
    FourPartLayout([t.tagType], t.dataSize, t.timestamp, t.streamId);
    assert data[off] == h[0];
    assert forall i | 0 <= i < 3 :: data[off + 1..off + 4][i] == h[1..4][i];
    assert forall i | 0 <= i < 4 :: data[off + 4..off + 8][i] == h[4..8][i];
    assert forall i | 0 <= i < 3 :: data[off + 8..off + TagHeaderSize][i] == h[8..11][i];
  }

  /** A written tag sits where `TagAt` says, and what follows it right
      after it. */
  lemma EncodedTagAt(data: seq<byte>, off: nat, t: Tag, post: seq<byte>)
    requires FieldWidths(t) && off <= |data| && data[off..] == EncodeTag(t) + post
    ensures TagAt(data, off, t)
    ensures data[off + TagLength(t)..] == post
  {
    PartsAt(data, off, HeaderBytes(t), t.body, t.previousTagSize, post);
    HeaderFields(data, off, t);
  }

  /** Written tags sit where `TagsAt` says. */
  lemma {:induction false} EncodedTagsAt(data: seq<byte>, off: nat, tags: seq<Tag>)
    requires WellFormedTags(tags)
    requires off <= |data| && data[off..] == EncodeTags(tags)
    ensures TagsAt(data, off, tags)
    decreases |tags|
  {
    if tags != [] {
      var t := tags[0];
      assert t in tags;
      EncodedTagAt(data, off, t, EncodeTags(tags[1..]));
      EncodedTagsAt(data, off + TagLength(t), tags[1..]);
    }
  }

  // ---------------------------------------------------------------------
  // One turn of the walk at a written tag.

  /** One turn of the walk at the tag starting at `off`, given its header
      and its body. */
  lemma TagStepGivenHeader(data: seq<byte>, off: nat, h: TagHeader, body: seq<byte>)
    requires off + TagHeaderSize <= |data| && HeaderAt(data, off) == h
    requires IsMedia(h.tagType) ==> off + TagHeaderSize + h.dataLength <= |data|
    requires IsMedia(h.tagType) ==> data[off + TagHeaderSize..off + TagHeaderSize + h.dataLength] == body
    ensures TagStep(data, off).1 == off + TagHeaderSize + h.dataLength + PreviousTagSizeLength
    ensures !IsMedia(h.tagType) ==> TagStep(data, off).0 == Skipped(h)
    ensures IsMedia(h.tagType) ==>
      TagStep(data, off).0 == Forwarded(Packet(h.tagType, h.timestamp, h.dataLength, body),
                                        LookaheadFrom(data, off + TagHeaderSize + h.dataLength + PreviousTagSizeLength))
  {
    if IsMedia(h.tagType) {
      var e := TagStep(data, off).0;
      assert e.Forwarded?;
      assert e.packet == Packet(h.tagType, h.timestamp, h.dataLength, body);
      assert e.look == LookaheadFrom(data, off + TagHeaderSize + h.dataLength + PreviousTagSizeLength);
    }
  }

  /** One turn of the walk at a written tag that is neither audio nor
      video. */
  lemma TagStepSkips(data: seq<byte>, off: nat, t: Tag)
    requires WellFormedTag(t) && TagAt(data, off, t) && !IsMedia(t.tagType)
    ensures TagStep(data, off).1 == off + TagLength(t)
    ensures TagStep(data, off).0 == Skipped(HeaderOf(t))
  {
    assert HeaderAt(data, off) == HeaderOf(t);
    TagStepGivenHeader(data, off, HeaderOf(t), t.body);
  }

  /** One turn of the walk at a written audio or video tag, whatever
      follows it. */
  lemma TagStepForwards(data: seq<byte>, off: nat, t: Tag)
    requires WellFormedTag(t) && TagAt(data, off, t) && IsMedia(t.tagType)
    ensures TagStep(data, off).1 == off + TagLength(t)
    ensures TagStep(data, off).0 == Forwarded(PacketOf(t), LookaheadFrom(data, off + TagLength(t)))
  {
    assert HeaderAt(data, off) == HeaderOf(t);
    TagStepGivenHeader(data, off, HeaderOf(t), t.body);
  }

  /** The lookahead at written tags: the end of the file stops the walk, any
      other tag is inspected as `LookaheadAt` says. At offset 11 of a tag
      sits the first body byte or, for an empty body, the first byte of
      PreviousTagSize, which is then 11 and so starts with a zero byte. */
  lemma LookaheadOnTags(data: seq<byte>, next: nat, rest: seq<Tag>)
    requires WellFormedTags(rest) && TagsAt(data, next, rest)
    ensures LookaheadFrom(data, next) == if rest == [] then Stop else LookaheadAt(rest[0])
  {
    if rest != [] {
      var u := rest[0];
      assert u in rest;
      assert TagAt(data, next, u);
      if |u.body| == 0 {
        assert data[next + TagHeaderSize] == data[next + TagHeaderSize..next + TagLength(u)][0];
      } else {
        assert data[next + TagHeaderSize] == data[next + TagHeaderSize..next + TagHeaderSize + |u.body|][0];
      }
    }
  }

  /** The walk after a turn that skips a tag. */
  lemma DemuxSkips(data: seq<byte>, off: nat, h: TagHeader, next: nat)
    requires TagStep(data, off).0 == Skipped(h)
    requires TagStep(data, off).1 == next
    ensures Demux(data, off) == [Skipped(h)] + Demux(data, next)
  {
  }

  /** The walk after a turn that forwards a packet and goes on. */
  lemma DemuxGoesOn(data: seq<byte>, off: nat, p: Packet, look: Lookahead, next: nat)
    requires TagStep(data, off).0 == Forwarded(p, look)
    requires TagStep(data, off).1 == next
    requires !look.Stop?
    ensures Demux(data, off) == [Forwarded(p, look)] + Demux(data, next)
  {
  }

  /** The walk after a turn that forwards a packet and stops. */
  lemma DemuxStopsAfter(data: seq<byte>, off: nat, p: Packet)
    requires TagStep(data, off).0 == Forwarded(p, Stop)
    ensures Demux(data, off) == [Forwarded(p, Stop)]
  {
  }

  /** The walk at the end of the file. */
  lemma DemuxAtEnd(data: seq<byte>, off: nat)
    requires off == |data|
    ensures Demux(data, off) == [EndOfInput]
  {
  }

  /** The walk at a written tag that is neither audio nor video. */
  lemma WalkSkips(data: seq<byte>, off: nat, t: Tag)
    requires WellFormedTag(t) && TagAt(data, off, t) && !IsMedia(t.tagType)
    ensures Demux(data, off) == [Skipped(HeaderOf(t))] + Demux(data, off + TagLength(t))
  {
    TagStepSkips(data, off, t);
    DemuxSkips(data, off, HeaderOf(t), off + TagLength(t));
  }

  /** The walk at a written audio or video tag after which the lookahead
      fails. */
  lemma WalkForwardsLast(data: seq<byte>, off: nat, t: Tag)
    requires WellFormedTag(t) && TagAt(data, off, t) && IsMedia(t.tagType)
    requires LookaheadFrom(data, off + TagLength(t)) == Stop
    ensures Demux(data, off) == [Forwarded(PacketOf(t), Stop)]
  {
    TagStepForwards(data, off, t);
    DemuxStopsAfter(data, off, PacketOf(t));
  }

  /** The walk at a written audio or video tag after which the lookahead
      succeeds. */
  lemma WalkForwards(data: seq<byte>, off: nat, t: Tag, look: Lookahead)
    requires WellFormedTag(t) && TagAt(data, off, t) && IsMedia(t.tagType)
    requires LookaheadFrom(data, off + TagLength(t)) == look && !look.Stop?
    ensures Demux(data, off) == [Forwarded(PacketOf(t), look)] + Demux(data, off + TagLength(t))
  {
    TagStepForwards(data, off, t);
    DemuxGoesOn(data, off, PacketOf(t), look, off + TagLength(t));
  }

  /** Looking ahead at a tag never stops the walk. */
  lemma LookaheadAtGoesOn(u: Tag)
    ensures !LookaheadAt(u).Stop?
  {
  }

  lemma WellFormedRest(tags: seq<Tag>)
    requires WellFormedTags(tags) && tags != []
    ensures WellFormedTags(tags[1..])
  {
  }

  /** The expected events of a list of tags that starts with a tag that is
      neither audio nor video. */
  lemma ExpectedSkip(tags: seq<Tag>)
    requires WellFormedTags(tags) && tags != [] && !IsMedia(tags[0].tagType)
    ensures WellFormedTag(tags[0]) && WellFormedTags(tags[1..])
    ensures Expected(tags) == [Skipped(HeaderOf(tags[0]))] + Expected(tags[1..])
  {
    assert tags[0] in tags;
  }

  /** The expected events of a list of tags that starts with an audio or
      video tag that another tag follows. */
  lemma ExpectedMedia(tags: seq<Tag>)
    requires WellFormedTags(tags) && |tags| > 1 && IsMedia(tags[0].tagType)
    ensures WellFormedTag(tags[0]) && WellFormedTags(tags[1..])
    ensures Expected(tags) == [Forwarded(PacketOf(tags[0]), LookaheadAt(tags[1]))] + Expected(tags[1..])
  {
    assert tags[0] in tags;
  }

  /** The expected events of a single audio or video tag. */
  lemma ExpectedLast(tags: seq<Tag>)
    requires WellFormedTags(tags) && |tags| == 1 && IsMedia(tags[0].tagType)
    ensures WellFormedTag(tags[0]) && WellFormedTags(tags[1..])
    ensures Expected(tags) == [Forwarded(PacketOf(tags[0]), Stop)]
  {
    assert tags[0] in tags;
  }

  /** The walk at the last of the written tags, an audio or video tag. */
  lemma WalkLast(data: seq<byte>, off: nat, tags: seq<Tag>)
    requires WellFormedTags(tags) && TagsAt(data, off, tags)
    requires |tags| == 1 && IsMedia(tags[0].tagType)
    ensures Demux(data, off) == Expected(tags)
  {
    ExpectedLast(tags);
    LookaheadOnTags(data, off + TagLength(tags[0]), tags[1..]);
    WalkForwardsLast(data, off, tags[0]);
  }

  /** The walk at a written tag that is neither audio nor video, given
      what it yields from the next tag on. */
  lemma WalkOnSkip(data: seq<byte>, off: nat, tags: seq<Tag>)
    requires WellFormedTags(tags) && tags != [] && TagAt(data, off, tags[0])
    requires !IsMedia(tags[0].tagType)
    requires Demux(data, off + TagLength(tags[0])) == Expected(tags[1..])
    ensures Demux(data, off) == Expected(tags)
  {
    ExpectedSkip(tags);
    WalkSkips(data, off, tags[0]);
  }

  /** The walk at a written audio or video tag that another tag follows,
      given what it yields from that tag on. */
  lemma WalkOnMedia(data: seq<byte>, off: nat, tags: seq<Tag>)
    requires WellFormedTags(tags) && TagsAt(data, off, tags)
    requires |tags| > 1 && IsMedia(tags[0].tagType)
    requires Demux(data, off + TagLength(tags[0])) == Expected(tags[1..])
    ensures Demux(data, off) == Expected(tags)
  {
    ExpectedMedia(tags);
    LookaheadOnTags(data, off + TagLength(tags[0]), tags[1..]);
    LookaheadAtGoesOn(tags[1]);
    WalkForwards(data, off, tags[0], LookaheadAt(tags[1]));
  }

  /** Walking written tags from where they start yields the expected
      events. */
  lemma {:induction false} DemuxTags(data: seq<byte>, off: nat, tags: seq<Tag>)
    requires WellFormedTags(tags) && TagsAt(data, off, tags)
    ensures Demux(data, off) == Expected(tags)
    decreases |tags|
  {
    if tags == [] {
      DemuxAtEnd(data, off);
    } else if |tags| == 1 && IsMedia(tags[0].tagType) {
      WalkLast(data, off, tags);
    } else {
      WellFormedRest(tags);
      DemuxTags(data, off + TagLength(tags[0]), tags[1..]);
      if IsMedia(tags[0].tagType) {
        WalkOnMedia(data, off, tags);
      } else {
        WalkOnSkip(data, off, tags);
      }
    }
  }

  /** Round trip: the walk over a written file skips every tag that is
      neither audio nor video, forwards every audio and video tag in file
      order with its body, its size and its timestamp modulo 2^24, reports
      for each forwarded tag what the lookahead saw in the tag after it, and
      ends at the end of the file. The file header's bytes do not matter. */
  lemma RoundTrip(header: seq<byte>, tags: seq<Tag>)
    requires |header| == FileHeaderSize && WellFormedTags(tags)
    ensures Demux(EncodeFile(header, tags), FirstTagOffset) == Expected(tags)
  {
    var data := EncodeFile(header, tags);
    assert data[FirstTagOffset..] == EncodeTags(tags);
    EncodedTagsAt(data, FirstTagOffset, tags);
    DemuxTags(data, FirstTagOffset, tags);
  }

  lemma {:induction false} ExpectedPackets(tags: seq<Tag>)
    requires WellFormedTags(tags)
    ensures Packets(Expected(tags)) == MediaPackets(tags)
    decreases |tags|
  {
    if tags != [] {
      var t := tags[0];
      assert WellFormedTags(tags[1..]);
      if IsMedia(t.tagType) && |tags| == 1 {
        assert tags[1..] == [];
        assert Packets([Forwarded(PacketOf(t), Stop)]) == [PacketOf(t)];
      } else {
        ExpectedPackets(tags[1..]);
        var first := if IsMedia(t.tagType) then Forwarded(PacketOf(t), LookaheadAt(tags[1])) else Skipped(HeaderOf(t));
        PacketsAppend([first], Expected(tags[1..]));
      }
    }
  }

  /** The packets the sink receives from a written file, when nothing fails,
      are its audio and video tags, in order and complete. */
  lemma RoundTripPackets(header: seq<byte>, tags: seq<Tag>)
    requires |header| == FileHeaderSize && WellFormedTags(tags)
    ensures Packets(Demux(EncodeFile(header, tags), FirstTagOffset)) == MediaPackets(tags)
  {
    RoundTrip(header, tags);
    ExpectedPackets(tags);
  }
}
