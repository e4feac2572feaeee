# FLV publisher: byte-order readers, tag walk and pacing gate

A Dafny model of the core of `rtmp_server.cpp`, a small RTMP publisher that
reads an FLV file and sends its audio and video tags to an RTMP server. The
model covers three layers.

1. **Byte-order helpers.** These are the `HTON16`, `HTON24`, `HTON32` and
   `HTONTIME` macros, and the `ReadUnsigned8/16/24/32`, `PeekUnsigned8` and
   `ReadTime` readers (module `ByteOrder`, class `FlvReader.FlvFile`).
   - `uint32_t` is `bv32`.
   - The file is a sequence of byte values with a position indicator. `fread`
     loads bytes into the low bytes of a word, as on a little-endian host, and
     leaves the upper bytes as they were.
   - `ReadUnsigned16/24/32` are proved to return the big-endian value of the
     2, 3 or 4 bytes at the cursor and to advance the cursor by that many.
   - `ReadTime` consumes 4 bytes but returns the big-endian value of the
     first three only.
   - `ReadUnsigned8` loads the byte into the low byte of the word and keeps
     the upper bytes, so it returns the byte itself when the word's upper
     bytes were clear. The loop keeps `type` below 0x100, so there it does.
   - `PeekUnsigned8` returns the byte at the cursor and leaves the cursor
     where it was.
2. **Tag walk** of `RTMPSendPacket` (module `FlvDemux`).
   - `Demux` is a pure function listing what the loop does with every tag,
     starting at offset 13: skipped, forwarded as a packet with the result of
     its one-tag lookahead, or end of input.
   - An independent FLV writer (module `FlvEncoding`) builds files from lists
     of tags. The round trip
     `Demux(EncodeFile(h, tags), FirstTagOffset) == Expected(tags)` is proved,
     where `FirstTagOffset` is 13.
   - Its consequence is that the walk forwards exactly the audio and video
     tags, in file order. A run that reaches the end of the file has sent all
     of them (`ReportedPackets`).
3. **Send loop, pacing gate and result** (module `Publisher`).
   - `SendPackets` is the imperative `while(1)` loop over the `FlvFile`
     cursor. The clock readings and the connection's answers are parameters.
   - It returns the log of the gate's decisions, one per turn, and the
     packets it sent. It is proved that:
     - every turn takes the gate's decision at its clock reading;
     - the packets sent are exactly those of the tags read by the turns that
       proceeded, in file order, except that a run stopped by a link found
       down did not send the last tag it read;
     - when the input ends, every packet of the walk has been sent
       (`ReportedPackets`); for a file written from well-formed tags these
       are all its audio and video tags, in order (`RoundTripPackets`). An
       audio or video tag whose body is cut short ends the walk unsent;
     - every packet sent was read at a turn at which the gate was open
       (`SentWhenGateOpen`);
     - the return value is false exactly when the link was found down or the
       connection refused the last packet sent (`RejectedIffRefused`).

The code is followed where the FLV format and the code disagree:
- The timestamp drops the TimestampExtended byte: the last mask of
  `HTONTIME` (line 13) is the 40-bit `0xff00000000`, so that term is always
  zero. With `0xff000000` it would have kept the byte as bits 24-31, which is
  the FLV layout.
- The key-frame test compares the whole first body byte of the next video
  tag with 0x17. It does not test the frame-type nibble only.
- The gate compares the elapsed time with the timestamp of the last packet
  sent, not with that of the tag about to be read.

## Model

| member | source | states |
|---|---|---|
| ByteOrder.Hton16 | rtmp_server.cpp:8 | byte 0 of the result is byte 1 of the word and byte 1 is byte 0; the upper two bytes are clear |
| ByteOrder.Hton24 | rtmp_server.cpp:9 | bytes 0 and 2 of the word change places, byte 1 stays, byte 3 is cleared |
| ByteOrder.Hton32 | rtmp_server.cpp:10-11 | the four bytes of the word in reverse order |
| ByteOrder.HtonTime | rtmp_server.cpp:12-13 | the 40-bit mask term is always zero, so HTONTIME equals HTON24 and its result is below 2^24 |
| ByteOrder.Load | rtmp_server.cpp:15-16 | `fread` into a `uint32_t` on a little-endian host: file byte k becomes byte k of the word, and the bytes above the ones read keep their old value |
| ByteOrder.BitsValue | rtmp_server.cpp:15-16 | the bit pattern a byte has in memory holds its value |
| ByteOrder.ByteValueIs | rtmp_server.cpp:15-16 | the bit-by-bit value of eight bits is their unsigned value |
| ByteOrder.BitsInjective | rtmp_server.cpp:97 | two bytes have the same bits exactly when they are the same byte |
| ByteOrder.WidenInjective | rtmp_server.cpp:97 | two bytes loaded into cleared words compare equal exactly when the bytes are equal |
| ByteOrder.LoadedIs | rtmp_server.cpp:97 | a byte loaded into a cleared word equals a constant exactly when the byte does (the type tests at lines 97, 127 and 130) |
| ByteOrder.LowByteOfLoaded | rtmp_server.cpp:109 | storing the loaded type word into the packet's byte-wide type gives back the file byte |
| ByteOrder.Read8Value | rtmp_server.cpp:15-18 | ReadUnsigned8 into a word whose upper bytes are clear yields the byte itself |
| ByteOrder.Read16Value | rtmp_server.cpp:8 | HTON16 of the loaded word is b0·256 + b1, whatever the word held before |
| ByteOrder.Read24Value | rtmp_server.cpp:9 | HTON24 of the loaded word is b0·65536 + b1·256 + b2; the stale fourth byte does not leak in |
| ByteOrder.Read32Value | rtmp_server.cpp:10-11 | HTON32 of the loaded word is b0·2^24 + b1·2^16 + b2·2^8 + b3 |
| ByteOrder.ReadTimeValue | rtmp_server.cpp:12-13 | HTONTIME of the loaded word is b0·65536 + b1·256 + b2, whatever b3 is |
| ByteOrder.Hton24Ignores3 | rtmp_server.cpp:9 | HTON24 depends only on the three low bytes of its argument |
| ByteOrder.TimeValueVersusFlv | rtmp_server.cpp:91-94 | the decoded timestamp is the FLV timestamp modulo 2^24, and equals it exactly when TimestampExtended is zero |
| ByteOrder.Be24 | rtmp_server.cpp:27-32 | a three-byte big-endian value is below 2^24 |
| FlvReader.FlvFile.Fread | rtmp_server.cpp:16 | yields up to n of the bytes left, advances past them, and yields all n exactly when they are there |
| FlvReader.FlvFile.SeekSet | rtmp_server.cpp:73 | the position becomes the given offset |
| FlvReader.FlvFile.SeekCur | rtmp_server.cpp:43 | `fseek` with SEEK_CUR, as at lines 43, 75, 100, 128 and 135: moves the position by the offset, and fails, leaving it alone, only for a negative target |
| FlvReader.FlvFile.ReadUnsigned8 | rtmp_server.cpp:15-18 | succeeds exactly when a byte is left; then the low byte of the word is that byte, the upper bytes are unchanged and the cursor moves by 1 |
| FlvReader.FlvFile.PeekUnsigned8 | rtmp_server.cpp:41-46 | succeeds exactly when a byte is left; then returns the byte at the cursor and leaves the cursor where it was |
| FlvReader.FlvFile.ReadUnsigned16 | rtmp_server.cpp:20-25 | succeeds exactly when 2 bytes are left; then the result is their big-endian value and the cursor moves by 2 |
| FlvReader.FlvFile.ReadUnsigned24 | rtmp_server.cpp:27-32 | succeeds exactly when 3 bytes are left; then the result is their big-endian value and the cursor moves by 3 |
| FlvReader.FlvFile.ReadUnsigned32 | rtmp_server.cpp:34-39 | succeeds exactly when 4 bytes are left; then the result is their big-endian value and the cursor moves by 4 |
| FlvReader.FlvFile.ReadTime | rtmp_server.cpp:48-53 | succeeds exactly when 4 bytes are left; then the result is the big-endian value of the first three, below 2^24, and the cursor moves by 4 |
| FlvDemux.HeaderAt | rtmp_server.cpp:92-95 | the 11-byte tag header: type byte, 24-bit data length, 24-bit timestamp, 24-bit stream id, each taken from its own bytes |
| FlvDemux.KeyAfter | rtmp_server.cpp:127-136 | definition of the update of `next_is_key` after a lookahead: set to the key-frame test by a video tag, kept otherwise; its effect over a run is stated by `Publisher.NextIsKeyIsLastMark` and `Publisher.NextIsKeyKept` |
| FlvDemux.LookaheadFrom | rtmp_server.cpp:125-136 | stops when the PreviousTagSize, the next type byte or, for a next video tag, the byte 11 bytes on is missing; keeps the flag when the next tag is not video; otherwise marks whether that byte is 0x17, both directions |
| FlvDemux.IsMedia | rtmp_server.cpp:97 | definition of the audio-or-video test at line 97; what the walk does with other tags is stated by `StepSkips` |
| FlvDemux.TagStep | rtmp_server.cpp:92-136 | one turn of the walk; a turn that does not end the walk had a whole header and moves strictly forward |
| FlvDemux.Demux | rtmp_server.cpp:79-137 | the walk from a tag to the end yields at least one event |
| FlvDemux.DemuxEndsOnce | rtmp_server.cpp:79-137 | exactly the last event of the walk ends it |
| FlvDemux.TagStepForwardsMedia | rtmp_server.cpp:97-111 | a forwarded packet has an audio or video type, a body of exactly the declared size, and 24-bit size and timestamp |
| FlvDemux.DemuxForwardsMedia | rtmp_server.cpp:97-111 | every packet the walk forwards is well formed, so no other tag type reaches the sink |
| FlvDemux.StepEnds | rtmp_server.cpp:92-95 | fewer than 11 bytes left ends the walk |
| FlvDemux.StepSkips | rtmp_server.cpp:97-102 | a tag that is neither audio nor video is skipped, and the next tag starts after its header, data length and PreviousTagSize |
| FlvDemux.StepTruncated | rtmp_server.cpp:104-105 | an audio or video tag whose body runs past the end ends the walk |
| FlvDemux.StepForwards | rtmp_server.cpp:104-111 | a whole audio or video tag becomes a packet of its type, timestamp, data length and exactly the following data-length bytes, then the next tag is looked at |
| FlvDemux.LookaheadSeesNext | rtmp_server.cpp:125-133 | a lookahead that sets the flag found a video tag next and compared the byte 11 bytes on with 0x17 |
| FlvDemux.PacketsPrefix | rtmp_server.cpp:79-137 | the packets of the first n events are a prefix of all of them, and a shorter one when a packet follows |
| FlvDemux.PacketsSnoc | rtmp_server.cpp:79-137 | one more event adds its packet, if any, at the end |
| FlvDemux.PacketsAppend | rtmp_server.cpp:79-137 | the packets of two runs of events are the packets of each, concatenated |
| FlvDemux.TurnOffsetNext | rtmp_server.cpp:100 | each turn starts where the previous turn left the cursor |
| FlvDemux.DemuxAt | rtmp_server.cpp:79-137 | event n of the walk is the turn taken at the cursor after n turns |
| FlvDemux.DemuxFinalAt | rtmp_server.cpp:79-137 | event n ends the walk exactly when it is the last one |
| FlvEncoding.EncodedTagsAt | rtmp_server.cpp:92-102 | an encoded list of tags lays each tag out field by field, one after the other |
| FlvEncoding.DemuxTags | rtmp_server.cpp:79-137 | the walk over bytes laid out as a list of tags yields the expected event of every tag |
| FlvEncoding.WalkOnSkip | rtmp_server.cpp:97-102 | the walk over a list headed by a non-media tag is that skip, then the walk over the rest |
| FlvEncoding.WalkOnMedia | rtmp_server.cpp:104-136 | the walk over a list headed by a media tag forwards it with the lookahead at the next tag, then goes on |
| FlvEncoding.WalkLast | rtmp_server.cpp:125-126 | a media tag at the very end is forwarded and its lookahead ends the walk |
| FlvEncoding.TagStepSkips | rtmp_server.cpp:92-102 | at a written tag that is neither audio nor video, the walk's header is the written one and the next turn starts after the whole tag |
| FlvEncoding.TagStepForwards | rtmp_server.cpp:92-111 | at a written audio or video tag, the walk forwards the written type, timestamp, size and body, and the next turn starts after the whole tag |
| FlvEncoding.RoundTrip | rtmp_server.cpp:72-137 | on any file written from well-formed tags, the walk from offset 13 yields exactly the expected events |
| FlvEncoding.ExpectedPackets | rtmp_server.cpp:104-111 | the expected events forward exactly the audio and video tags, in order |
| FlvEncoding.RoundTripPackets | rtmp_server.cpp:72-137 | on any such file, the packets of the walk are exactly its audio and video tags, in file order |
| Publisher.Elapsed | rtmp_server.cpp:80-81 | `now_time - start_time` in `uint32_t`: below 2^32, and exactly now - start when the clock has not wrapped |
| Publisher.ElapsedWraps | rtmp_server.cpp:81 | the elapsed time is now - start modulo 2^32 |
| Publisher.Decide | rtmp_server.cpp:81 | definition of the gate's decision after n events; its meaning is stated by `DecideWaits` |
| Publisher.DecideWaits | rtmp_server.cpp:81 | the gate waits exactly when a packet has been sent, a key frame is pending and less time has passed than the last sent packet's timestamp, both directions |
| Publisher.PreFrameTime | rtmp_server.cpp:111 | definition of `pre_frame_time` after n events; its meaning is stated by `PreFrameTimeIsLast` |
| Publisher.NextIsKey | rtmp_server.cpp:130-133 | definition of `next_is_key` after n events; its meaning is stated by `NextIsKeyIsLastMark`, `NextIsKeyUnmarked` and `NextIsKeyAfterSend` |
| Publisher.Held | rtmp_server.cpp:81 | definition of the test at line 81; `Publisher.DecideWaits` states what it decides |
| Publisher.Paced | rtmp_server.cpp:79-89 | definition of a log of gate decisions in which every turn took the gate's decision; its meaning is stated by `PacedEveryTurn` |
| Publisher.GateDecides | rtmp_server.cpp:81 | the test at line 81, computed from the loop's variables, is the gate's decision for the events handled so far |
| Publisher.Proceeds | rtmp_server.cpp:79-89 | at most as many turns read a tag as there are turns |
| Publisher.PacedExtend | rtmp_server.cpp:79-89 | a turn that takes the gate's decision keeps the log paced, and counts one more tag read exactly when it proceeds |
| Publisher.PacedEveryTurn | rtmp_server.cpp:79-89 | in a paced log, turn k waited exactly when the gate held, given turn k's clock reading and the events handled before it |
| Publisher.FirstTurnProceeds | rtmp_server.cpp:58-61 | the first turn never waits, because `pre_frame_time` and `next_is_key` start clear |
| Publisher.TurnOf | rtmp_server.cpp:79-92 | the turn that read the tag of event e proceeded, after exactly e earlier turns had proceeded |
| Publisher.ReadWhenGateOpen | rtmp_server.cpp:79-92 | no tag is read while the gate holds: at the turn that read event e's tag, the gate was open for the variables the first e events set |
| Publisher.NoKeyNeverWaits | rtmp_server.cpp:81 | with no key frame pending the gate never holds |
| Publisher.SentBefore | rtmp_server.cpp:104-123 | definition of the trace of `RTMP_SendPacket` calls for the first n events; its meaning is stated by `SentBeforePackets` and `SentBeforePrefix` |
| Publisher.SentBeforePackets | rtmp_server.cpp:104-123 | the packets sent for the first n events are the packets among them |
| Publisher.SentBeforePrefix | rtmp_server.cpp:104-123 | they are a prefix of the walk's packets, a shorter one when a packet is next, and all of them after the last event |
| Publisher.PreFrameTimeIsLast | rtmp_server.cpp:61-111 | `pre_frame_time` is the timestamp of the last packet sent, or 0 before the first |
| Publisher.NextIsKeyAfterSend | rtmp_server.cpp:126-133 | `next_is_key` is set only by the lookahead after a sent packet, so it is clear until the first send |
| Publisher.NextIsKeyKept | rtmp_server.cpp:126-136 | events without a lookahead that reached a video tag leave `next_is_key` as it was |
| Publisher.NextIsKeyIsLastMark | rtmp_server.cpp:127-133 | `next_is_key` is what the last lookahead that reached a video tag saw |
| Publisher.NextIsKeyUnmarked | rtmp_server.cpp:58 | `next_is_key` is false until a lookahead reaches a video tag |
| Publisher.ReadTagHeader | rtmp_server.cpp:92-95 | succeeds exactly when 11 bytes are left; then it consumes exactly 11 bytes and yields the header's type, length, timestamp and stream id |
| Publisher.LookAhead | rtmp_server.cpp:125-136 | fails exactly when the walk's lookahead stops; on success the cursor ends at the next tag, and the flag follows the next video tag's first body byte or is kept |
| Publisher.GatedNext | rtmp_server.cpp:104-136 | handling event n as the loop does gives the variables after n + 1 events |
| Publisher.Reported | rtmp_server.cpp:113-143 | definition of what a run that ended with a given outcome promises about the packets sent: those of the events read (less the last on link down), all events at the end of the file, events left when the clock ran out, and every packet taken except a refused last one on a rejected send, which is the packet of the last event read |
| Publisher.RejectedIffRefused | rtmp_server.cpp:119-123 | a reported run ends on a rejected send exactly when the connection refused the last packet sent, both directions |
| Publisher.ReportedPackets | rtmp_server.cpp:113-143 | the packets a run sent are a prefix of the walk's packets, all of them at the end of the file, and fewer when the link was found down |
| Publisher.EventOfPacket | rtmp_server.cpp:104-123 | packet i of those sent for n events is the packet of an earlier event, and the events before it sent exactly the first i packets |
| Publisher.SentWhenGateOpen | rtmp_server.cpp:79-123 | every packet a paced run sent was read at a turn at which the gate was open, measured against the timestamp of the packet sent before it (0 for the first) |
| Publisher.GatedReported | rtmp_server.cpp:79-89 | a run stopped by the clock at the head of a turn, with events left, has sent the packets of the events read so far, each to a connection that was up and took it |
| Publisher.GatedAll | rtmp_server.cpp:139-143 | after the last event every packet of the walk has been sent and taken |
| Publisher.GatedLinkDown | rtmp_server.cpp:113-117 | a link found down before a forwarded event stops the run short of the walk's packets, with that packet not sent |
| Publisher.GatedRejected | rtmp_server.cpp:119-123 | a refused packet is the next packet of the walk and the last one sent |
| Publisher.TurnGoesOn | rtmp_server.cpp:97-136 | a turn that goes on leaves the cursor and the variables in the state after one more event |
| Publisher.TurnEnds | rtmp_server.cpp:92-129 | a turn that ends the walk was its last event, and all the walk's packets were sent |
| Publisher.TurnLinkDown | rtmp_server.cpp:113-117 | a turn that found the link down reports that outcome |
| Publisher.TurnRejected | rtmp_server.cpp:119-123 | a turn whose send was refused reports that outcome |
| Publisher.SendTag | rtmp_server.cpp:92-136 | one turn reading a tag is the walk's turn at the cursor: skip, end of input, or a packet; the cursor ends at the next tag when the loop goes on |
| Publisher.ForwardTag | rtmp_server.cpp:104-136 | after an audio or video header, a short body ends the walk; otherwise the packet of the walk's turn is delivered, and the cursor ends at the next tag when the loop goes on |
| Publisher.Deliver | rtmp_server.cpp:113-136 | no send while the link is down; a refused send returns false; otherwise the lookahead decides whether the loop goes on |
| Publisher.TakeTurn | rtmp_server.cpp:92-136 | a turn reading a tag takes the loop from the state after n events to the state after n + 1, or ends the run with its report: the packets of the first n + 1 events were sent, or of the first n when the link was found down |
| Publisher.PacedTurn | rtmp_server.cpp:79-136 | one turn of the loop appends the gate's decision to the log, keeping it paced; a waiting turn changes nothing else, a proceeding one is `TakeTurn` |
| Publisher.SendPackets | rtmp_server.cpp:55-144 | the result is false exactly when the link was found down or the last packet sent was refused, and either stop comes at the last tag read; every turn takes the gate's decision; the packets sent are those of the events whose tags the proceeding turns read, less the last one when the link was found down; at the end of the file they are all the walk's packets |

## Left out

- librtmp: `RTMP_IsConnected` and `RTMP_SendPacket` are the parameters `isConnected` and `sendAccepted`. Each says what the connection answers for the packet with a given index. Their internals are not part of this model.
- `RTMP_GetTime` is `start` plus a finite sequence `readings`, one reading per turn. When the readings run out, the run ends with the outcome `ClockExhausted`. The program would go on taking turns: it waits while the gate holds and reads the next tag otherwise.
- `sleep(1000)` and the `last_time` logging (lines 82-87) have no effect on the model's state. They are left out, together with all `RTMP_LogPrintf` calls.
- `RTMPServerCreate` and `main` are not part of this model. They open the file and set up the connection.
- The null `rtmp_packet` (line 70) is dereferenced at lines 104-110. The model builds a fresh packet value instead of reproducing the crash. `m_headerType` is not modelled.
- After a failed read the model's word keeps its old value. A failed multi-byte read moves the cursor to the end of the file. Every failure ends the loop, so neither is observable.
- `Publisher.LookAhead`: the failure branch of `fseek(+11)` at line 128 is not modelled, because a forward seek on a regular file does not fail. The result of the seek is ignored.
- `stream_id` is decoded and its value stated (`ReadTagHeader`, `HeaderAt`), but it is never used. Nothing is stated about the value of `pre_tag_size`.
- `ret` is an `int` in the source and a `bool` in the model. The librtmp calls are treated as returning true or false.
- File bytes are values 0 to 255. `ByteOrder.Bits` gives their bit pattern in memory. The host is assumed little-endian.
