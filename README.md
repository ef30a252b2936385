# Plasmo Voice transport core in Dafny

This project models four pieces of the Plasmo Voice transport and proves
properties about them.

- **Wire codec** (`PacketUtil`, module `PacketUtil`, over module `Wire`):
  - UUIDs and int lists are written to a Guava `ByteArrayDataOutput` and read back from a `ByteArrayDataInput`, in Java's big-endian two's-complement `DataOutput` layout.
  - The output is a class holding the bytes written so far. The input is a class with a fixed byte sequence and a cursor.
  - A read that runs past the end consumes the rest of the input and fails, as `DataInputStream.readFully` does.
  - A negative list size fails, as the `ArrayList` capacity constructor does.
- **End-of-talk packet** (`PlayerAudioEndPacket`, module `PlayerAudioEnd`): a class with one `long` field, plus its constructors, getter, `read`, `write` and `handle` dispatch.
- **Client audio source** (`BaseClientAudioSource`, module `ClientAudio`): the receiving state machine of one audio source.
  - Its state: the last sequence number per source line, the `activated`, `resetted`, `canHear` and `closed` flags, the time of the last accepted packet, and whether the delayed end-of-stream reset is pending.
  - The class keeps these as fields. Each handler is a method, proved to move the state exactly as a pure transition function on a `SourceState` value does.
  - The properties are proved about those functions.
  - Frames written to the audio device are kept as a log: a silence filler, a concealment frame, or decoded audio.
- **Voice server configuration and UDP lifecycle** (`BaseVoiceServer`, module `VoiceServer`):
  - `loadConfig` and `updateAesEncryptionKey`.
  - `startUdpServer` and `stopUdpServer`.
  - `onShutdown`, as far as it concerns the UDP server and the configuration.
  - The Opus codec parameters.
  - Again, a class whose methods are proved against pure transition functions on a `ServerState` value.

Inputs from outside the model are parameters:

- what loading the TOML file produced and whether saving it succeeded;
- the `PLASMO_VOICE_FORWARDING_SECRET` environment variable and the `forwarding-secret` file;
- the random UUID and the `plasmovoice.debug` system property;
- the connected UDP players and the game server's port;
- whether the UDP socket binds;
- on the client: the current time, whether the source line is muted, the listener's distance to the source, the result of decrypting and decoding a packet, and which packet-loss-concealment call throws (if any).

Java `int` and `long` are the subset types `int32` and `int64`. Kotlin's `Long` subtraction in the order check is written out with explicit 64-bit wrap-around (`Wrap64`). The `toInt()` narrowing of the gap before compensation is written out with 32-bit truncation (`ToInt32`) in `FillerCountAsWritten`. The packet handler itself uses the intended count `FillerCount` (see "## Findings"). The two agree whenever the gap fits in an `int` (`FillerCountAgrees`).

## Model

| member | source | states |
|---|---|---|
| Wire.DataOutput.WriteLong | protocol/src/main/java/su/plo/voice/proto/packets/PacketUtil.java:13-14 | `writeLong` appends exactly the 8 big-endian two's-complement bytes of the value, and nothing else changes |
| Wire.DataOutput.WriteInt | protocol/src/main/java/su/plo/voice/proto/packets/PacketUtil.java:22-23 | `writeInt` appends exactly the 4 big-endian bytes of the value |
| Wire.DataInput.ReadLong | protocol/src/main/java/su/plo/voice/proto/packets/PacketUtil.java:18 | with 8 bytes left, the result is the long they encode and the cursor moves 8 on; with fewer, the read fails and the cursor is at the end of the input |
| Wire.DataInput.ReadInt | protocol/src/main/java/su/plo/voice/proto/packets/PacketUtil.java:27 | the same for a 4-byte int |
| Wire.DecodeLong | protocol/src/main/java/su/plo/voice/proto/packets/PacketUtil.java:18 | succeeds exactly when 8 bytes remain; the next position is 8 further on, and those 8 bytes are the encoding of the value read |
| Wire.DecodeInt | protocol/src/main/java/su/plo/voice/proto/packets/PacketUtil.java:27 | succeeds exactly when 4 bytes remain; the next position is 4 further on, and those bytes encode the value read |
| Wire.FromBigEndianOfBigEndian | protocol/src/main/java/su/plo/voice/proto/packets/PacketUtil.java:13-14 | reading the big-endian digits of a number gives the number back (by induction on the width) |
| Wire.BigEndianOfFromBigEndian | protocol/src/main/java/su/plo/voice/proto/packets/PacketUtil.java:18 | every byte string is the big-endian encoding of the number it denotes (by induction) |
| Wire.LongRoundTrip | protocol/src/main/java/su/plo/voice/proto/packets/PacketUtil.java:13-18 | reading the 8 bytes of a written long gives it back, negatives included |
| Wire.IntRoundTrip | protocol/src/main/java/su/plo/voice/proto/packets/PacketUtil.java:22-27 | reading the 4 bytes of a written int gives it back |
| Wire.LongBytesOfLongOf | protocol/src/main/java/su/plo/voice/proto/packets/PacketUtil.java:18 | any 8 bytes are the encoding of the long read from them, so decoding loses nothing |
| Wire.IntBytesOfIntOf | protocol/src/main/java/su/plo/voice/proto/packets/PacketUtil.java:27 | any 4 bytes are the encoding of the int read from them |
| Wire.LongSignInFirstByte | protocol/src/main/java/su/plo/voice/proto/packets/tcp/serverbound/PlayerAudioEndPacket.java:30 | a long is negative exactly when the top bit of its first written byte is set |
| Wire.DecodeLongBetween | protocol/src/main/java/su/plo/voice/proto/packets/PacketUtil.java:17-19 | a long written between arbitrary bytes reads back at its offset, and the cursor ends just past it |
| Wire.DecodeIntBetween | protocol/src/main/java/su/plo/voice/proto/packets/PacketUtil.java:27 | the same for an int |
| Wire.Wrap64 | client/src/main/kotlin/su/plo/voice/client/audio/source/BaseClientAudioSource.kt:239 | Kotlin `Long` arithmetic: values in range are unchanged, others are shifted by 2^64 |
| Wire.ToInt32 | client/src/main/kotlin/su/plo/voice/client/audio/source/BaseClientAudioSource.kt:301 | `toInt()` leaves values in the `int` range unchanged, and always differs from its argument by a multiple of 2^32 (it keeps the low 32 bits) |
| PacketUtil.UuidBytes | protocol/src/main/java/su/plo/voice/proto/packets/PacketUtil.java:12-15 | a UUID is written as exactly 16 bytes |
| PacketUtil.IntListBytes | protocol/src/main/java/su/plo/voice/proto/packets/PacketUtil.java:21-24 | an int list is written as 4 + 4·n bytes, beginning with the 4-byte size |
| PacketUtil.DecodeUuid | protocol/src/main/java/su/plo/voice/proto/packets/PacketUtil.java:17-19 | succeeds exactly when 16 bytes remain, consumes 16, and the UUID read encodes back to those bytes |
| PacketUtil.DecodeInts | protocol/src/main/java/su/plo/voice/proto/packets/PacketUtil.java:30 | reading n ints succeeds exactly when 4·n bytes remain; n values, 4·n bytes consumed, and they encode back to the bytes read |
| PacketUtil.DecodeIntList | protocol/src/main/java/su/plo/voice/proto/packets/PacketUtil.java:26-33 | fails with a negative size exactly when the prefix is negative; otherwise succeeds exactly when the prefix and that many ints are present; on success the list is as long as the prefix, 4 + 4·size bytes are consumed, and they are the encoding of the list |
| PacketUtil.UuidRoundTrip | protocol/src/main/java/su/plo/voice/proto/packets/PacketUtil.java:12-19 | `readUUID(writeUUID(u)) == u` at any offset in any surrounding bytes, and the cursor ends 16 bytes further on |
| PacketUtil.IntsRoundTrip | protocol/src/main/java/su/plo/voice/proto/packets/PacketUtil.java:23-30 | the elements written one by one read back in order (by induction on the list) |
| PacketUtil.IntListRoundTrip | protocol/src/main/java/su/plo/voice/proto/packets/PacketUtil.java:21-33 | `readIntList(writeIntList(l)) == l` in any surrounding bytes, same length and order, cursor just past the list |
| PacketUtil.NegativeSizeRejected | protocol/src/main/java/su/plo/voice/proto/packets/PacketUtil.java:27-28 | a negative size prefix produces no list, whatever follows |
| PacketUtil.UuidThenIntList | protocol/src/main/java/su/plo/voice/proto/packets/PacketUtil.java:17-33 | a UUID followed by an int list decodes field by field, each read starting where the previous one stopped |
| PacketUtil.WriteUuid | protocol/src/main/java/su/plo/voice/proto/packets/PacketUtil.java:12-15 | appends the most significant long, then the least significant one |
| PacketUtil.ReadUuid | protocol/src/main/java/su/plo/voice/proto/packets/PacketUtil.java:17-19 | reads the two longs in that order; on success the cursor moves 16 on, on failure it is at the end |
| PacketUtil.WriteIntList | protocol/src/main/java/su/plo/voice/proto/packets/PacketUtil.java:21-24 | appends the size, then each element in list order (loop invariant over the prefix written) |
| PacketUtil.ReadIntList | protocol/src/main/java/su/plo/voice/proto/packets/PacketUtil.java:26-33 | the loop's result and final cursor agree with `DecodeIntList` in every case: list, negative size, or input that ran out |
| PlayerAudioEnd.PlayerAudioEndPacket.Empty | protocol/src/main/java/su/plo/voice/proto/packets/tcp/serverbound/PlayerAudioEndPacket.java:12 | the no-argument constructor leaves the sequence number at 0 |
| PlayerAudioEnd.PlayerAudioEndPacket.constructor | protocol/src/main/java/su/plo/voice/proto/packets/tcp/serverbound/PlayerAudioEndPacket.java:19-21 | the packet holds the given sequence number |
| PlayerAudioEnd.PlayerAudioEndPacket.GetSequenceNumber | protocol/src/main/java/su/plo/voice/proto/packets/tcp/serverbound/PlayerAudioEndPacket.java:16-17 | returns the stored sequence number |
| PlayerAudioEnd.PlayerAudioEndPacket.Read | protocol/src/main/java/su/plo/voice/proto/packets/tcp/serverbound/PlayerAudioEndPacket.java:23-26 | with 8 bytes left, the field becomes the long they encode and exactly 8 bytes are consumed; otherwise the read fails and the field is unchanged; only the field and the cursor change |
| PlayerAudioEnd.PlayerAudioEndPacket.Write | protocol/src/main/java/su/plo/voice/proto/packets/tcp/serverbound/PlayerAudioEndPacket.java:28-31 | appends exactly the 8 big-endian bytes of the sequence number |
| PlayerAudioEnd.PlayerAudioEndPacket.Handle | protocol/src/main/java/su/plo/voice/proto/packets/tcp/serverbound/PlayerAudioEndPacket.java:33-36 | the handler receives this very packet, exactly once |
| PlayerAudioEnd.EndPacketRoundTrip | protocol/src/main/java/su/plo/voice/proto/packets/tcp/serverbound/PlayerAudioEndPacket.java:19-31 | for every long n, negatives included, reading what `new PlayerAudioEndPacket(n).write` produced yields n, from exactly 8 bytes |
| PlayerAudioEnd.EndPacketBytesDecode | protocol/src/main/java/su/plo/voice/proto/packets/tcp/serverbound/PlayerAudioEndPacket.java:25-30 | the written bytes decode to n whatever follows them in the stream |
| ClientAudio.Initial | client/src/main/kotlin/su/plo/voice/client/audio/source/BaseClientAudioSource.kt:71-80 | a new source is open, not activated, not resetted, cannot be heard, and has written nothing |
| ClientAudio.Judge | client/src/main/kotlin/su/plo/voice/client/audio/source/BaseClientAudioSource.kt:230-244 | the gate's verdict: wrong state exactly when the packet's source state differs; a restart only when a last number exists and the packet is not after it; an accepted packet carries the line's last number (-1 when there is none) |
| ClientAudio.ReorderWindow | client/src/main/kotlin/su/plo/voice/client/audio/source/BaseClientAudioSource.kt:235-244 | for non-negative sequence numbers: dropped exactly when at most 9 behind the last; the line restarts exactly when 10 or more behind |
| ClientAudio.DroppedPacketChangesNothing | client/src/main/kotlin/su/plo/voice/client/audio/source/BaseClientAudioSource.kt:230-242 | a packet with the wrong source state, or out of order within the window, leaves the state unchanged |
| ClientAudio.FillerCount | client/src/main/kotlin/su/plo/voice/client/audio/source/BaseClientAudioSource.kt:300-304 | at most 4 fillers; any fillers imply a prior last number and exactly `seq - last - 1` of them |
| ClientAudio.CompensationRule | client/src/main/kotlin/su/plo/voice/client/audio/source/BaseClientAudioSource.kt:300-317 | exactly `seq - last - 1` fillers when that gap is between 0 and 4 after an existing last number; none with no last number, a gap over 4, or a packet not after the last |
| ClientAudio.FillerCountAsWritten | client/src/main/kotlin/su/plo/voice/client/audio/source/BaseClientAudioSource.kt:300-304 | the count the source computes, with the gap narrowed by `toInt()` before the comparison; never more than 4 |
| ClientAudio.FillerCountAgrees | client/src/main/kotlin/su/plo/voice/client/audio/source/BaseClientAudioSource.kt:301-302 | when the gap fits in an `int`, the source's count equals the intended one |
| ClientAudio.FillerCountTruncates | client/src/main/kotlin/su/plo/voice/client/audio/source/BaseClientAudioSource.kt:301-302 | after last 0, packet 2^32 + 3 gets 2 fillers as written, where no compensation is intended |
| ClientAudio.FillerCountTruncatesOnRestart | client/src/main/kotlin/su/plo/voice/client/audio/source/BaseClientAudioSource.kt:243-302 | on a restarted line (last 2^32, packet 3) the source still writes 2 fillers |
| ClientAudio.Compensate | client/src/main/kotlin/su/plo/voice/client/audio/source/BaseClientAudioSource.kt:304-315 | the loop writes n fillers, or stops with exactly `k` written when concealment call k < n throws, and reports that failure |
| ClientAudio.Repeat | client/src/main/kotlin/su/plo/voice/client/audio/source/BaseClientAudioSource.kt:304 | n copies of one frame |
| ClientAudio.OnAudioPacket | client/src/main/kotlin/su/plo/voice/client/audio/source/BaseClientAudioSource.kt:229-341 | a packet the gate does not accept changes nothing; the description, decoder, `closed` flag and timeout never change; a packet that does not run to completion leaves `activated`, `resetted`, `canHear` and `lastActivation` as they were |
| ClientAudio.Admit | client/src/main/kotlin/su/plo/voice/client/audio/source/BaseClientAudioSource.kt:243-250 | an accepted packet cancels a pending end request; on a restart the line's entry is gone; nothing else changes |
| ClientAudio.Play | client/src/main/kotlin/su/plo/voice/client/audio/source/BaseClientAudioSource.kt:297-340 | a source closed meanwhile is left as it is; the description, decoder and `closed` flag are kept |
| ClientAudio.Record | client/src/main/kotlin/su/plo/voice/client/audio/source/BaseClientAudioSource.kt:319-340 | the decoded frame, if any, is appended; the packet's number becomes the line's last; the source is activated, not resetted, stamped `now`; `canHear` becomes `sourceDistance <= distance` when distance > 0 and is kept otherwise |
| ClientAudio.AcceptedPacketEffect | client/src/main/kotlin/su/plo/voice/client/audio/source/BaseClientAudioSource.kt:300-340 | a packet that runs to completion leaves last[line] = seq, activated, not resetted, no end request pending, and writes exactly the fillers and then its own frame, even when decrypt or decode failed |
| ClientAudio.CompletedIsRecorded | client/src/main/kotlin/su/plo/voice/client/audio/source/BaseClientAudioSource.kt:243-340 | a completed packet is admitted, compensated with a full run of fillers, and recorded |
| ClientAudio.PacketAppendsFrames | client/src/main/kotlin/su/plo/voice/client/audio/source/BaseClientAudioSource.kt:299-333 | handling a packet only appends to what was written, and at most 4 fillers plus one frame |
| ClientAudio.DuplicateDropped | client/src/main/kotlin/su/plo/voice/client/audio/source/BaseClientAudioSource.kt:238-335 | a packet delivered twice is processed once: after it completes, the copy is judged out of order and changes nothing |
| ClientAudio.Receive | client/src/main/kotlin/su/plo/voice/client/audio/source/BaseClientAudioSource.kt:158-162 | an audio packet for a closed source or a muted line changes nothing |
| ClientAudio.OnEndPacket | client/src/main/kotlin/su/plo/voice/client/audio/source/BaseClientAudioSource.kt:343-346 | only while activated, the end packet's number becomes the line's last; nothing else changes, and no other line gains or loses an entry |
| ClientAudio.ReceiveEnd | client/src/main/kotlin/su/plo/voice/client/audio/source/BaseClientAudioSource.kt:164-176 | an end packet for a closed source or a muted line changes nothing; otherwise a reset becomes pending |
| ClientAudio.Reset | client/src/main/kotlin/su/plo/voice/client/audio/source/BaseClientAudioSource.kt:348-353 | a no-op when already resetted; otherwise it sets `resetted` and clears `activated` and `canHear`; last numbers and `closed` are kept |
| ClientAudio.ResetIdempotent | client/src/main/kotlin/su/plo/voice/client/audio/source/BaseClientAudioSource.kt:349 | resetting twice is resetting once |
| ClientAudio.EndRequestFires | client/src/main/kotlin/su/plo/voice/client/audio/source/BaseClientAudioSource.kt:168-250 | the delayed reset happens only if no accepted packet cancelled it |
| ClientAudio.Close | client/src/main/kotlin/su/plo/voice/client/audio/source/BaseClientAudioSource.kt:178-182 | a closed source is neither activated nor audible; last numbers and `resetted` are kept |
| ClientAudio.IsActivated | client/src/main/kotlin/su/plo/voice/client/audio/source/BaseClientAudioSource.kt:196-207 | reports true exactly when activated and not past the close timeout; an activated source past the timeout is reset; otherwise nothing changes |
| ClientAudio.OnSourceStopped | client/src/main/kotlin/su/plo/voice/client/audio/source/BaseClientAudioSource.kt:223-227 | a stream stop resets an open source with a nonzero timeout, for its own streams only |
| ClientAudio.OnSourceClosed | client/src/main/kotlin/su/plo/voice/client/audio/source/BaseClientAudioSource.kt:217-221 | a stream close closes an open source, for its own streams only |
| ClientAudio.Update | client/src/main/kotlin/su/plo/voice/client/audio/source/BaseClientAudioSource.kt:109-156 | the new description replaces the old; last numbers, `activated` and `closed` are kept |
| ClientAudio.ClosedStaysQuiet | client/src/main/kotlin/su/plo/voice/client/audio/source/BaseClientAudioSource.kt:158-227 | every handler keeps "closed implies not activated and not audible", and a closed source never reports itself activated |
| ClientAudio.BaseClientAudioSource.constructor | client/src/main/kotlin/su/plo/voice/client/audio/source/BaseClientAudioSource.kt:66-92 | the fields start in the initial state |
| ClientAudio.BaseClientAudioSource.Process | client/src/main/kotlin/su/plo/voice/client/audio/source/BaseClientAudioSource.kt:158-162 | the fields move exactly as `Receive` says |
| ClientAudio.BaseClientAudioSource.ProcessAudioPacket | client/src/main/kotlin/su/plo/voice/client/audio/source/BaseClientAudioSource.kt:229-341 | the fields move exactly as `OnAudioPacket` says |
| ClientAudio.BaseClientAudioSource.Gate | client/src/main/kotlin/su/plo/voice/client/audio/source/BaseClientAudioSource.kt:230-242 | computes `Judge` on the current fields, with the `Long` subtraction wrapping |
| ClientAudio.BaseClientAudioSource.AdmitPacket | client/src/main/kotlin/su/plo/voice/client/audio/source/BaseClientAudioSource.kt:243-250 | the fields move as `Admit` says |
| ClientAudio.BaseClientAudioSource.PlayPacket | client/src/main/kotlin/su/plo/voice/client/audio/source/BaseClientAudioSource.kt:297-340 | the fields move as `Play` says |
| ClientAudio.BaseClientAudioSource.RecordPacket | client/src/main/kotlin/su/plo/voice/client/audio/source/BaseClientAudioSource.kt:319-340 | the fields move as `Record` says |
| ClientAudio.BaseClientAudioSource.ProcessEnd | client/src/main/kotlin/su/plo/voice/client/audio/source/BaseClientAudioSource.kt:164-176 | the fields move as `ReceiveEnd` says |
| ClientAudio.BaseClientAudioSource.ProcessAudioEndPacket | client/src/main/kotlin/su/plo/voice/client/audio/source/BaseClientAudioSource.kt:343-346 | the fields move as `OnEndPacket` says |
| ClientAudio.BaseClientAudioSource.FireEndRequest | client/src/main/kotlin/su/plo/voice/client/audio/source/BaseClientAudioSource.kt:169-175 | the fields move as `EndRequestFires` says |
| ClientAudio.BaseClientAudioSource.ResetSource | client/src/main/kotlin/su/plo/voice/client/audio/source/BaseClientAudioSource.kt:348-353 | the fields move as `Reset` says |
| ClientAudio.BaseClientAudioSource.CloseSource | client/src/main/kotlin/su/plo/voice/client/audio/source/BaseClientAudioSource.kt:178-182 | the fields move as `Close` says |
| ClientAudio.BaseClientAudioSource.IsActivatedAt | client/src/main/kotlin/su/plo/voice/client/audio/source/BaseClientAudioSource.kt:196-207 | result and fields as `IsActivated` says |
| ClientAudio.BaseClientAudioSource.OnSourceStoppedEvent | client/src/main/kotlin/su/plo/voice/client/audio/source/BaseClientAudioSource.kt:223-227 | the fields move as `OnSourceStopped` says |
| ClientAudio.BaseClientAudioSource.OnSourceClosedEvent | client/src/main/kotlin/su/plo/voice/client/audio/source/BaseClientAudioSource.kt:217-221 | the fields move as `OnSourceClosed` says |
| ClientAudio.BaseClientAudioSource.UpdateInfo | client/src/main/kotlin/su/plo/voice/client/audio/source/BaseClientAudioSource.kt:109-156 | the fields move as `Update` says |
| VoiceServer.ResolvePort | server/common/src/main/java/su/plo/voice/server/BaseVoiceServer.java:292-296 | the configured port if nonzero, else the game port if positive, else 0 |
| VoiceServer.PortZeroOnlyWhenUnset | server/common/src/main/java/su/plo/voice/server/BaseVoiceServer.java:292-296 | for a non-negative configured port the port is never negative, and it is 0 exactly when neither port is set |
| VoiceServer.JavaDiv | server/common/src/main/java/su/plo/voice/server/BaseVoiceServer.java:372 | Java `int` division truncates toward zero: the remainder `a - q*b` is smaller than `b` in magnitude and has the sign of `a` (or is zero) |
| VoiceServer.FrameSize | server/common/src/main/java/su/plo/voice/server/BaseVoiceServer.java:372-386 | a multiple of 20 samples; for a non-negative rate, 20 ms of audio rounded down to whole milliseconds; for a negative rate, the mirror image |
| VoiceServer.FrameSizeOf48k | server/common/src/main/java/su/plo/voice/server/BaseVoiceServer.java:372 | 48 kHz gives 960 samples, 8 kHz gives 160, and a rate under 1 kHz gives 0 |
| VoiceServer.ChooseSecret | server/common/src/main/java/su/plo/voice/server/BaseVoiceServer.java:232-239 | the environment variable wins, then the file, and without either the secret stays; a malformed text or an unreadable file fails, each with its own exception |
| VoiceServer.FreshKeyIsUuid | server/common/src/main/java/su/plo/voice/server/BaseVoiceServer.java:245-251 | a fresh AES key is 16 bytes, from which the random UUID reads back |
| VoiceServer.UpdateKey | server/common/src/main/java/su/plo/voice/server/BaseVoiceServer.java:268-272 | the configuration carries the key and the default encryption is AES/CBC/PKCS5Padding with it; nothing else changes |
| VoiceServer.Stop | server/common/src/main/java/su/plo/voice/server/BaseVoiceServer.java:310-316 | a no-op without a running server; otherwise that server is stopped; afterwards none runs |
| VoiceServer.StopIdempotent | server/common/src/main/java/su/plo/voice/server/BaseVoiceServer.java:311 | stopping twice is stopping once |
| VoiceServer.Start | server/common/src/main/java/su/plo/voice/server/BaseVoiceServer.java:274-308 | the running server is stopped first; on a successful bind the new server runs on the configured IP and resolved port, and the players connected to the old server are asked for their info, in order; on a failed bind no server runs and nobody is asked |
| VoiceServer.Reload | server/common/src/main/java/su/plo/voice/server/BaseVoiceServer.java:211-266 | the load succeeds exactly when the configuration loads and saves and the secret is acceptable; a failure after loading leaves only the new configuration set; on success the debug switch is the config flag or the system property |
| VoiceServer.FailedLoadKeepsServer | server/common/src/main/java/su/plo/voice/server/BaseVoiceServer.java:214-257 | a failed load neither touches the UDP server nor the encryption |
| VoiceServer.RestartRule | server/common/src/main/java/su/plo/voice/server/BaseVoiceServer.java:212-265 | a successful load restarts the UDP server exactly on the first load or when the host section changed; otherwise the running server and the request log are untouched |
| VoiceServer.FirstLoadStarts | server/common/src/main/java/su/plo/voice/server/BaseVoiceServer.java:212-265 | the first load always tries to start the server: it runs exactly when the bind succeeds |
| VoiceServer.LoadedKeyAndSecret | server/common/src/main/java/su/plo/voice/server/BaseVoiceServer.java:232-254 | after a successful load the key is the old one when present, else the random UUID's bytes; the encryption uses it; the secret follows `ChooseSecret`; the rest of the voice section is as loaded |
| VoiceServer.KeySurvivesReload | server/common/src/main/java/su/plo/voice/server/BaseVoiceServer.java:243-244 | once a key exists, a later load keeps it, whatever random UUID it draws |
| VoiceServer.Shutdown | server/common/src/main/java/su/plo/voice/server/BaseVoiceServer.java:197-204 | after shutdown no UDP server runs and there is no configuration |
| VoiceServer.BaseVoiceServer.constructor | server/common/src/main/java/su/plo/voice/server/BaseVoiceServer.java:83-107 | no configuration, no server, no encryption |
| VoiceServer.BaseVoiceServer.LoadConfig | server/common/src/main/java/su/plo/voice/server/BaseVoiceServer.java:211-266 | the fields and the exception thrown are as `Reload` says |
| VoiceServer.BaseVoiceServer.ChooseAesKey | server/common/src/main/java/su/plo/voice/server/BaseVoiceServer.java:242-252 | the key written through a `DataOutput` is `AesKey`'s |
| VoiceServer.BaseVoiceServer.UpdateAesEncryptionKey | server/common/src/main/java/su/plo/voice/server/BaseVoiceServer.java:268-272 | the fields move as `UpdateKey` says |
| VoiceServer.BaseVoiceServer.StartUdpServer | server/common/src/main/java/su/plo/voice/server/BaseVoiceServer.java:274-308 | the fields move as `Start` says |
| VoiceServer.BaseVoiceServer.RequestPlayerInfo | server/common/src/main/java/su/plo/voice/server/BaseVoiceServer.java:302-304 | each captured player is asked once, in order; nothing else changes |
| VoiceServer.BaseVoiceServer.StopUdpServer | server/common/src/main/java/su/plo/voice/server/BaseVoiceServer.java:310-316 | the fields move as `Stop` says |
| VoiceServer.BaseVoiceServer.OnShutdown | server/common/src/main/java/su/plo/voice/server/BaseVoiceServer.java:180-209 | the fields move as `Shutdown` says |
| VoiceServer.BaseVoiceServer.CreateOpusEncoder | server/common/src/main/java/su/plo/voice/server/BaseVoiceServer.java:359-375 | fails exactly when there is no configuration; otherwise it passes the configured mode, bitrate, sample rate, stereo flag, MTU and `FrameSize` of the rate |
| VoiceServer.BaseVoiceServer.CreateOpusDecoder | server/common/src/main/java/su/plo/voice/server/BaseVoiceServer.java:377-389 | fails exactly when there is no configuration; otherwise it passes the configured sample rate, stereo flag, MTU and `FrameSize` of the rate |

## Left out

- Audio device work on the client: `updateSource`, `createSourceGroup`, `sourceGroup.clear()` and the native OpenAL calls. Writing a frame is modelled as appending to a log. Whether a device stream belongs to this source is a boolean input.
- Float arithmetic on the client: distance gain, volume and occlusion smoothing (`BaseClientAudioSource.kt` lines 262-293). The listener's distance to the source is an opaque integer input.
- Converting stereo sources to mono (lines 324-325): the decoded samples are written as they are.
- Decryption, Opus decoding and packet-loss concealment are external calls. Their outcome is an input: the decoded samples or None, and the index of the first concealment call that throws.
- Coroutines, the mutex and atomics on the client. Each handler is one atomic step. The 100 ms delayed reset scheduled by an end packet is a pending flag that `FireEndRequest` acts on. `resetAsync` is an immediate reset.
- The failure of the position lookups in `processAudioPacket` (lines 253-260): it calls `close()`, which takes the same non-reentrant mutex the handler already holds, so the handler never returns. That path is not modelled.
- `ClientAudio.IsActivated`: the time is an unbounded integer, so overflow of `currentTimeMillis() - lastActivation` is not modelled.
- `ClientAudio.Update`: volumes, line mute entries, the encryption refresh and the initialisation event are not modelled. The decoder rebuilt from the new description is an input (None when the description has no decoder parameters, in which case the old decoder stays).
- `closeTimeoutMs` is a public property. Setting it from outside is not modelled: it keeps its initial value of 500 ms.
- `Wire.DataInput.ReadLong`, `Wire.DataInput.ReadInt`: the Java exception thrown on short input is the `EndOfInput` error.
- `PacketUtil.ReadIntList`: a positive size so large that the `ArrayList` cannot be allocated (`OutOfMemoryError`) is not modelled. Such a size reads as a list as long as the input allows, or fails with `EndOfInput`.
- `PlayerAudioEnd.ServerPacketTcpHandler`: the handler interface is not part of this model. It is a recorder of the packets dispatched to it.
- `BaseVoiceServer` plumbing:
  - loading and saving the TOML file (an input);
  - the language files;
  - the event bus, including a listener replacing the UDP server in `UdpServerCreateEvent`;
  - the Netty UDP server (a handle holding its address);
  - the proximity activation registration;
  - LuckPerms, the Modrinth update check, mute storage, commands and permissions, and `onInitialize`.
- `UUID.fromString` is a JDK call. Its result is an input: malformed, or the UUID.
- Building the AES cipher is a library call: the default encryption is the algorithm name and the key.
- `OpusMode.valueOf` on an unknown mode name is not modelled: the mode name is passed on as a string.
- `VoiceServer.RestartRule`: whether `forwardingSecret` takes part in the host section's equality depends on `VoiceServerConfig`, which is not part of this model. The host section is compared as a whole value, secret included.
- `VoiceServer.Shutdown`: clearing the source-line, activation and player managers, unregistering from the event bus, closing the mute storage, and dropping the language bundle are not modelled.
- `ClientAudio.OnAudioPacket`: uses the corrected filler count `FillerCount`, not the source's `toInt()`-narrowed count `FillerCountAsWritten` (see "## Findings"). So the source's fillers are not promised when the gap `seq - (last + 1)` is outside the `int` range. There the source may write up to 4 fillers where the model writes none (last 0, packet 2^32 + 3: the source writes 2). For every gap that fits in an `int`, the two counts are equal (`FillerCountAgrees`).
- `ClientAudio.Play`: the same corrected filler count as `ClientAudio.OnAudioPacket`, with the same gap outside the `int` range.
- `ClientAudio.AcceptedPacketEffect`: the same corrected filler count as `ClientAudio.OnAudioPacket`, with the same gap outside the `int` range.
- `ClientAudio.CompletedIsRecorded`: the same corrected filler count as `ClientAudio.OnAudioPacket`, with the same gap outside the `int` range.
- `ClientAudio.BaseClientAudioSource.ProcessAudioPacket`: the same corrected filler count as `ClientAudio.OnAudioPacket`, with the same gap outside the `int` range.
- `ClientAudio.BaseClientAudioSource.PlayPacket`: the same corrected filler count as `ClientAudio.OnAudioPacket`, with the same gap outside the `int` range.
- `ActivationTabWidget.java` (settings widgets) and `ModPlayerManager.java` (game-engine player lookup) are outside the transport core.

## Findings

| source | as written | input that shows it | evidently intended | confidence | as-written member | corrected member |
|---|---|---|---|---|---|---|
| client/src/main/kotlin/su/plo/voice/client/audio/source/BaseClientAudioSource.kt:301-302 | the `Long` gap `seq - (last + 1)` is narrowed with `toInt()` before it is compared with 4, so its high 32 bits are dropped | last 0, packet 2^32 + 3 (gap 2^32 + 2): narrowed to 2, two fillers written; a restarted line with last 2^32 and packet 3 also gets two | compensate only when the true gap is between 1 and 4 | low — not executed; needs sequence numbers 2^32 apart on one line | ClientAudio.FillerCountTruncates | ClientAudio.CompensationRule |
