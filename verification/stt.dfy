/**
 * Speech-to-text over a WebSocket: the 44-byte RIFF/WAVE header written in
 * front of 16 kHz mono 16-bit PCM, and the per-connection audio buffer that
 * binary frames fill and `stop`, `reset` and the 96000-byte partial cut
 * drain. Whisper is an oracle from WAV bytes to a transcript or an error.
 */
module Stt {
  import opened Wrappers
  import opened Bytes
  import opened Text
  import opened JsValue

  // ---- The WAV header ----

  const SAMPLE_RATE: nat := 16000
  const NUM_CHANNELS: nat := 1
  const BITS_PER_SAMPLE: nat := 16
  const BYTE_RATE: nat := SAMPLE_RATE * NUM_CHANNELS * BITS_PER_SAMPLE / 8
  const BLOCK_ALIGN: nat := NUM_CHANNELS * BITS_PER_SAMPLE / 8
  /** WAVE_FORMAT_PCM. */
  const PCM_FORMAT: nat := 1
  const FMT_CHUNK_SIZE: nat := 16
  const HEADER_SIZE: nat := 44

  /** `writeUInt32LE(36 + n)` throws a RangeError beyond 32 bits. */
  datatype WavError = RangeError(value: int)

  /** The header for `n` bytes of PCM: RIFF chunk, `fmt ` chunk, `data` chunk header. */
  function WavHeader(n: nat): (h: seq<Byte>)
    requires 36 + n < TWO_32
    ensures |h| == HEADER_SIZE
  {
    RiffHeader(n) + FormatChunk() + DataHeader(n)
  }

  /** `RIFF`, the size of everything after these 8 bytes, `WAVE`. */
  function RiffHeader(n: nat): (r: seq<Byte>)
    requires 36 + n < TWO_32
    ensures |r| == 12
  {
    Ascii("RIFF") + LE32(36 + n) + Ascii("WAVE")
  }

  /** The `fmt ` chunk: its size, then PCM format, channels, rates, alignment and sample width. */
  function FormatChunk(): (r: seq<Byte>)
    ensures |r| == 24
  {
    (Ascii("fmt ") + LE32(FMT_CHUNK_SIZE) + LE16(PCM_FORMAT) + LE16(NUM_CHANNELS))
    + (LE32(SAMPLE_RATE) + LE32(BYTE_RATE) + LE16(BLOCK_ALIGN) + LE16(BITS_PER_SAMPLE))
  }

  /** `data` and the number of sample bytes that follow. */
  function DataHeader(n: nat): (r: seq<Byte>)
    requires n < TWO_32
    ensures |r| == 8
  {
    Ascii("data") + LE32(n)
  }

  /** `writeWav(pcm)`: the file contents, or the RangeError of an oversized buffer. */
  function WriteWav(pcm: seq<Byte>): (r: Result<seq<Byte>, WavError>)
    ensures r.Ok? <==> 36 + |pcm| < TWO_32
    ensures r.Ok? ==> |r.value| == HEADER_SIZE + |pcm| && r.value[HEADER_SIZE..] == pcm
  {
    if 36 + |pcm| >= TWO_32 then Err(RangeError(36 + |pcm|))
    else Ok(WavHeader(|pcm|) + pcm)
  }

  /** The little-endian field of 2 or 4 bytes at `off`. */
  function Field16(f: seq<Byte>, off: nat): nat
    requires off + 2 <= |f|
  {
    ReadLE16(f[off..off + 2])
  }

  function Field32(f: seq<Byte>, off: nat): nat
    requires off + 4 <= |f|
  {
    ReadLE32(f[off..off + 4])
  }

  /** The rates agree: a second of audio is `BYTE_RATE` bytes of `BLOCK_ALIGN`-byte frames, and a partial chunk is three seconds. */
  lemma RatesConsistent()
    ensures BYTE_RATE == 32000 && BLOCK_ALIGN == 2
    ensures BYTE_RATE == SAMPLE_RATE * BLOCK_ALIGN
    ensures CHUNK == 3 * BYTE_RATE
  {
  }

  /** Every field of the header, read back at its offset. */
  lemma WavHeaderFields(n: nat)
    requires 36 + n < TWO_32
    ensures var h := WavHeader(n);
      && h[0..4] == Ascii("RIFF") && Field32(h, 4) == 36 + n && h[8..12] == Ascii("WAVE")
      && h[12..16] == Ascii("fmt ") && Field32(h, 16) == 16 && Field16(h, 20) == 1
      && Field16(h, 22) == 1 && Field32(h, 24) == 16000 && Field32(h, 28) == 32000
      && Field16(h, 32) == 2 && Field16(h, 34) == 16
      && h[36..40] == Ascii("data") && Field32(h, 40) == n
  {
    var h := WavHeader(n);
    var r, f, d := RiffHeader(n), FormatChunk(), DataHeader(n);
    assert h[0..12] == r && h[12..36] == f && h[36..44] == d;
    RiffFields(n);
    FormatFields();
    DataFields(n);
    SliceOfSlice(h, 0, 12, 0, 4);
    SliceOfSlice(h, 0, 12, 4, 8);
    SliceOfSlice(h, 0, 12, 8, 12);
    SliceOfSlice(h, 12, 36, 0, 4);
    SliceOfSlice(h, 12, 36, 4, 8);
    SliceOfSlice(h, 12, 36, 8, 10);
    SliceOfSlice(h, 12, 36, 10, 12);
    SliceOfSlice(h, 12, 36, 12, 16);
    SliceOfSlice(h, 12, 36, 16, 20);
    SliceOfSlice(h, 12, 36, 20, 22);
    SliceOfSlice(h, 12, 36, 22, 24);
    SliceOfSlice(h, 36, 44, 0, 4);
    SliceOfSlice(h, 36, 44, 4, 8);
  }

  lemma SliceOfSlice(h: seq<Byte>, a: nat, b: nat, i: nat, j: nat)
    requires a <= b <= |h| && i <= j <= b - a
    ensures h[a..b][i..j] == h[a + i..a + j]
  {
    assert forall k :: 0 <= k < j - i ==> h[a..b][i..j][k] == h[a + i..a + j][k];
  }

  lemma RiffFields(n: nat)
    requires 36 + n < TWO_32
    ensures var r := RiffHeader(n);
      r[0..4] == Ascii("RIFF") && ReadLE32(r[4..8]) == 36 + n && r[8..12] == Ascii("WAVE")
  {
    var r := RiffHeader(n);
    assert r[4..8] == LE32(36 + n);
    LE32RoundTrip(36 + n);
  }

  lemma FormatFields()
    ensures var f := FormatChunk();
      && f[0..4] == Ascii("fmt ") && ReadLE32(f[4..8]) == 16 && ReadLE16(f[8..10]) == 1
      && ReadLE16(f[10..12]) == 1 && ReadLE32(f[12..16]) == 16000 && ReadLE32(f[16..20]) == 32000
      && ReadLE16(f[20..22]) == 2 && ReadLE16(f[22..24]) == 16
  {
    var f := FormatChunk();
    var f1 := Ascii("fmt ") + LE32(FMT_CHUNK_SIZE) + LE16(PCM_FORMAT) + LE16(NUM_CHANNELS);
    var f2 := LE32(SAMPLE_RATE) + LE32(BYTE_RATE) + LE16(BLOCK_ALIGN) + LE16(BITS_PER_SAMPLE);
    assert f[0..12] == f1 && f[12..24] == f2;
    assert f[0..4] == Ascii("fmt ") && f[4..8] == LE32(16) && f[8..10] == LE16(1) && f[10..12] == LE16(1) by {
      SliceOfSlice(f, 0, 12, 0, 4);
      SliceOfSlice(f, 0, 12, 4, 8);
      SliceOfSlice(f, 0, 12, 8, 10);
      SliceOfSlice(f, 0, 12, 10, 12);
    }
    assert f[12..16] == LE32(16000) && f[16..20] == LE32(32000) && f[20..22] == LE16(2) && f[22..24] == LE16(16) by {
      SliceOfSlice(f, 12, 24, 0, 4);
      SliceOfSlice(f, 12, 24, 4, 8);
      SliceOfSlice(f, 12, 24, 8, 10);
      SliceOfSlice(f, 12, 24, 10, 12);
    }
    LE32RoundTrip(16);
    LE32RoundTrip(16000);
    LE32RoundTrip(32000);
  }

  lemma DataFields(n: nat)
    requires n < TWO_32
    ensures var d := DataHeader(n);
      d[0..4] == Ascii("data") && ReadLE32(d[4..8]) == n
  {
    var d := DataHeader(n);
    assert d[4..8] == LE32(n);
    LE32RoundTrip(n);
  }

  /** A reader for canonical PCM WAV files: the samples, when the header describes them. */
  function ReadWav(f: seq<Byte>): Option<seq<Byte>> {
    if |f| < HEADER_SIZE then None
    else
      var n := Field32(f, 40);
      if && f[0..4] == Ascii("RIFF") && f[8..12] == Ascii("WAVE") && f[12..16] == Ascii("fmt ")
         && Field16(f, 20) == PCM_FORMAT && f[36..40] == Ascii("data")
         && Field32(f, 4) == 36 + n && |f| == HEADER_SIZE + n
      then Some(f[HEADER_SIZE..])
      else None
  }

  /** Reading back a written file gives the samples. */
  lemma ReadWriteWav(pcm: seq<Byte>)
    requires 36 + |pcm| < TWO_32
    ensures ReadWav(WriteWav(pcm).value) == Some(pcm)
  {
    var f := WriteWav(pcm).value;
    var h := WavHeader(|pcm|);
    WavHeaderFields(|pcm|);
    assert f[0..44] == h;
    assert f[0..4] == h[0..4] && f[8..12] == h[8..12] && f[12..16] == h[12..16] && f[36..40] == h[36..40];
    assert f[4..8] == h[4..8] && f[20..22] == h[20..22] && f[40..44] == h[40..44];
  }

  // ---- The connection ----

  /** Bytes cut off for a partial transcript. */
  const CHUNK: nat := 96000

  /** What the server sends: `{type, text}` as one of four kinds. */
  datatype WsMessage =
    | Transcript(partial: bool, text: string)   // `partial` or `final`
    | ResetAck                                  // `{ type: 'reset', text: '' }`
    | ErrorReport(cause: SttError)              // `{ type: 'error', text: err.message }`

  datatype SttError =
    | BadJson(message: string)         // JSON.parse threw
    | NoType                           // the parsed message is null: reading `.type` threw
    | WavTooLarge(value: int)
    | TranscribeFailed(message: string)

  /** A frame from the client: a control string (as parsed) or audio. */
  datatype Frame = TextFrame(parsed: Result<Value, string>) | Binary(data: seq<Byte>)

  /** The per-connection state; `processing` is set while a partial transcription is awaited. */
  datatype State = State(buffer: seq<Byte>, processing: bool)

  /** Whisper: a transcript of a WAV file, or an error message. */
  type Whisper = seq<Byte> -> Result<string, string>

  /** The messages one `transcribeBuffer` sends and the files it transcribes. */
  datatype Effect = Effect(sent: seq<WsMessage>, transcribed: seq<seq<Byte>>)

  /**
   * `transcribeBuffer(buffer, ws, id, partial)`: an empty buffer does
   * nothing; otherwise the buffer is wrapped as a WAV file Whisper is given,
   * and the client gets the trimmed transcript unless it is blank, or the
   * error. A buffer too large for the header's 32-bit size fields is
   * reported without reaching Whisper.
   */
  function Transcribe(buf: seq<Byte>, partial: bool, whisper: Whisper): (e: Effect)
    ensures buf == [] ==> e == Effect([], [])
    ensures |e.sent| <= 1 && |e.transcribed| <= 1
    ensures buf != [] && 36 + |buf| >= TWO_32 ==> e == Effect([ErrorReport(WavTooLarge(36 + |buf|))], [])
    ensures buf != [] && 36 + |buf| < TWO_32 ==>
      && |e.transcribed| == 1
      && ReadWav(e.transcribed[0]) == Some(buf)
      && var answer := whisper(e.transcribed[0]);
      && (answer.Err? ==> e.sent == [ErrorReport(TranscribeFailed(answer.error))])
      && (answer.Ok? && Trim(answer.value) != "" ==> e.sent == [Transcript(partial, Trim(answer.value))])
      && (answer.Ok? && Trim(answer.value) == "" ==> e.sent == [])
    ensures forall i :: 0 <= i < |e.sent| && e.sent[i].Transcript? ==>
      e.sent[i].partial == partial && e.sent[i].text != "" && Trimmed(e.sent[i].text)
  {
    if |buf| == 0 then Effect([], [])
    else match WriteWav(buf)
      case Err(RangeError(v)) => Effect([ErrorReport(WavTooLarge(v))], [])
      case Ok(wav) =>
        ReadWriteWav(buf);
        match whisper(wav)
        case Err(m) => Effect([ErrorReport(TranscribeFailed(m))], [wav])
        case Ok(text) =>
          TrimSpec(text);
          Effect(if Trim(text) != "" then [Transcript(partial, Trim(text))] else [], [wav])
  }

  /** The state after a frame, what was sent, and the audio transcribed. */
  datatype Step = Step(state: State, effect: Effect)

  /** The `message` handler, run to completion. */
  function OnFrame(s: State, f: Frame, whisper: Whisper): Step {
    match f
    case TextFrame(Err(m)) => Step(s, Effect([ErrorReport(BadJson(m))], []))
    case TextFrame(Ok(msg)) =>
      if msg.Null? then Step(s, Effect([ErrorReport(NoType)], []))
      else if OptProp(msg, "type") == Str("stop") then Step(State([], s.processing), Transcribe(s.buffer, false, whisper))
      else if OptProp(msg, "type") == Str("reset") then Step(State([], s.processing), Effect([ResetAck], []))
      else Step(s, Effect([], []))
    case Binary(data) =>
      var buf := s.buffer + data;
      if |buf| >= CHUNK && !s.processing then
        Step(State(buf[CHUNK..], s.processing), Transcribe(buf[..CHUNK], true, whisper))
      else Step(State(buf, s.processing), Effect([], []))
  }

  /** `stop` transcribes the whole buffer as final and leaves it empty. */
  lemma StopFlushes(s: State, whisper: Whisper)
    ensures var st := OnFrame(s, TextFrame(Ok(Obj(map["type" := Str("stop")]))), whisper);
      && st.state.buffer == []
      && st.effect == Transcribe(s.buffer, false, whisper)
      && (s.buffer == [] ==> st.effect == Effect([], []))
  {
  }

  /** `reset` empties the buffer and acknowledges, transcribing nothing. */
  lemma ResetClears(s: State, whisper: Whisper)
    ensures var st := OnFrame(s, TextFrame(Ok(Obj(map["type" := Str("reset")]))), whisper);
      st.state.buffer == [] && st.effect == Effect([ResetAck], [])
  {
  }

  /** The audio a binary frame cut off for a partial transcript, if any. */
  function Cut(s: State, data: seq<Byte>): seq<Byte> {
    var buf := s.buffer + data;
    if |buf| >= CHUNK && !s.processing then buf[..CHUNK] else []
  }

  /**
   * A binary frame loses no audio: what was cut off and what stays buffered
   * are the old buffer followed by the frame. At most one chunk is cut, of
   * exactly 96000 bytes, and only when nothing is being processed.
   */
  lemma BinaryConserves(s: State, data: seq<Byte>, whisper: Whisper)
    ensures var st := OnFrame(s, Binary(data), whisper);
      && Cut(s, data) + st.state.buffer == s.buffer + data
      && (Cut(s, data) != [] <==> |s.buffer + data| >= CHUNK && !s.processing)
      && (Cut(s, data) != [] ==> |Cut(s, data)| == CHUNK && st.effect == Transcribe(Cut(s, data), true, whisper))
      && (Cut(s, data) == [] ==> st.effect == Effect([], []))
      && st.state.processing == s.processing
  {
    var buf := s.buffer + data;
    if |buf| >= CHUNK && !s.processing {
      assert buf[..CHUNK] + buf[CHUNK..] == buf;
    }
  }

  /** A run of binary frames: the chunks cut, in order, and the final state. */
  function RunBinary(s: State, frames: seq<seq<Byte>>, whisper: Whisper): (r: (seq<seq<Byte>>, State))
    ensures r.1.processing == s.processing
    decreases |frames|
  {
    if frames == [] then ([], s)
    else
      var st := OnFrame(s, Binary(frames[0]), whisper);
      var rest := RunBinary(st.state, frames[1..], whisper);
      (if Cut(s, frames[0]) != [] then [Cut(s, frames[0])] + rest.0 else rest.0, rest.1)
  }

  function Flatten(chunks: seq<seq<Byte>>): seq<Byte> {
    if chunks == [] then [] else chunks[0] + Flatten(chunks[1..])
  }

  /**
   * Over any run of binary frames, the chunks sent for transcription
   * followed by the final buffer are the initial buffer followed by all
   * the audio received; each chunk is 96000 bytes; none is cut while a
   * transcription is in flight.
   */
  lemma {:induction false} RunBinaryConserves(s: State, frames: seq<seq<Byte>>, whisper: Whisper)
    ensures var (chunks, last) := RunBinary(s, frames, whisper);
      && Flatten(chunks) + last.buffer == s.buffer + Flatten(frames)
      && (forall i :: 0 <= i < |chunks| ==> |chunks[i]| == CHUNK)
      && (s.processing ==> chunks == [])
    decreases |frames|
  {
    if frames != [] {
      var st := OnFrame(s, Binary(frames[0]), whisper);
      var c := Cut(s, frames[0]);
      var rest := RunBinary(st.state, frames[1..], whisper);
      BinaryBuffer(s, frames[0], whisper);
      RunBinaryConserves(st.state, frames[1..], whisper);
      assert RunBinary(s, frames, whisper) == (if c != [] then [c] + rest.0 else rest.0, rest.1);
      ChunksStep(c, rest.0);
      assert Flatten(frames) == frames[0] + Flatten(frames[1..]);
      FlattenStep(c, st.state.buffer, Flatten(rest.0), rest.1.buffer, s.buffer + frames[0], Flatten(frames[1..]));
    }
  }

  /** The buffer bookkeeping of one binary frame, without its effect. */
  lemma BinaryBuffer(s: State, data: seq<Byte>, whisper: Whisper)
    ensures var st := OnFrame(s, Binary(data), whisper);
      && Cut(s, data) + st.state.buffer == s.buffer + data
      && (Cut(s, data) == [] || |Cut(s, data)| == CHUNK)
      && (s.processing ==> Cut(s, data) == [])
      && st.state.processing == s.processing
  {
  }

  /** Putting a possibly empty cut in front of the later chunks. */
  lemma ChunksStep(c: seq<Byte>, later: seq<seq<Byte>>)
    requires c == [] || |c| == CHUNK
    requires forall i :: 0 <= i < |later| ==> |later[i]| == CHUNK
    ensures var chunks := if c != [] then [c] + later else later;
      && Flatten(chunks) == c + Flatten(later)
      && forall i :: 0 <= i < |chunks| ==> |chunks[i]| == CHUNK
  {
    if c != [] {
      var chunks := [c] + later;
      assert chunks[0] == c && chunks[1..] == later;
      assert forall i :: 1 <= i < |chunks| ==> chunks[i] == later[i - 1];
    } else {
      assert c + Flatten(later) == Flatten(later);
    }
  }

  /** The bookkeeping of one step: cut + buffer = received, and the rest of the run conserves. */
  lemma FlattenStep(c: seq<Byte>, mid: seq<Byte>, chunks: seq<Byte>, last: seq<Byte>, received: seq<Byte>, later: seq<Byte>)
    requires c + mid == received
    requires chunks + last == mid + later
    ensures (c + chunks) + last == received + later
  {
    assert (c + chunks) + last == c + (chunks + last);
    assert c + (mid + later) == (c + mid) + later;
  }

  /** Control strings other than `stop` and `reset` change nothing and send nothing. */
  lemma OtherControlIgnored(s: State, msg: Value, whisper: Whisper)
    requires !msg.Null? && OptProp(msg, "type") != Str("stop") && OptProp(msg, "type") != Str("reset")
    ensures OnFrame(s, TextFrame(Ok(msg)), whisper) == Step(s, Effect([], []))
  {
  }
}
