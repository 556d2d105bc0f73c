/** The Compass gate-controller protocol: framing, the stream deframer of the gate-in
    daemon, the classification of pushed messages and the Wiegand card-number parser. */
module Compass {
  import opened Text

  type Byte = b: int | 0 <= b < 256

  const START: Byte := 0xA6
  const END: Byte := 0xA9

  /** Wrap a raw command in a Compass frame. */
  function BuildCommand(cmd: seq<Byte>): seq<Byte> {
    [START] + cmd + [END]
  }

  // ---------------------------------------------------------------- reference scanner

  /** A byte-at-a-time reading of the stream: outside a frame everything but the start
      byte is noise; inside, every byte belongs to the frame up to the end byte. */
  datatype Scanner = Scanner(partial: seq<Byte>, frames: seq<seq<Byte>>)

  const FRESH := Scanner([], [])

  function Feed(s: Scanner, b: Byte): Scanner {
    if s.partial == [] then
      if b == START then s.(partial := [b]) else s
    else if b == END then
      Scanner([], s.frames + [s.partial + [b]])
    else
      s.(partial := s.partial + [b])
  }

  function FeedAll(s: Scanner, bytes: seq<Byte>): Scanner
    decreases |bytes|
  {
    if bytes == [] then s else FeedAll(Feed(s, bytes[0]), bytes[1..])
  }

  /** The frames carried by a whole byte stream. */
  function Frames(stream: seq<Byte>): seq<seq<Byte>> {
    FeedAll(FRESH, stream).frames
  }

  lemma {:induction false} FeedAllConcat(s: Scanner, a: seq<Byte>, b: seq<Byte>)
    ensures FeedAll(s, a + b) == FeedAll(FeedAll(s, a), b)
    decreases |a|
  {
    if a == [] {
      assert a + b == b;
    } else {
      assert (a + b)[1..] == a[1..] + b;
      FeedAllConcat(Feed(s, a[0]), a[1..], b);
    }
  }

  /** Frames already completed do not influence how later bytes are read. */
  lemma {:induction false} FramesOnlyGrow(done: seq<seq<Byte>>, s: Scanner, bytes: seq<Byte>)
    ensures FeedAll(Scanner(s.partial, done + s.frames), bytes)
         == Scanner(FeedAll(s, bytes).partial, done + FeedAll(s, bytes).frames)
    decreases |bytes|
  {
    if bytes == [] {
    } else {
      var t := Feed(s, bytes[0]);
      assert Feed(Scanner(s.partial, done + s.frames), bytes[0]).frames == done + t.frames;
      FramesOnlyGrow(done, t, bytes[1..]);
    }
  }

  lemma {:induction false} NoiseIsSkipped(s: Scanner, noise: seq<Byte>)
    requires s.partial == [] && START !in noise
    ensures FeedAll(s, noise) == s
    decreases |noise|
  {
    if noise == [] {
    } else {
      NoiseIsSkipped(s, noise[1..]);
    }
  }

  lemma {:induction false} BodyAccumulates(s: Scanner, body: seq<Byte>)
    requires s.partial != [] && END !in body
    ensures FeedAll(s, body) == s.(partial := s.partial + body)
    decreases |body|
  {
    if body == [] {
      assert s.partial + body == s.partial;
    } else {
      var t := Feed(s, body[0]);
      BodyAccumulates(t, body[1..]);
      assert t.partial + body[1..] == s.partial + body;
    }
  }

  /** Noise, then a frame that has not ended yet. */
  lemma OpenFrame(s: Scanner, noise: seq<Byte>, body: seq<Byte>)
    requires s.partial == [] && START !in noise && END !in body
    ensures FeedAll(s, noise + ([START] + body)) == s.(partial := [START] + body)
  {
    FeedAllConcat(s, noise, [START] + body);
    NoiseIsSkipped(s, noise);
    assert ([START] + body)[1..] == body;
    BodyAccumulates(Feed(s, START), body);
  }

  /** Noise, then one frame: exactly that frame is added. */
  lemma FrameIsRead(s: Scanner, noise: seq<Byte>, body: seq<Byte>)
    requires s.partial == [] && START !in noise && END !in body
    ensures FeedAll(s, noise + BuildCommand(body)) == Scanner([], s.frames + [BuildCommand(body)])
  {
    OpenFrame(s, noise, body);
    var begun := noise + ([START] + body);
    assert noise + BuildCommand(body) == begun + [END];
    FeedAllConcat(s, begun, [END]);
    assert FeedAll(FeedAll(s, begun), [END]) == Feed(FeedAll(s, begun), END) by {
      assert [END][1..] == [];
    }
  }

  // ---------------------------------------------------------------- the daemon's deframer

  /** `bytes.index(b, from)`, with -1 for the ValueError. */
  function IndexFrom(bytes: seq<Byte>, b: Byte, from: nat): (i: int)
    requires from <= |bytes|
    ensures i == -1 ==> b !in bytes[from..]
    ensures i != -1 ==> from <= i < |bytes| && bytes[i] == b && b !in bytes[from..i]
    decreases |bytes| - from
  {
    if from == |bytes| then -1
    else if bytes[from] == b then from
    else IndexFrom(bytes, b, from + 1)
  }

  /** Consume every complete frame of the buffer; what is left is carried over to the next
      read. A buffer without a start byte is dropped once it holds two bytes. */
  method ProcessRssBuffer(input: seq<Byte>) returns (frames: seq<seq<Byte>>, rest: seq<Byte>)
    ensures frames == Frames(input)
    ensures FeedAll(FRESH, rest) == Scanner(FeedAll(FRESH, input).partial, [])
  {
    frames := [];
    var buffer := input;
    while |buffer| >= 2
      invariant FeedAll(FRESH, input)
             == Scanner(FeedAll(FRESH, buffer).partial, frames + FeedAll(FRESH, buffer).frames)
      decreases |buffer|
    {
      var start := IndexFrom(buffer, START, 0);
      if start == -1 {
        NoiseIsSkipped(FRESH, buffer);
        return frames, [];
      }
      var end := IndexFrom(buffer, END, start + 1);
      if end == -1 {
        PendingFrame(buffer, start);
        return frames, buffer;
      }
      FrameOnTop(buffer, start, end, frames);
      frames := frames + [buffer[start..end + 1]];
      buffer := buffer[end + 1..];
    }
    assert |buffer| == 1 ==> buffer == [buffer[0]] && buffer[1..] == [];
    return frames, buffer;
  }

  lemma PendingFrame(buffer: seq<Byte>, start: nat)
    requires start < |buffer| && buffer[start] == START && START !in buffer[..start]
    requires END !in buffer[start + 1..]
    ensures FeedAll(FRESH, buffer) == Scanner(buffer[start..], [])
    ensures FeedAll(FRESH, buffer[start..]) == Scanner(buffer[start..], [])
  {
    OpenFrame(FRESH, buffer[..start], buffer[start + 1..]);
    OpenFrame(FRESH, [], buffer[start + 1..]);
    assert [] + ([START] + buffer[start + 1..]) == [START] + buffer[start + 1..] == buffer[start..];
    assert buffer[..start] + buffer[start..] == buffer;
  }

  lemma CutFrame(buffer: seq<Byte>, start: nat, end: nat)
    requires start < end < |buffer| && buffer[start] == START && buffer[end] == END
    ensures var frame := BuildCommand(buffer[start + 1..end]);
      && buffer[start..end + 1] == frame
      && buffer == (buffer[..start] + frame) + buffer[end + 1..]
  {
  }

  lemma FrameOnTop(buffer: seq<Byte>, start: nat, end: nat, frames: seq<seq<Byte>>)
    requires start < end < |buffer| && buffer[start] == START && buffer[end] == END
    requires START !in buffer[..start] && END !in buffer[start + 1..end]
    ensures var rest := FeedAll(FRESH, buffer[end + 1..]);
      && FeedAll(FRESH, buffer).partial == rest.partial
      && frames + FeedAll(FRESH, buffer).frames == (frames + [buffer[start..end + 1]]) + rest.frames
  {
    CutFrame(buffer, start, end);
    TakeFrame(buffer[..start], buffer[start + 1..end], buffer[end + 1..], frames);
  }

  /** One round of the deframing loop takes the first frame off the buffer. */
  lemma TakeFrame(noise: seq<Byte>, body: seq<Byte>, later: seq<Byte>, frames: seq<seq<Byte>>)
    requires START !in noise && END !in body
    ensures var rest := FeedAll(FRESH, later);
      var all := FeedAll(FRESH, (noise + BuildCommand(body)) + later);
      && all.partial == rest.partial
      && frames + all.frames == (frames + [BuildCommand(body)]) + rest.frames
  {
    var frame := BuildCommand(body);
    FeedAllConcat(FRESH, noise + frame, later);
    FrameIsRead(FRESH, noise, body);
    assert FRESH.frames + [frame] == [frame] + FRESH.frames;
    FramesOnlyGrow([frame], FRESH, later);
    var rest := FeedAll(FRESH, later);
    assert frames + ([frame] + rest.frames) == (frames + [frame]) + rest.frames;
  }

  function Concat(chunks: seq<seq<Byte>>): seq<Byte> {
    if chunks == [] then [] else Concat(chunks[..|chunks| - 1]) + chunks[|chunks| - 1]
  }

  /** The listener loop on one connection: every read is appended to the carried-over
      residue and deframed. However the stream is cut into reads, the dispatched messages
      are those of the uncut stream. */
  method DispatchStream(chunks: seq<seq<Byte>>) returns (dispatched: seq<seq<Byte>>)
    ensures dispatched == Frames(Concat(chunks))
  {
    dispatched := [];
    var buffer: seq<Byte> := [];
    for i := 0 to |chunks|
      invariant FeedAll(FRESH, Concat(chunks[..i]))
             == Scanner(FeedAll(FRESH, buffer).partial, dispatched)
      invariant FeedAll(FRESH, buffer).frames == []
    {
      var before := FeedAll(FRESH, buffer);
      var chunk := chunks[i];
      var frames;
      FeedAllConcat(FRESH, buffer, chunk);
      FeedAllConcat(FRESH, Concat(chunks[..i]), chunk);
      FramesOnlyGrow(dispatched, before, chunk);
      assert Concat(chunks[..i + 1]) == Concat(chunks[..i]) + chunk by {
        assert chunks[..i + 1][..i] == chunks[..i];
      }
      assert dispatched + [] == dispatched;
      if chunk != [] {
        frames, buffer := ProcessRssBuffer(buffer + chunk);
        dispatched := dispatched + frames;
      }
    }
    assert chunks[..|chunks|] == chunks;
  }

  // ---------------------------------------------------------------- handlers that raise

  /** A message handed to its handler; final if the loop went on, so that its bytes are consumed. */
  datatype Dispatched = Dispatched(frame: seq<Byte>, final: bool)

  function Finals(log: seq<Dispatched>): seq<seq<Byte>> {
    if log == [] then []
    else
      var last := log[|log| - 1];
      Finals(log[..|log| - 1]) + if last.final then [last.frame] else []
  }

  function Logged(frames: seq<seq<Byte>>, final: bool): seq<Dispatched> {
    seq(|frames|, i requires 0 <= i < |frames| => Dispatched(frames[i], final))
  }

  lemma {:induction false} FinalsAppend(log: seq<Dispatched>, frames: seq<seq<Byte>>, final: bool)
    ensures Finals(log + Logged(frames, final)) == Finals(log) + if final then frames else []
    decreases |frames|
  {
    if frames == [] {
      assert log + Logged(frames, final) == log;
    } else {
      var (n, all) := (|frames| - 1, log + Logged(frames, final));
      assert all[..|all| - 1] == log + Logged(frames[..n], final);
      FinalsAppend(log, frames[..n], final);
      assert frames[..n] + [frames[n]] == frames;
    }
  }

  /** Of the stream so far, these frames are consumed and the buffer holds the rest. */
  ghost predicate Carries(stream: seq<Byte>, consumed: seq<seq<Byte>>, buffer: seq<Byte>) {
    var held := FeedAll(FRESH, buffer);
    FeedAll(FRESH, stream) == Scanner(held.partial, consumed + held.frames)
  }

  lemma ReadMore(stream: seq<Byte>, consumed: seq<seq<Byte>>, buffer: seq<Byte>, chunk: seq<Byte>)
    requires Carries(stream, consumed, buffer)
    ensures Carries(stream + chunk, consumed, buffer + chunk)
    ensures Frames(stream) <= Frames(stream + chunk)
  {
    FeedAllConcat(FRESH, stream, chunk);
    FeedAllConcat(FRESH, buffer, chunk);
    FramesOnlyGrow(consumed, FeedAll(FRESH, buffer), chunk);
    ChunkingIrrelevant([stream], [stream], chunk);
    assert Concat([stream]) == stream by { assert [stream][..0] == []; }
    assert Concat([stream] + [chunk]) == stream + chunk by { assert ([stream] + [chunk])[..1] == [stream]; }
  }

  lemma Consume(stream: seq<Byte>, consumed: seq<seq<Byte>>, buffer: seq<Byte>, rest: seq<Byte>)
    requires Carries(stream, consumed, buffer)
    requires FeedAll(FRESH, rest) == Scanner(FeedAll(FRESH, buffer).partial, [])
    ensures Carries(stream, consumed + Frames(buffer), rest)
  {
    assert consumed + Frames(buffer) + [] == consumed + Frames(buffer);
  }

  predicate AllFrom(log: seq<Dispatched>, frames: seq<seq<Byte>>) {
    forall k :: 0 <= k < |log| ==> log[k].frame in frames
  }

  ghost predicate Progress(stream: seq<Byte>, log: seq<Dispatched>, buffer: seq<Byte>) {
    Carries(stream, Finals(log), buffer) && AllFrom(log, Frames(stream))
  }

  lemma LogMore(stream: seq<Byte>, log: seq<Dispatched>, buffer: seq<Byte>, n: nat, rest: seq<Byte>)
    requires Progress(stream, log, buffer) && n <= |Frames(buffer)|
    requires FeedAll(FRESH, rest) == Scanner(FeedAll(FRESH, buffer).partial, [])
    ensures Progress(stream, log + Logged(Frames(buffer)[..n], false), buffer)
    ensures Progress(stream, log + Logged(Frames(buffer), true), rest)
  {
    FinalsAppend(log, Frames(buffer)[..n], false);
    FinalsAppend(log, Frames(buffer), true);
    assert Finals(log) + [] == Finals(log);
    Consume(stream, Finals(log), buffer, rest);
    assert Frames(stream) == Finals(log) + Frames(buffer);
  }

  predicate Raises(frames: seq<seq<Byte>>, failing: Option<nat>) {
    failing.Some? && failing.value < |frames|
  }

  /** The frames up to the one whose handler raised were handed out last, and not for good. */
  predicate Repeats(log: seq<Dispatched>, frames: seq<seq<Byte>>, failing: Option<nat>)
    requires Raises(frames, failing)
  {
    var n := failing.value + 1;
    n <= |log| && log[|log| - n..] == Logged(frames[..n], false)
  }

  /** One read: either all its frames are handled, or the handler of one of them raises and the loop
      keeps the buffer it had. */
  method ReadOnce(ghost stream: seq<Byte>, log: seq<Dispatched>, buffer: seq<Byte>, chunk: seq<Byte>,
                  failing: Option<nat>)
    returns (log': seq<Dispatched>, buffer': seq<Byte>)
    requires Progress(stream, log, buffer)
    ensures Progress(stream + chunk, log', buffer')
    ensures if chunk == [] then log' == log && buffer' == buffer
            else if Raises(Frames(buffer + chunk), failing) then
              buffer' == buffer + chunk && Repeats(log', Frames(buffer + chunk), failing)
            else Frames(buffer') == [] && log' == log + Logged(Frames(buffer + chunk), true)
    ensures log <= log'
  {
    ReadMore(stream, Finals(log), buffer, chunk);
    if chunk == [] {
      assert buffer + chunk == buffer && stream + chunk == stream;
      return log, buffer;
    }
    var frames, rest := ProcessRssBuffer(buffer + chunk);
    var n := if failing.Some? && failing.value < |frames| then failing.value + 1 else 0;
    LogMore(stream + chunk, log, buffer + chunk, n, rest);
    if n > 0 { return log + Logged(frames[..n], false), buffer + chunk; }
    return log + Logged(frames, true), rest;
  }

  /** The listener loop when handlers can raise: `failing[i]` names the frame of read i whose handler
      does. The frames already handed out then come again with the next read, and those behind it wait.
      The messages dispatched for good, in order, and those still in the buffer are exactly the stream's
      frames, and nothing else is ever dispatched. Once a read goes through, every message so far has
      been dispatched for good. */
  method DispatchWithFailures(chunks: seq<seq<Byte>>, failing: seq<Option<nat>>)
    returns (log: seq<Dispatched>, buffer: seq<Byte>)
    requires |failing| == |chunks|
    ensures Finals(log) + Frames(buffer) == Frames(Concat(chunks))
    ensures AllFrom(log, Frames(Concat(chunks)))
    ensures chunks != [] && chunks[|chunks| - 1] != [] ==>
      var (held, last) := (Frames(buffer), failing[|chunks| - 1]);
      if Raises(held, last) then Repeats(log, held, last) else held == [] && Finals(log) == Frames(Concat(chunks))
  {
    log, buffer := [], [];
    for i := 0 to |chunks|
      invariant Progress(Concat(chunks[..i]), log, buffer)
      invariant i > 0 && chunks[i - 1] != [] ==>
        if Raises(Frames(buffer), failing[i - 1]) then Repeats(log, Frames(buffer), failing[i - 1])
        else Frames(buffer) == []
    {
      assert chunks[..i + 1][..i] == chunks[..i];
      log, buffer := ReadOnce(Concat(chunks[..i]), log, buffer, chunks[i], failing[i]);
    }
    assert chunks[..|chunks|] == chunks;
    assert Finals(log) + [] == Finals(log);
  }

  /** Two ways of cutting the same stream dispatch the same messages. */
  lemma ChunkingIrrelevant(cut: seq<seq<Byte>>, otherCut: seq<seq<Byte>>, more: seq<Byte>)
    requires Concat(cut) == Concat(otherCut)
    ensures Frames(Concat(cut + [more])) == Frames(Concat(otherCut + [more]))
    ensures Frames(Concat(cut)) <= Frames(Concat(cut + [more]))
  {
    assert (cut + [more])[..|cut|] == cut && (otherCut + [more])[..|otherCut|] == otherCut;
    FeedAllConcat(FRESH, Concat(cut), more);
    var s := FeedAll(FRESH, Concat(cut));
    FramesOnlyGrow(s.frames, Scanner(s.partial, []), more);
    assert s.frames + [] == s.frames;
  }

  /** Noise, frame, noise, frame, ... */
  function Interleave(noise: seq<seq<Byte>>, payloads: seq<seq<Byte>>): seq<Byte>
    requires |noise| == |payloads|
  {
    if noise == [] then []
    else
      var n := |noise| - 1;
      Interleave(noise[..n], payloads[..n]) + (noise[n] + BuildCommand(payloads[n]))
  }

  function Built(payloads: seq<seq<Byte>>): (frames: seq<seq<Byte>>)
    ensures |frames| == |payloads|
  {
    seq(|payloads|, i requires 0 <= i < |payloads| => BuildCommand(payloads[i]))
  }

  predicate Clean(noise: seq<seq<Byte>>, payloads: seq<seq<Byte>>)
    requires |noise| == |payloads|
  {
    forall i :: 0 <= i < |noise| ==> START !in noise[i] && END !in payloads[i]
  }

  lemma OneMoreFrame(earlier: seq<Byte>, frames: seq<seq<Byte>>, noise: seq<Byte>, payload: seq<Byte>)
    requires FeedAll(FRESH, earlier) == Scanner([], frames) && START !in noise && END !in payload
    ensures FeedAll(FRESH, earlier + (noise + BuildCommand(payload)))
         == Scanner([], frames + [BuildCommand(payload)])
  {
    FeedAllConcat(FRESH, earlier, noise + BuildCommand(payload));
    FrameIsRead(Scanner([], frames), noise, payload);
  }

  /** Deframing inverts framing: for payloads free of the end byte and noise free of the
      start byte, exactly the built frames come out, in order, and nothing is left over. */
  lemma {:induction false} DeframeInvertsFraming(noise: seq<seq<Byte>>, payloads: seq<seq<Byte>>)
    requires |noise| == |payloads| && Clean(noise, payloads)
    ensures FeedAll(FRESH, Interleave(noise, payloads)) == Scanner([], Built(payloads))
    decreases |noise|
  {
    if noise == [] {
    } else {
      var n := |noise| - 1;
      DeframeInvertsFraming(noise[..n], payloads[..n]);
      OneMoreFrame(Interleave(noise[..n], payloads[..n]), Built(payloads[..n]), noise[n], payloads[n]);
      assert Built(payloads[..n]) + [BuildCommand(payloads[n])] == Built(payloads);
    }
  }

  // ---------------------------------------------------------------- message dispatch

  /** What the daemon does with a pushed message, before looking at its state. */
  datatype Signal = In1On | In1Off | In2On | In3On | In4On | In4Off | Card(number: string) | Ignored

  function Latin1(bytes: seq<Byte>): (s: string)
    ensures |s| == |bytes| && forall i :: 0 <= i < |s| ==> s[i] == bytes[i] as char
  {
    seq(|bytes|, i requires 0 <= i < |bytes| => bytes[i] as char)
  }

  const END_CHAR: char := END as char

  /** Does `word` stand at position `at`? */
  predicate StandsAt(text: string, word: string, at: nat) {
    at + |word| <= |text| && text[at..at + |word|] == word
  }

  predicate Contains(text: string, word: string) {
    exists at: nat :: at <= |text| && StandsAt(text, word, at)
  }

  /** A word is found wherever it stands, at either end too. */
  lemma FoundAnywhere(before: string, word: string, after: string)
    ensures Contains(before + word + after, word)
  {
    assert StandsAt(before + word + after, word, |before|);
  }

  function StripEnd(text: string): string {
    if text != "" && text[|text| - 1] == END_CHAR then StripEnd(text[..|text| - 1]) else text
  }

  predicate EndsWith(text: string, word: string) {
    |text| >= |word| && text[|text| - |word|..] == word
  }

  function Classify(text: string): Signal {
    if EndsWith(StripEnd(text), "OK") then Ignored
    else if Contains(text, "IN1ON") then In1On
    else if Contains(text, "IN1OFF") then In1Off
    else if Contains(text, "IN2ON") then In2On
    else if Contains(text, "IN3ON") then In3On
    else if Contains(text, "IN4ON") then In4On
    else if Contains(text, "IN4OFF") then In4Off
    else
      match Wiegand(text, 'W')
      case Some(number) => Card(number)
      case None =>
        match Wiegand(text, 'X')
        case Some(number) => Card(number)
        case None => Ignored
  }

  predicate SensorWord(word: string) {
    word in ["IN1ON", "IN1OFF", "IN2ON", "IN3ON", "IN4ON", "IN4OFF"]
  }

  /** The place of a sensor word in that list. */
  function Rank(word: string): nat {
    if word == "IN1ON" then 0
    else if word == "IN1OFF" then 1
    else if word == "IN2ON" then 2
    else if word == "IN3ON" then 3
    else if word == "IN4ON" then 4
    else 5
  }

  function SignalOf(rank: nat): Signal {
    match rank
    case 0 => In1On
    case 1 => In1Off
    case 2 => In2On
    case 3 => In3On
    case 4 => In4On
    case _ => In4Off
  }

  function FramedText(word: string): string {
    [START as char] + word + [END_CHAR]
  }

  /** The framed form of each sensor word is taken for its own signal and no other. */
  lemma SensorWordsRecognised(word: string)
    requires SensorWord(word)
    ensures Classify(FramedText(word)) == SignalOf(Rank(word))
  {
    OnlyRank(word, "IN1ON");
    OnlyRank(word, "IN1OFF");
    OnlyRank(word, "IN2ON");
    OnlyRank(word, "IN3ON");
    OnlyRank(word, "IN4ON");
    OnlyRank(word, "IN4OFF");
    NoAcknowledgement(word);
    Ranks();
    ClassifiedBy(FramedText(word), Rank(word));
  }

  lemma Ranks()
    ensures Rank("IN1ON") == 0 && Rank("IN1OFF") == 1 && Rank("IN2ON") == 2
    ensures Rank("IN3ON") == 3 && Rank("IN4ON") == 4 && Rank("IN4OFF") == 5
  {
  }

  lemma OnlyRank(word: string, other: string)
    requires SensorWord(word) && SensorWord(other)
    ensures Contains(FramedText(word), other) <==> Rank(word) == Rank(other)
  {
    ContainsOnlyItself(word, other);
  }

  lemma ClassifiedBy(text: string, rank: nat)
    requires rank <= 5 && !EndsWith(StripEnd(text), "OK")
    requires Contains(text, "IN1ON") <==> rank == 0
    requires Contains(text, "IN1OFF") <==> rank == 1
    requires Contains(text, "IN2ON") <==> rank == 2
    requires Contains(text, "IN3ON") <==> rank == 3
    requires Contains(text, "IN4ON") <==> rank == 4
    requires Contains(text, "IN4OFF") <==> rank == 5
    ensures Classify(text) == SignalOf(rank)
  {
  }

  lemma NoAcknowledgement(word: string)
    requires SensorWord(word)
    ensures !EndsWith(StripEnd(FramedText(word)), "OK")
  {
    var (text, inner) := (FramedText(word), [START as char] + word);
    assert text[..|text| - 1] == inner;
    assert inner[|inner| - 1] == word[|word| - 1];
    assert inner[|inner| - 2..][1] == word[|word| - 1];
  }

  lemma ContainsOnlyItself(word: string, other: string)
    requires SensorWord(word) && SensorWord(other)
    ensures Contains(FramedText(word), other) <==> other == word
  {
    var text := FramedText(word);
    assert text[1..1 + |word|] == word;
    assert StandsAt(text, word, 1);
    forall at: nat | StandsAt(text, other, at) ensures other == word {
      StandsOnlyItself(word, other, at);
    }
  }

  lemma StandsOnlyItself(word: string, other: string, at: nat)
    requires SensorWord(word) && SensorWord(other) && StandsAt(FramedText(word), other, at)
    ensures other == word
  {
    var text := FramedText(word);
    var there := text[at..at + |other|];
    assert there[0] == text[at] && there[2] == text[at + 2] && there[4] == text[at + 4];
    assert text[at] == 'I';
    assert at == 1;
    assert text[3] == word[2] && text[5] == word[4];
  }

  /** The daemon acknowledges a signal by sending it back with an `OK` suffix. An
      acknowledgement that is echoed to the daemon is never taken for a new signal. */
  lemma AcknowledgementsAreIgnored(signal: string)
    ensures Classify([START as char] + signal + "OK" + [END_CHAR]) == Ignored
  {
    var text := [START as char] + signal + "OK" + [END_CHAR];
    var inner := [START as char] + signal + "OK";
    assert text[..|text| - 1] == inner;
    assert inner[|inner| - 1] == 'K';
    assert StripEnd(text) == StripEnd(inner) == inner;
    assert inner[|inner| - 2..] == "OK";
  }

  // ---------------------------------------------------------------- Wiegand numbers

  function IndexOf(text: string, c: char): (i: int)
    ensures i == -1 ==> c !in text
    ensures i != -1 ==> 0 <= i < |text| && text[i] == c && c !in text[..i]
  {
    if text == "" then -1
    else if text[0] == c then 0
    else
      var i := IndexOf(text[1..], c);
      assert text == [text[0]] + text[1..];
      if i == -1 then -1 else
        assert text[..i + 1] == [text[0]] + text[1..][..i];
        i + 1
  }

  /** `text.split(c, 1)[0]` */
  function UpTo(text: string, c: char): string {
    var i := IndexOf(text, c);
    if i == -1 then text else text[..i]
  }

  /** The longest prefix made of hexadecimal digits. */
  function HexRun(text: string): (h: string)
    ensures AllHex(h)
  {
    if text == "" || !IsHex(text[0]) then "" else [text[0]] + HexRun(text[1..])
  }

  /** The card number on a Wiegand channel, as decimal text. */
  function Wiegand(text: string, channel: char): Option<string> {
    var i := IndexOf(text, channel);
    if i == -1 then None
    else
      var hex := HexRun(UpTo(text[i + 1..], END_CHAR));
      if hex == "" then None else Some(Decimal(HexValue(hex)))
  }

  /** The parser's loop: characters are taken while they are hexadecimal digits. */
  method ExtractWiegand(text: string, channel: char) returns (number: Option<string>)
    ensures number == Wiegand(text, channel)
  {
    var i := IndexOf(text, channel);
    if i == -1 {
      return None;
    }
    var remainder := UpTo(text[i + 1..], END_CHAR);
    if remainder == "" {
      return None;
    }
    var hexChars := "";
    var k := 0;
    while k < |remainder| && IsHex(remainder[k])
      invariant 0 <= k <= |remainder|
      invariant AllHex(hexChars)
      invariant HexRun(remainder) == hexChars + HexRun(remainder[k..])
    {
      assert remainder[k..][1..] == remainder[k + 1..];
      assert hexChars + ([remainder[k]] + HexRun(remainder[k + 1..]))
          == (hexChars + [remainder[k]]) + HexRun(remainder[k + 1..]);
      hexChars := hexChars + [remainder[k]];
      k := k + 1;
    }
    assert HexRun(remainder[k..]) == "";
    assert hexChars + "" == hexChars;
    return if hexChars == "" then None else Some(Decimal(HexValue(hexChars)));
  }

  lemma FirstOccurrence(before: string, c: char, after: string)
    requires c !in before
    ensures IndexOf(before + [c] + after, c) == |before|
  {
    var text := before + [c] + after;
    var i := IndexOf(text, c);
    assert text[|before|] == c;
    assert forall k :: 0 <= k < |before| ==> text[k] == before[k];
  }

  lemma {:induction false} HexRunStops(hex: string, after: string)
    requires AllHex(hex) && (after == "" || !IsHex(after[0]))
    ensures HexRun(hex + after) == hex
    decreases |hex|
  {
    if hex == "" {
      assert hex + after == after;
    } else {
      assert (hex + after)[1..] == hex[1..] + after;
      HexRunStops(hex[1..], after);
      assert [hex[0]] + hex[1..] == hex;
    }
  }

  /** One card number: whatever precedes the channel letter and whatever follows the
      digits, the parser yields the decimal of the number, up to case and padding. */
  lemma WiegandReads(before: string, channel: char, hex: string, after: string)
    requires channel !in before && AllHex(hex) && hex != ""
    requires after == "" || !IsHex(after[0])
    ensures Wiegand(before + [channel] + (hex + after), channel) == Some(Decimal(HexValue(hex)))
  {
    var text := before + [channel] + (hex + after);
    FirstOccurrence(before, channel, hex + after);
    assert text[|before| + 1..] == hex + after;
    var i := IndexOf(hex + after, END_CHAR);
    var cut := UpTo(hex + after, END_CHAR);
    if i != -1 {
      assert (hex + after)[i] == END_CHAR;
      assert |hex| <= i;
      assert cut == hex + after[..i - |hex|];
      HexRunStops(hex, after[..i - |hex|]);
    } else {
      HexRunStops(hex, after);
    }
  }

  /** A frame carrying an RFID and a UHF number, in either order: each channel yields the
      decimal of its own number, for every spelling of it. */
  lemma BothChannelsRead(w: string, x: string, w': string, x': string, kw: nat, kx: nat)
    requires AllHex(w) && AllHex(x) && w != "" && x != ""
    requires AllHex(w') && AllHex(x') && Upper(w') == Upper(w) && Upper(x') == Upper(x)
    ensures var (s, e) := ([START as char], [END_CHAR]);
      var text := s + "W" + (Zeros(kw) + w') + "X" + (Zeros(kx) + x') + e;
      && Wiegand(text, 'W') == Some(Decimal(HexValue(w)))
      && Wiegand(text, 'X') == Some(Decimal(HexValue(x)))
    ensures var (s, e) := ([START as char], [END_CHAR]);
      var text := s + "X" + (Zeros(kx) + x') + "W" + (Zeros(kw) + w') + e;
      && Wiegand(text, 'W') == Some(Decimal(HexValue(w)))
      && Wiegand(text, 'X') == Some(Decimal(HexValue(x)))
  {
    HexCaseInsensitive(w', w);
    HexCaseInsensitive(x', x);
    HexZeroPadding(kw, w');
    HexZeroPadding(kx, x');
    assert Zeros(kw) + w' != "" && Zeros(kx) + x' != "";
    OrderedChannels('W', Zeros(kw) + w', 'X', Zeros(kx) + x');
    OrderedChannels('X', Zeros(kx) + x', 'W', Zeros(kw) + w');
  }

  lemma OrderedChannels(a: char, ha: string, b: char, hb: string)
    requires a != b && !IsHex(a) && !IsHex(b)
    requires a != START as char && b != START as char && a != END_CHAR && b != END_CHAR
    requires AllHex(ha) && AllHex(hb) && ha != "" && hb != ""
    ensures var text := [START as char] + [a] + ha + [b] + hb + [END_CHAR];
      && Wiegand(text, a) == Some(Decimal(HexValue(ha)))
      && Wiegand(text, b) == Some(Decimal(HexValue(hb)))
  {
    var (s, e) := ([START as char], [END_CHAR]);
    Regroup(s, [a], ha, [b], hb, e);
    WiegandReads(s, a, ha, [b] + hb + e);
    SecondChannel(s, a, ha, b, hb, e);
  }

  lemma Regroup(s: string, a: string, ha: string, b: string, hb: string, e: string)
    ensures s + a + ha + b + hb + e == s + a + (ha + (b + hb + e))
    ensures s + a + ha + b + hb + e == (s + a + ha) + b + (hb + e)
  {
  }

  lemma SecondChannel(s: string, a: char, ha: string, b: char, hb: string, e: string)
    requires b !in s && a != b && !IsHex(b) && AllHex(ha) && AllHex(hb) && hb != ""
    requires e == "" || !IsHex(e[0])
    ensures Wiegand((s + [a] + ha) + [b] + (hb + e), b) == Some(Decimal(HexValue(hb)))
  {
    WiegandReads(s + [a] + ha, b, hb, e);
  }

  /** A text without the letters of the sensor words and of `OK` is a card or nothing. */
  lemma NoSensorWord(text: string)
    requires 'I' !in text && 'K' !in text
    ensures Classify(text)
         == if Wiegand(text, 'W').Some? then Card(Wiegand(text, 'W').value)
            else if Wiegand(text, 'X').Some? then Card(Wiegand(text, 'X').value)
            else Ignored
  {
    ContainedLetter(text, "IN1ON");
    ContainedLetter(text, "IN1OFF");
    ContainedLetter(text, "IN2ON");
    ContainedLetter(text, "IN3ON");
    ContainedLetter(text, "IN4ON");
    ContainedLetter(text, "IN4OFF");
    StrippedKeeps(text);
    EndingLetter(StripEnd(text), "OK");
  }

  lemma ContainedLetter(text: string, word: string)
    requires word != ""
    ensures Contains(text, word) ==> word[0] in text
  {
    if Contains(text, word) {
      var at: nat :| at <= |text| && StandsAt(text, word, at);
      assert at + |word| <= |text|;
      assert text[at..at + |word|][0] == text[at];
    }
  }

  lemma EndingLetter(text: string, word: string)
    requires word != ""
    ensures EndsWith(text, word) ==> word[|word| - 1] in text
  {
    if EndsWith(text, word) {
      assert text[|text| - |word|..][|word| - 1] == text[|text| - 1];
    }
  }

  lemma {:induction false} StrippedKeeps(text: string)
    ensures StripEnd(text) <= text
    decreases |text|
  {
    if text != "" && text[|text| - 1] == END_CHAR { StrippedKeeps(text[..|text| - 1]); }
  }

  predicate NoLetters(text: string) { 'I' !in text && 'K' !in text }

  lemma NoLettersConcat(a: string, b: string)
    requires NoLetters(a) && NoLetters(b)
    ensures NoLetters(a + b)
  {
  }

  lemma CardText(channel: char, hex: string)
    requires (channel == 'W' || channel == 'X') && AllHex(hex)
    ensures NoLetters([channel] + hex) && NoLetters([START as char]) && NoLetters([END_CHAR])
  {
  }

  /** A frame with one card number is that card on either channel, and of two numbers the one of the W
      channel counts, in either order. */
  lemma CardFrames(w: string, x: string)
    requires AllHex(w) && AllHex(x) && w != "" && x != ""
    ensures var (s, e) := ([START as char], [END_CHAR]);
      && Classify(s + "W" + w + e) == Card(Decimal(HexValue(w)))
      && Classify(s + "X" + x + e) == Card(Decimal(HexValue(x)))
      && Classify(s + "W" + w + "X" + x + e) == Card(Decimal(HexValue(w)))
      && Classify(s + "X" + x + "W" + w + e) == Card(Decimal(HexValue(w)))
  {
    OneNumber('W', w);
    OneNumber('X', x);
    TwoNumbers('W', w, 'X', x);
    TwoNumbers('X', x, 'W', w);
  }

  /** A card whose number is sent in hexadecimal is known by its decimal number. */
  lemma CardNumberRead(number: nat)
    ensures Classify([START as char] + "W" + Hexadecimal(number) + [END_CHAR]) == Card(Decimal(number))
    ensures Classify([START as char] + "X" + Hexadecimal(number) + [END_CHAR]) == Card(Decimal(number))
  {
    HexRoundTrip(number);
    OneNumber('W', Hexadecimal(number));
    OneNumber('X', Hexadecimal(number));
  }

  lemma OneNumber(channel: char, hex: string)
    requires (channel == 'W' || channel == 'X') && AllHex(hex) && hex != ""
    ensures Classify([START as char] + [channel] + hex + [END_CHAR]) == Card(Decimal(HexValue(hex)))
  {
    OneNumberRead(channel, hex);
    OneNumberText(channel, hex);
    NoSensorWord([START as char] + [channel] + hex + [END_CHAR]);
  }

  lemma OneNumberRead(channel: char, hex: string)
    requires (channel == 'W' || channel == 'X') && AllHex(hex) && hex != ""
    ensures var text := [START as char] + [channel] + hex + [END_CHAR];
      Wiegand(text, channel) == Some(Decimal(HexValue(hex))) && (channel == 'X' ==> Wiegand(text, 'W').None?)
  {
    var (s, e) := ([START as char], [END_CHAR]);
    WiegandReads(s, channel, hex, e);
    assert s + [channel] + hex + e == s + [channel] + (hex + e);
    if channel == 'X' { assert 'W' !in hex && 'W' !in s + [channel] + hex + e; }
  }

  lemma OneNumberText(channel: char, hex: string)
    requires (channel == 'W' || channel == 'X') && AllHex(hex)
    ensures NoLetters([START as char] + [channel] + hex + [END_CHAR])
  {
    var (s, e) := ([START as char], [END_CHAR]);
    CardText(channel, hex);
    NoLettersConcat(s, [channel] + hex);
    NoLettersConcat(s + ([channel] + hex), e);
    assert s + [channel] + hex + e == s + ([channel] + hex) + e;
  }

  lemma TwoNumbers(a: char, ha: string, b: char, hb: string)
    requires (a == 'W' && b == 'X') || (a == 'X' && b == 'W')
    requires AllHex(ha) && AllHex(hb) && ha != "" && hb != ""
    ensures Classify([START as char] + [a] + ha + [b] + hb + [END_CHAR])
         == Card(Decimal(HexValue(if a == 'W' then ha else hb)))
  {
    OrderedChannels(a, ha, b, hb);
    TwoNumbersText(a, ha, b, hb);
    NoSensorWord([START as char] + [a] + ha + [b] + hb + [END_CHAR]);
  }

  lemma TwoNumbersText(a: char, ha: string, b: char, hb: string)
    requires (a == 'W' && b == 'X') || (a == 'X' && b == 'W')
    requires AllHex(ha) && AllHex(hb)
    ensures NoLetters([START as char] + [a] + ha + [b] + hb + [END_CHAR])
  {
    var (s, e) := ([START as char], [END_CHAR]);
    CardText(a, ha);
    CardText(b, hb);
    NoLettersConcat(s, [a] + ha);
    NoLettersConcat(s + ([a] + ha), [b] + hb);
    NoLettersConcat(s + ([a] + ha) + ([b] + hb), e);
    assert s + [a] + ha + [b] + hb + e == s + ([a] + ha) + ([b] + hb) + e;
  }

  /** A command on the wire, between its start and its end byte. */
  lemma CommandLayout(cmd: seq<Byte>)
    ensures BuildCommand(cmd) == [0xA6] + cmd + [0xA9]
  {
  }
}
