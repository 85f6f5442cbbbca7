/**
 * The Convai chat widget: configuration checks, the submit guard, the
 * streamed reply, and the audio path that collects WAV chunks, captures the
 * format from the first long chunk, and plays one gapless buffer per reply.
 * The module-level `audioChunks`, `wavHeader` and `currentAudioSource` and
 * the widget state are the fields of ConvaiWidget.
 */
module ConvaiChat {
  import opened Wrappers
  import opened Bytes
  import opened Text
  import opened Wav

  // ------------------------------------------------------------ configuration

  /** The data attributes read from the `.convai-container` element (None: attribute absent). */
  datatype Dataset = Dataset(
    characterId: Option<string>,
    serviceName: Option<string>,
    welcomeMessage: Option<string>,
    appSessionId: Option<string>)

  datatype Config = Config(characterId: string, serviceName: string, welcomeMessage: string, appSessionId: string)

  datatype ConfigError = NoContainer | CharacterIdNotConfigured | SessionIdNotConfigured

  const DefaultWelcome: string := "Welcome! How can I help you today?"
  const PlaceholderMarker: string := "YOUR_"

  /** `attribute || fallback`: an absent or empty attribute falls back. */
  function Or(attribute: Option<string>, fallback: string): (r: string)
    ensures r == fallback || (attribute.Some? && r == attribute.value)
    ensures r == fallback <== attribute.None? || attribute.value == ""
  {
    if attribute.Some? && attribute.value != "" then attribute.value else fallback
  }

  /** An attribute that is present and not empty (truthy). */
  predicate Given(attribute: Option<string>)
  {
    attribute.Some? && attribute.value != ""
  }

  /**
   * Reads and checks the widget configuration: no container, a missing or
   * placeholder (`YOUR_...`) character id, or a missing session id each
   * refuse; the service name defaults to 'default' and the welcome message
   * to the built-in one.
   */
  function LoadConfiguration(container: Option<Dataset>): (r: Result<Config, ConfigError>)
    ensures r.Ok? <==> container.Some? && Given(container.value.characterId)
                       && !Includes(container.value.characterId.value, PlaceholderMarker)
                       && Given(container.value.appSessionId)
    ensures r.Ok? ==> r.value.characterId == container.value.characterId.value
                      && r.value.appSessionId == container.value.appSessionId.value
                      && r.value.serviceName != "" && r.value.welcomeMessage != ""
    ensures r == Err(NoContainer) <==> container.None?
    ensures r == Err(SessionIdNotConfigured) ==> Given(container.value.characterId)
  {
    if container.None? then Err(NoContainer)
    else
      var d := container.value;
      var characterId := Or(d.characterId, "");
      var appSessionId := Or(d.appSessionId, "");
      if characterId == "" || Includes(characterId, PlaceholderMarker) then Err(CharacterIdNotConfigured)
      else if appSessionId == "" then Err(SessionIdNotConfigured)
      else Ok(Config(characterId, Or(d.serviceName, "default"), Or(d.welcomeMessage, DefaultWelcome), appSessionId))
  }

  // ------------------------------------------------------------ audio values

  /** A playback handle (an AudioBufferSourceNode); handles are numbered in order of creation. */
  type Source = nat

  /** The buffer handed to playback: the channel samples and the sample rate. */
  datatype PlayableAudio = PlayableAudio(channels: seq<seq<int>>, sampleRate: nat)

  /** What a processing step did. */
  datatype Outcome = NoChunks | NoHeader | Failed | Played(audio: PlayableAudio)

  /** `atob` decodes to a binary string whose characters are all below 256. */
  predicate IsBinaryString(s: string)
  {
    forall i :: 0 <= i < |s| ==> s[i] as int < 256
  }

  /** The bytes of a binary string: one per character, its code. */
  function BinaryBytes(binary: string): (bytes: seq<Byte>)
    requires IsBinaryString(binary)
  {
    seq(|binary|, i requires 0 <= i < |binary| => binary[i] as int)
  }

  /** The chunk list after a decoded chunk is stored; a chunk whose decoding threw is not stored. */
  function AppendDecoded(chunks: seq<seq<Byte>>, decoded: Option<string>): seq<seq<Byte>>
    requires decoded.Some? ==> IsBinaryString(decoded.value)
  {
    if decoded.Some? then chunks + [BinaryBytes(decoded.value)] else chunks
  }

  /** The byte-copy loop: `bytes[i] = binary.charCodeAt(i)`. */
  method BinaryToBytes(binary: string) returns (bytes: seq<Byte>)
    requires IsBinaryString(binary)
    ensures |bytes| == |binary|
    ensures forall i :: 0 <= i < |bytes| ==> bytes[i] == binary[i] as int
    ensures bytes == BinaryBytes(binary)
  {
    var a := new Byte[|binary|];
    for i := 0 to |binary|
      invariant forall j :: 0 <= j < i ==> a[j] == binary[j] as int
    {
      a[i] := binary[i] as int;
    }
    return a[..];
  }

  /** The header captured from a chunk sequence: parsed from the first chunk longer than 44 bytes. */
  function FirstHeader(chunks: seq<seq<Byte>>): (r: Option<WavHeader>)
  {
    if chunks == [] then None
    else if |chunks[0]| > HeaderSize then Some(ParseWavHeader(chunks[0]))
    else FirstHeader(chunks[1..])
  }

  /**
   * A header is captured exactly when some chunk is longer than 44 bytes, and
   * it is the one parsed from the first such chunk.
   */
  lemma {:induction false} FirstHeaderIsFirstLong(chunks: seq<seq<Byte>>)
    ensures FirstHeader(chunks).None? <==> forall i :: 0 <= i < |chunks| ==> |chunks[i]| <= HeaderSize
    ensures FirstHeader(chunks).Some? ==>
              exists i :: 0 <= i < |chunks| && |chunks[i]| > HeaderSize
                          && FirstHeader(chunks).value == ParseWavHeader(chunks[i])
                          && forall j :: 0 <= j < i ==> |chunks[j]| <= HeaderSize
  {
    if chunks != [] && |chunks[0]| <= HeaderSize {
      var rest := chunks[1..];
      FirstHeaderIsFirstLong(rest);
      if FirstHeader(rest).Some? {
        var i :| 0 <= i < |rest| && |rest[i]| > HeaderSize
                 && FirstHeader(rest).value == ParseWavHeader(rest[i])
                 && forall j :: 0 <= j < i ==> |rest[j]| <= HeaderSize;
        assert chunks[i + 1] == rest[i];
        forall j | 0 <= j < i + 1 ensures |chunks[j]| <= HeaderSize {
          if j > 0 { assert chunks[j] == rest[j - 1]; }
        }
      } else {
        forall i | 0 <= i < |chunks| ensures |chunks[i]| <= HeaderSize {
          if i > 0 { assert chunks[i] == rest[i - 1]; }
        }
      }
    } else if chunks != [] {
      assert |chunks[0]| > HeaderSize;
    }
  }

  /**
   * Appending a chunk never changes a captured header; without one, the new
   * chunk supplies it exactly when it is longer than 44 bytes.
   */
  lemma {:induction false} FirstHeaderAppend(chunks: seq<seq<Byte>>, chunk: seq<Byte>)
    ensures FirstHeader(chunks + [chunk])
            == if FirstHeader(chunks).Some? then FirstHeader(chunks)
               else if |chunk| > HeaderSize then Some(ParseWavHeader(chunk))
               else None
  {
    if chunks != [] {
      assert (chunks + [chunk])[1..] == chunks[1..] + [chunk];
      FirstHeaderAppend(chunks[1..], chunk);
    } else {
      assert chunks + [chunk] == [chunk];
    }
  }

  /**
   * What processing the stored chunks does: nothing without chunks or without
   * a header; otherwise the payloads are assembled and decoded, and any
   * failure there is caught, so nothing plays.
   */
  function ProcessOutcome(chunks: seq<seq<Byte>>, header: Option<WavHeader>): (r: Outcome)
    ensures r == NoChunks <==> chunks == []
    ensures r == NoHeader <==> chunks != [] && header.None?
    ensures r.Played? ==> r.audio.sampleRate == header.value.sampleRate && |r.audio.channels| == header.value.numChannels
  {
    if chunks == [] then NoChunks
    else if header.None? then NoHeader
    else
      match AssembledPcm(chunks)
      case None => Failed
      case Some(pcm) =>
        match Decoded(pcm, header.value)
        case Err(_) => Failed
        case Ok(channels) => Played(PlayableAudio(channels, header.value.sampleRate))
  }

  /** Audio plays exactly when there are chunks, a header, every chunk is framed and decoding succeeds. */
  lemma PlaysIff(chunks: seq<seq<Byte>>, header: Option<WavHeader>)
    ensures ProcessOutcome(chunks, header).Played?
            <==> chunks != [] && header.Some? && AllFramed(chunks)
                 && Decoded(ConcatPayloads(chunks), header.value).Ok?
    ensures ProcessOutcome(chunks, header).Played? ==>
              ProcessOutcome(chunks, header).audio.sampleRate == header.value.sampleRate
              && |ProcessOutcome(chunks, header).audio.channels| == header.value.numChannels
  {
  }

  /** The chunk a producer sends: a canonical header followed by its part of the PCM. */
  function CanonicalChunk(numChannels: nat, sampleRate: nat, bitsPerSample: nat, part: seq<Byte>): (c: seq<Byte>)
    requires numChannels < 0x1_0000 && bitsPerSample < 0x1_0000 && sampleRate < 0x1_0000_0000
    ensures |c| == HeaderSize + |part| && c[HeaderSize..] == part
  {
    CanonicalHeader(numChannels, sampleRate, bitsPerSample, |part|) + part
  }

  /** Canonical 16-bit chunks, one of them carrying data, yield their header's format. */
  lemma CanonicalFirstHeader(numChannels: nat, sampleRate: nat, parts: seq<seq<Byte>>)
    requires numChannels < 0x1_0000 && sampleRate < 0x1_0000_0000
    requires exists k :: 0 <= k < |parts| && parts[k] != []
    ensures var chunks := seq(|parts|, k requires 0 <= k < |parts| => CanonicalChunk(numChannels, sampleRate, 16, parts[k]));
            FirstHeader(chunks) == Some(WavHeader(numChannels, sampleRate, 16, HeaderSize))
  {
    var chunks := seq(|parts|, k requires 0 <= k < |parts| => CanonicalChunk(numChannels, sampleRate, 16, parts[k]));
    var k :| 0 <= k < |parts| && parts[k] != [];
    assert |chunks[k]| > HeaderSize;
    FirstHeaderIsFirstLong(chunks);
    var i :| 0 <= i < |chunks| && |chunks[i]| > HeaderSize && FirstHeader(chunks).value == ParseWavHeader(chunks[i]);
    ParseCanonicalHeader(numChannels, sampleRate, 16, |parts[i]|, parts[i]);
  }

  /**
   * End to end: 16-bit channels encoded as interleaved PCM, split into parts
   * at arbitrary points (empty parts included), each sent behind a canonical
   * header, come out of processing as exactly those channels at that rate.
   */
  lemma StreamedChannelsPlayBack(channels: seq<seq<int>>, frames: nat, sampleRate: nat, parts: seq<seq<Byte>>)
    requires 0 < |channels| < 0x1_0000 && frames > 0 && 0 < sampleRate < 0x1_0000_0000
    requires forall k :: 0 <= k < |channels| ==> |channels[k]| == frames
    requires forall k, i :: 0 <= k < |channels| && 0 <= i < frames ==> -0x8000 <= channels[k][i] <= 0x7FFF
    requires Flatten(parts) == Pcm16(Interleave(channels, frames))
    ensures var chunks := seq(|parts|, k requires 0 <= k < |parts| => CanonicalChunk(|channels|, sampleRate, 16, parts[k]));
            ProcessOutcome(chunks, FirstHeader(chunks)) == Played(PlayableAudio(channels, sampleRate))
  {
    var chunks := seq(|parts|, k requires 0 <= k < |parts| => CanonicalChunk(|channels|, sampleRate, 16, parts[k]));
    var h := WavHeader(|channels|, sampleRate, 16, HeaderSize);
    EncodedLength(channels, frames);
    FlattenNonEmpty(parts);
    CanonicalFirstHeader(|channels|, sampleRate, parts);
    assert FramedParts(chunks, parts);
    AssembleFramedParts(chunks, parts);
    DecodeInterleaved16(channels, frames, sampleRate);
  }

  // ------------------------------------------------------------ the widget

  datatype Sender = User | Bot

  /** A chat bubble: who sent it and the text appendMessage was given. */
  datatype Message = Message(sender: Sender, text: string)

  /** What the streaming endpoint sends for one event. */
  datatype AudioField = NoAudio | Audio(decoded: Option<string>)  // decoded: the atob result, None if atob threw
  datatype StreamEvent =
    | EmptyEvent                                            // event.data is empty
    | Unparsable                                            // JSON.parse threw
    | Data(text: string, audio: AudioField, end: bool)

  /** The chunk list after an event's `audio` field is handled. */
  function StoredChunks(chunks: seq<seq<Byte>>, audio: AudioField): seq<seq<Byte>>
    requires audio.Audio? && audio.decoded.Some? ==> IsBinaryString(audio.decoded.value)
  {
    if audio.Audio? then AppendDecoded(chunks, audio.decoded) else chunks
  }

  const TypingCursor: string := "<span class=\"typing-cursor\"></span>"
  const FallbackReply: string := "An error occurred. Please try again."

  /** appendMessage's markup: the escaped text with newlines turned into `<br>`. */
  function MessageHtml(text: string): (html: string)
    ensures BracketsInBreaks(html)
  {
    BreaksOnlyBrackets(EscapeText(text));
    ReplaceChar(EscapeText(text), '\n', "<br>")
  }

  /** The set holding the current source, if any. */
  function SourceSet(s: Option<Source>): set<Source>
  {
    if s.Some? then {s.value} else {}
  }

  class ConvaiWidget {
    // audio state
    var audioChunks: seq<seq<Byte>>
    var wavHeader: Option<WavHeader>
    var currentSource: Option<Source>
    // the audio context: every buffer started (source k plays played[k]) and the sources still sounding
    var played: seq<PlayableAudio>
    var playing: set<Source>
    // chat state
    var isProcessing: bool
    var input: string
    var transcript: seq<Message>
    var reply: Content
    var fullText: string
    var streamOpen: bool

    /** The header is the one captured from the stored chunks; every handle was created. */
    ghost predicate Valid()
      reads this
    {
      wavHeader == FirstHeader(audioChunks)
      && (forall s :: s in playing ==> s < |played|)
      && (currentSource.Some? ==> currentSource.value < |played|)
    }

    /** Nothing sounds except the current source: at most one buffer is audible. */
    predicate Exclusive()
      reads this
    {
      playing <= SourceSet(currentSource)
    }

    constructor ()
      ensures Valid() && Exclusive()
      ensures audioChunks == [] && wavHeader.None? && currentSource.None? && played == [] && playing == {}
      ensures !isProcessing && input == "" && transcript == [] && !streamOpen
    {
      audioChunks, wavHeader, currentSource := [], None, None;
      played, playing := [], {};
      isProcessing, input, transcript := false, "", [];
      reply, fullText, streamOpen := PlainText(""), "", false;
    }

    /**
     * handleAudioChunk: a chunk that decoded is appended after all earlier
     * ones and, while no header is held, a chunk longer than 44 bytes
     * supplies it; a chunk whose base64 decoding threw is dropped.
     */
    method HandleAudioChunk(decoded: Option<string>)
      requires Valid() && (decoded.Some? ==> IsBinaryString(decoded.value))
      modifies this`audioChunks, this`wavHeader
      ensures Valid()
      ensures audioChunks == AppendDecoded(old(audioChunks), decoded)
      ensures old(wavHeader).Some? || decoded.None? ==> wavHeader == old(wavHeader)
      ensures decoded.Some? && old(wavHeader).None? ==>
                wavHeader == if |decoded.value| > HeaderSize then Some(ParseWavHeader(BinaryBytes(decoded.value))) else None
    {
      if decoded.None? {
        return;  // atob threw; the error is logged and the chunk dropped
      }
      var bytes := BinaryToBytes(decoded.value);
      FirstHeaderAppend(audioChunks, bytes);
      audioChunks := audioChunks + [bytes];
      if wavHeader.None? && |bytes| > HeaderSize {
        wavHeader := Some(ParseWavHeader(bytes));
      }
    }

    /** stopAudio: stops the current source if any, and always clears the chunks and the header together. */
    method StopAudio()
      requires Valid()
      modifies this`audioChunks, this`wavHeader, this`currentSource, this`playing
      ensures Valid()
      ensures audioChunks == [] && wavHeader.None? && currentSource.None?
      ensures playing == old(playing) - SourceSet(old(currentSource))
      ensures old(Exclusive()) ==> playing == {}
    {
      if currentSource.Some? {
        playing := playing - {currentSource.value};  // stop(); a source that already ended ignores it
        currentSource := None;
      }
      audioChunks, wavHeader := [], None;
    }

    /** playAudioBuffer: stops what is playing, then starts a fresh source on the buffer and makes it current. */
    method PlayAudioBuffer(audio: PlayableAudio)
      requires Valid()
      modifies this`audioChunks, this`wavHeader, this`currentSource, this`playing, this`played
      ensures Valid()
      ensures played == old(played) + [audio] && currentSource == Some(|old(played)|)
      ensures playing == old(playing) - SourceSet(old(currentSource)) + {|old(played)|}
      ensures audioChunks == [] && wavHeader.None?
      ensures old(Exclusive()) ==> Exclusive() && playing == {|old(played)|}
    {
      StopAudio();
      var source := |played|;
      played := played + [audio];
      playing := playing + {source};
      currentSource := Some(source);
    }

    /**
     * The `ended` event of a source (natural end, or after stop()): the
     * source no longer sounds, and the current handle is cleared when it is
     * that source.
     */
    method SourceEnded(source: Source)
      requires Valid() && source < |played|
      modifies this`currentSource, this`playing
      ensures Valid()
      ensures playing == old(playing) - {source}
      ensures currentSource == if old(currentSource) == Some(source) then None else old(currentSource)
      ensures old(Exclusive()) ==> Exclusive()
    {
      playing := playing - {source};
      if currentSource == Some(source) {
        currentSource := None;
      }
    }

    /** The `onended` handler as written: clears the current handle whichever source ended. */
    method SourceEndedAsWritten(source: Source)
      requires Valid() && source < |played|
      modifies this`currentSource, this`playing
      ensures Valid()
      ensures playing == old(playing) - {source} && currentSource.None?
    {
      playing := playing - {source};
      currentSource := None;
    }

    /**
     * processAndPlayAudio: with no chunks or no header nothing happens;
     * otherwise the payloads are assembled and decoded and, if neither throws,
     * the buffer is played (which clears the chunks and the header).
     */
    method ProcessAndPlayAudio() returns (outcome: Outcome)
      requires Valid()
      modifies this`audioChunks, this`wavHeader, this`currentSource, this`playing, this`played
      ensures Valid()
      ensures outcome == ProcessOutcome(old(audioChunks), old(wavHeader))
      ensures !outcome.Played? ==> unchanged(this)
      ensures outcome.Played? ==>
                played == old(played) + [outcome.audio] && currentSource == Some(|old(played)|)
                && audioChunks == [] && wavHeader.None?
                && playing == old(playing) - SourceSet(old(currentSource)) + {|old(played)|}
      ensures old(Exclusive()) ==> Exclusive()
    {
      if audioChunks == [] {
        return NoChunks;
      }
      if wavHeader.None? {
        return NoHeader;
      }
      var header := wavHeader.value;
      var pcm := AssemblePcm(audioChunks);
      if pcm.None? {
        return Failed;
      }
      var decoded := DecodePcm(pcm.value, header);
      if decoded.Err? {
        return Failed;
      }
      var audio := PlayableAudio(decoded.value, header.sampleRate);
      PlayAudioBuffer(audio);
      return Played(audio);
    }

    /**
     * handleSubmit: an input that is blank after trimming, or a reply still
     * in progress, changes nothing; otherwise the input is cleared, the
     * message shown and sent.
     */
    method HandleSubmit()
      requires Valid()
      modifies this`input, this`isProcessing, this`transcript, this`reply, this`fullText, this`streamOpen
      modifies this`audioChunks, this`wavHeader, this`currentSource, this`playing
      ensures Valid()
      ensures Trim(old(input)) == "" || old(isProcessing) ==>
                input == old(input) && transcript == old(transcript) && isProcessing == old(isProcessing)
                && streamOpen == old(streamOpen) && reply == old(reply) && fullText == old(fullText)
                && audioChunks == old(audioChunks) && wavHeader == old(wavHeader)
                && currentSource == old(currentSource) && playing == old(playing) && played == old(played)
      ensures Trim(old(input)) != "" && !old(isProcessing) ==>
                input == "" && isProcessing && streamOpen
                && transcript == old(transcript) + [Message(User, Trim(old(input))), Message(Bot, "")]
                && audioChunks == [] && wavHeader.None? && currentSource.None?
                && reply == Markup(TypingCursor) && fullText == ""
                && playing == old(playing) - SourceSet(old(currentSource))
      ensures played == old(played)
      ensures old(Exclusive()) ==> Exclusive()
    {
      var message := Trim(input);
      if message == "" || isProcessing {
        return;
      }
      input := "";
      transcript := transcript + [Message(User, message)];
      ghost var shown := transcript;
      SendToConvai(message);
      assert transcript == shown + [Message(Bot, "")];
    }

    /**
     * sendToConvai: marks the widget busy, stops and clears earlier audio
     * before the stream opens, and shows an empty bot message with a typing
     * cursor. The request itself is not modelled.
     */
    method SendToConvai(message: string)
      requires Valid()
      modifies this`isProcessing, this`transcript, this`reply, this`fullText, this`streamOpen
      modifies this`audioChunks, this`wavHeader, this`currentSource, this`playing
      ensures Valid()
      ensures isProcessing && streamOpen && fullText == "" && reply == Markup(TypingCursor)
      ensures audioChunks == [] && wavHeader.None? && currentSource.None?
      ensures playing == old(playing) - SourceSet(old(currentSource))
      ensures transcript == old(transcript) + [Message(Bot, "")]
      ensures old(Exclusive()) ==> Exclusive()
    {
      isProcessing := true;
      StopAudio();
      transcript := transcript + [Message(Bot, "")];
      reply := Markup(TypingCursor);
      fullText := "";
      streamOpen := true;
    }

    /**
     * finalizeResponse: the widget is no longer busy, a reply with no text
     * shows the fallback message, and the collected audio is processed.
     */
    method FinalizeResponse() returns (outcome: Outcome)
      requires Valid()
      modifies this`isProcessing, this`reply
      modifies this`audioChunks, this`wavHeader, this`currentSource, this`playing, this`played
      ensures Valid()
      ensures !isProcessing
      ensures reply == if old(fullText) == "" then PlainText(FallbackReply) else old(reply)
      ensures outcome == ProcessOutcome(old(audioChunks), old(wavHeader))
      ensures !outcome.Played? ==>
                audioChunks == old(audioChunks) && wavHeader == old(wavHeader) && currentSource == old(currentSource)
                && playing == old(playing) && played == old(played)
      ensures outcome.Played? ==>
                played == old(played) + [outcome.audio] && currentSource == Some(|old(played)|)
                && audioChunks == [] && wavHeader.None?
                && playing == old(playing) - SourceSet(old(currentSource)) + {|old(played)|}
      ensures old(Exclusive()) ==> Exclusive()
    {
      isProcessing := false;
      if fullText == "" {
        reply := PlainText(FallbackReply);
      }
      outcome := ProcessAndPlayAudio();
    }

    /** The text and audio of one data message, before `end` is looked at. */
    method TakeData(text: string, audio: AudioField)
      requires Valid()
      requires audio.Audio? && audio.decoded.Some? ==> IsBinaryString(audio.decoded.value)
      modifies this
      ensures Valid()
      ensures fullText == old(fullText) + text
      ensures reply == if text != "" then PlainText(fullText) else old(reply)
      ensures audioChunks == StoredChunks(old(audioChunks), audio)
      ensures currentSource == old(currentSource) && playing == old(playing) && played == old(played)
      ensures streamOpen == old(streamOpen) && isProcessing == old(isProcessing)
      ensures transcript == old(transcript) && input == old(input)
    {
      if text != "" {
        fullText := fullText + text;
        reply := PlainText(fullText);
      }
      if audio.Audio? {
        HandleAudioChunk(audio.decoded);
      }
    }

    /**
     * One stream message: text is appended to the reply, audio goes to
     * handleAudioChunk, and `end` closes the stream and finalizes.
     */
    method OnStreamMessage(event: StreamEvent)
      requires Valid() && streamOpen
      requires event.Data? && event.audio.Audio? && event.audio.decoded.Some? ==> IsBinaryString(event.audio.decoded.value)
      modifies this
      ensures Valid()
      ensures !event.Data? ==> unchanged(this)
      ensures event.Data? ==> fullText == old(fullText) + event.text
      ensures event.Data? && event.text != "" ==> reply == PlainText(fullText)
      ensures event.Data? && event.text == "" ==>
                reply == if event.end && old(fullText) == "" then PlainText(FallbackReply) else old(reply)
      ensures event.Data? ==> streamOpen == !event.end && isProcessing == (old(isProcessing) && !event.end)
      ensures event.Data? ==> transcript == old(transcript) && input == old(input)
      ensures event.Data? ==>
                var chunks := StoredChunks(old(audioChunks), event.audio);
                var outcome := ProcessOutcome(chunks, FirstHeader(chunks));
                if !event.end || !outcome.Played? then
                  audioChunks == chunks && wavHeader == FirstHeader(chunks) && currentSource == old(currentSource)
                  && playing == old(playing) && played == old(played)
                else
                  played == old(played) + [outcome.audio] && currentSource == Some(|old(played)|)
                  && audioChunks == [] && wavHeader.None?
                  && playing == old(playing) - SourceSet(old(currentSource)) + {|old(played)|}
      ensures old(Exclusive()) ==> Exclusive()
    {
      if !event.Data? {
        return;  // empty data is skipped; a parse failure is logged
      }
      TakeData(event.text, event.audio);
      if event.end {
        streamOpen := false;
        var _ := FinalizeResponse();
      }
    }

    /** The stream's error event: the stream is closed and the reply finalized. */
    method OnStreamError() returns (outcome: Outcome)
      requires Valid() && streamOpen
      modifies this
      ensures Valid()
      ensures !streamOpen && !isProcessing
      ensures reply == if old(fullText) == "" then PlainText(FallbackReply) else old(reply)
      ensures fullText == old(fullText) && transcript == old(transcript) && input == old(input)
      ensures outcome == ProcessOutcome(old(audioChunks), old(wavHeader))
      ensures !outcome.Played? ==>
                audioChunks == old(audioChunks) && wavHeader == old(wavHeader) && currentSource == old(currentSource)
                && playing == old(playing) && played == old(played)
      ensures outcome.Played? ==>
                played == old(played) + [outcome.audio] && currentSource == Some(|old(played)|)
                && audioChunks == [] && wavHeader.None?
                && playing == old(playing) - SourceSet(old(currentSource)) + {|old(played)|}
      ensures old(Exclusive()) ==> Exclusive()
    {
      streamOpen := false;
      outcome := FinalizeResponse();
    }
  }

  /**
   * The stale `ended` event with the handler as written: after a second
   * buffer preempts the first, the first source's `ended` event clears the
   * handle of the second, so the next playback cannot stop it and two
   * buffers sound together.
   */
  method StaleEndedOverlap(a: PlayableAudio, b: PlayableAudio, c: PlayableAudio) returns (audible: nat)
    ensures audible == 2
  {
    var w := new ConvaiWidget();
    w.PlayAudioBuffer(a);
    w.PlayAudioBuffer(b);
    w.SourceEndedAsWritten(0);
    w.PlayAudioBuffer(c);
    assert w.playing == {1, 2};
    audible := |w.playing|;
  }

  /** The same events with the corrected handler: only the newest buffer sounds. */
  method StaleEndedIgnored(a: PlayableAudio, b: PlayableAudio, c: PlayableAudio) returns (audible: nat)
    ensures audible == 1
  {
    var w := new ConvaiWidget();
    w.PlayAudioBuffer(a);
    w.PlayAudioBuffer(b);
    w.SourceEnded(0);
    w.PlayAudioBuffer(c);
    assert w.playing == {2};
    audible := |w.playing|;
  }
}
