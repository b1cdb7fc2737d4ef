/**
 * `AITranscriptionService.transcribe`: the uploaded audio goes either to
 * OpenAI's transcription endpoint, whose text is returned as it is, or, as a
 * base64 data URI, to a Replicate model that returns timed chunks whose
 * texts are joined with single spaces.
 */
module TranscriptionService {
  import opened Options
  import opened Strings
  import opened Http
  import opened Providers

  /** The data URI header put before the base64 audio. */
  const AudioUriPrefix: string := "data:audio/mp3;base64,"

  /** The `audio` input of the Replicate call: the header followed by the encoded bytes, untouched. */
  function AudioDataUri(encoded: string): (uri: string)
    ensures |uri| == |AudioUriPrefix| + |encoded|
    ensures uri[..|AudioUriPrefix|] == AudioUriPrefix && uri[|AudioUriPrefix|..] == encoded
  {
    AudioUriPrefix + encoded
  }

  /** The data URI determines the encoded audio: different encodings give different URIs. */
  lemma AudioDataUriInjective(e1: string, e2: string)
    requires AudioDataUri(e1) == AudioDataUri(e2)
    ensures e1 == e2
  {
    assert e1 == AudioDataUri(e1)[|AudioUriPrefix|..];
  }

  /** `chunks.map((chunk) => chunk.text)`. */
  function ChunkTexts(chunks: seq<Chunk>): (r: seq<string>)
    ensures |r| == |chunks| && forall i | 0 <= i < |chunks| :: r[i] == chunks[i].text
  {
    seq(|chunks|, i requires 0 <= i < |chunks| => chunks[i].text)
  }

  /** `.join(" ")` of the chunk texts: the Replicate transcript. */
  function JoinChunks(chunks: seq<Chunk>): string {
    Join(" ", ChunkTexts(chunks))
  }

  /**
   * No chunk gives the empty transcript, one chunk gives its text unchanged,
   * and n chunks give their texts with n - 1 single spaces between them.
   */
  lemma JoinChunksShape(chunks: seq<Chunk>)
    ensures chunks == [] ==> JoinChunks(chunks) == ""
    ensures |chunks| == 1 ==> JoinChunks(chunks) == chunks[0].text
    ensures chunks != [] ==> |JoinChunks(chunks)| == TotalLength(ChunkTexts(chunks)) + |chunks| - 1
  {
    if chunks != [] {
      JoinLength(" ", ChunkTexts(chunks));
    }
  }

  /** Splitting the chunk list anywhere splits the transcript at one space, so the texts keep the model's order. */
  lemma JoinChunksAppend(xs: seq<Chunk>, ys: seq<Chunk>)
    requires xs != [] && ys != []
    ensures JoinChunks(xs + ys) == JoinChunks(xs) + " " + JoinChunks(ys)
  {
    assert ChunkTexts(xs + ys) == ChunkTexts(xs) + ChunkTexts(ys);
    JoinAppend(" ", ChunkTexts(xs), ChunkTexts(ys));
  }

  /** `transcribe(file, platform)`: the transcript, or the failure of the provider call. */
  function Transcribe(audio: FormEntry, platform: Option<string>, svc: Services): (o: Outcome<string>)
    ensures IsOpenAI(platform) ==> (o.Ok? <==> svc.whisper(audio).Ok?)
    ensures !IsOpenAI(platform) ==> (o.Ok? <==> svc.chunkedWhisper(AudioDataUri(svc.base64(audio))).Ok?)
    ensures o.Fail? ==> o.failure == ProviderError
  {
    if IsOpenAI(platform) then
      match svc.whisper(audio)
      case Ok(text) => Ok(text)
      case Fail(_) => Fail(ProviderError)
    else
      match svc.chunkedWhisper(AudioDataUri(svc.base64(audio)))
      case Ok(chunks) => Ok(JoinChunks(chunks))
      case Fail(_) => Fail(ProviderError)
  }

  /**
   * The platform selects exactly one provider: "openai" returns the Whisper
   * text verbatim and ignores the Replicate calls; every other value returns
   * the joined chunks of the Replicate call on the data URI and ignores
   * Whisper.
   */
  lemma TranscribeDispatch(audio: FormEntry, platform: Option<string>, svc: Services, other: Services)
    ensures IsOpenAI(platform) && other.whisper == svc.whisper ==>
      Transcribe(audio, platform, svc) == Transcribe(audio, platform, other)
    ensures IsOpenAI(platform) && svc.whisper(audio).Ok? ==>
      Transcribe(audio, platform, svc) == Ok(svc.whisper(audio).value)
    ensures !IsOpenAI(platform) && other.base64 == svc.base64 && other.chunkedWhisper == svc.chunkedWhisper ==>
      Transcribe(audio, platform, svc) == Transcribe(audio, platform, other)
    ensures !IsOpenAI(platform) && svc.chunkedWhisper(AudioDataUri(svc.base64(audio))).Ok? ==>
      Transcribe(audio, platform, svc) == Ok(JoinChunks(svc.chunkedWhisper(AudioDataUri(svc.base64(audio))).value))
  {
  }
}
