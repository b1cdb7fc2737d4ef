/**
 * The external collaborators of the AI services: the two vendors' SDK calls,
 * base64 encoding and `JSON.parse`. None of them is defined here; each is a
 * function-valued parameter, so every property proved about the services
 * holds for whatever those calls return.
 */
module Providers {
  import opened Options
  import opened Json
  import opened Http

  /** Why a service call threw: a rejected provider call, `JSON.parse` on bad text, or a call on a value that is not an array. */
  datatype Failure = ProviderError | ParseError | TypeError

  /** The settled value of an awaited call: its result, or the exception it threw. */
  datatype Outcome<+T> = Ok(value: T) | Fail(failure: Failure)

  /** One timed piece of text returned by the alternative transcription model. */
  datatype Chunk = Chunk(text: string)

  /** The external calls, already bound to the caller's API key. */
  datatype Services = Services(
    /** OpenAI `audio.transcriptions.create`: the transcript text. */
    whisper: FormEntry -> Outcome<string>,
    /** `Buffer.from(bytes).toString("base64")` of the uploaded audio. */
    base64: FormEntry -> string,
    /** Replicate `run` of the fast transcription model, given the audio as a data URI: its chunks. */
    chunkedWhisper: string -> Outcome<seq<Chunk>>,
    /** OpenAI `chat.completions.create` with the prompt: `choices[0]?.message?.content`. */
    chat: string -> Outcome<Option<string>>,
    /** Replicate `run` of the reasoning model with the prompt: its output pieces. */
    reasoner: string -> Outcome<seq<string>>,
    /** `JSON.parse`. */
    parse: Parser
  )

  /** `platform === "openai"`: every other value, a missing one included, selects Replicate. */
  predicate IsOpenAI(platform: Option<string>) {
    platform == Some("openai")
  }
}
