/** YouTubeResource_BF.py, text-to-audio section: the text sent to speech
    synthesis is cut to the provider's character limit, and the synthesis call
    is retried once with the alternative name of the voice parameter. */
module TextToAudio {
  import opened PyValues

  /** `max_chars = 2500`, the limit of the speech provider. */
  const MaxChars: nat := 2500
  /** What is appended to a text that was cut. */
  const Marker: string := "..."

  /** `if len(text) > max_chars: text = text[:max_chars] + "..."`. */
  function Truncate(text: string): (r: string)
    ensures |text| <= MaxChars ==> r == text
    ensures |text| > MaxChars ==>
              |r| == MaxChars + |Marker| && r[..MaxChars] == text[..MaxChars] && r[MaxChars..] == Marker
    ensures |r| <= MaxChars + |Marker|
  {
    if |text| > MaxChars then text[..MaxChars] + Marker else text
  }

  /** Cutting a text that was already cut changes nothing: the 2503 characters
      of a cut text are cut back to the same 2500 and the marker is appended
      again. */
  lemma TruncateIdempotent(text: string)
    ensures Truncate(Truncate(text)) == Truncate(text)
  {
    if |text| > MaxChars {
      var once := Truncate(text);
      assert once[..MaxChars] == text[..MaxChars];
    }
  }

  /** The speech endpoint and the voice ("Rachel") the section requests. */
  const Endpoint: string := "fal-ai/elevenlabs/tts/turbo-v2.5"
  const RachelVoice: string := "21m00Tcm4TlvDq8ikWAM"

  /** One `fal_client.subscribe(endpoint, arguments=..., with_logs=True)` call. */
  datatype SpeechRequest = SpeechRequest(endpoint: string, arguments: map<string, string>, withLogs: bool)

  /** The request naming the voice under `voiceKey`. */
  function VoiceRequest(text: string, voiceKey: string): SpeechRequest {
    SpeechRequest(Endpoint, map["text" := text, voiceKey := RachelVoice], true)
  }

  /** The calls made and the reply obtained (or the exception that escaped). */
  datatype Synthesis = Synthesis(requests: seq<SpeechRequest>, reply: Result<Json>)

  /** `try: subscribe(... "voice" ...) except: subscribe(... "voice_id" ...)`.
      `tts` is the speech service: `None` when the call raises. */
  function Synthesize(text: string, tts: SpeechRequest -> Option<Json>): (s: Synthesis)
    ensures 1 <= |s.requests| <= 2
    ensures s.requests[0] == VoiceRequest(text, "voice")
    ensures |s.requests| == 2 <==> tts(VoiceRequest(text, "voice")).None?
    ensures |s.requests| == 2 ==> s.requests[1] == VoiceRequest(text, "voice_id")
    ensures s.reply.Success? <==> tts(s.requests[|s.requests| - 1]).Some?
    ensures s.reply.Success? ==> s.reply.value == tts(s.requests[|s.requests| - 1]).value
    ensures s.reply.Failure? ==> s.reply.error == ServiceError
    ensures forall i :: 0 <= i < |s.requests| ==>
              "text" in s.requests[i].arguments && s.requests[i].arguments["text"] == text
  {
    var first := VoiceRequest(text, "voice");
    match tts(first)
    case Some(reply) => Synthesis([first], Success(reply))
    case None =>
      var second := VoiceRequest(text, "voice_id");
      match tts(second)
      case Some(reply) => Synthesis([first, second], Success(reply))
      case None => Synthesis([first, second], Failure(ServiceError))
  }
}
