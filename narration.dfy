/** The two narration steps that the three app scripts share: which text is
    sent to speech synthesis, and which field of the synthesis reply is taken
    as the audio locator. */
module Narration {
  import opened PyValues

  /** What the scripts use of the agent's result `result_oa`: whether it is
      truthy, and the string taken from it (`str(result_oa.final_output)` in
      YouTubeResource_BF.py, `str(result_oa)` in YouTubeResource.py). */
  datatype AgentValue = AgentValue(truthy: bool, text: string)

  /** `str(...) if result_oa else user_prompt`. Reading `result_oa` when the
      statement that assigns it raised is a NameError; the topic is used only
      when the agent's result is bound but falsy. */
  function SpeechText(resultOa: Binding<AgentValue>, topic: string): (r: Result<string>)
    ensures r.Failure? <==> resultOa.Unbound?
    ensures r.Failure? ==> r.error == NameError
    ensures r.Success? ==> (r.value == topic <== !resultOa.value.truthy)
    ensures r.Success? ==> (r.value == resultOa.value.text <== resultOa.value.truthy)
  {
    match resultOa
    case Unbound => Failure(NameError)
    case Bound(v) => Success(if v.truthy then v.text else topic)
  }

  /** The branch the scripts take after picking the audio locator: play it, or
      show a failure message (which raises nothing). */
  datatype AudioShown = Playable(url: Json) | NoAudioUrl

  /** `audio_url = audio_result.get("audio_url") or audio_result.get("url")`
      followed by `if audio_url: ... else: ...`. Python's `or` yields the left
      operand when it is truthy and the right operand otherwise. */
  function ChooseAudio(audioResult: Json): (r: Result<AudioShown>)
    ensures r.Failure? <==> !audioResult.JObj?
    ensures r.Failure? ==> r.error == AttributeError
    ensures r == Success(NoAudioUrl) <==>
              audioResult.JObj? &&
              !Truthy(Lookup(audioResult.fields, "audio_url", JNull)) &&
              !Truthy(Lookup(audioResult.fields, "url", JNull))
    ensures r.Success? && r.value.Playable? ==>
              Truthy(r.value.url) &&
              if Truthy(Lookup(audioResult.fields, "audio_url", JNull))
              then r.value.url == audioResult.fields["audio_url"]
              else r.value.url == audioResult.fields["url"]
  {
    match audioResult
    case JObj(m) =>
      var audioUrl := if Truthy(Lookup(m, "audio_url", JNull)) then m["audio_url"] else Lookup(m, "url", JNull);
      Success(if Truthy(audioUrl) then Playable(audioUrl) else NoAudioUrl)
    case _ => Failure(AttributeError)
  }
}
