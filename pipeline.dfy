/** YouTubeResource_BF.py, the "Generate Resources" run: four sections, each
    inside its own try/except, run one after the other. A section that raises
    reports its error and the next section still runs; the only coupling is
    through the variables `result_oa` and `chapter_summary_text`, which stay
    unbound when the statement that assigns them raised. */
module Pipeline {
  import opened PyValues
  import opened Narration
  import opened Topic
  import opened TextToAudio
  import opened VideoSearch

  /** `VideosSearch(search_query, limit=5)`. */
  datatype SearchRequest = SearchRequest(query: string, limit: nat)
  const SearchLimit: nat := 5

  /** `client.images.generate(model=..., prompt=..., n=1, size=...)`. */
  datatype ImageRequest = ImageRequest(model: string, prompt: string, n: nat, size: string)

  /** The third-party services, as the run sees them. `None` stands for a call
      that raises. */
  datatype Services = Services(
    agent: string -> Option<string>,                      // Runner.run(agent, user_prompt).final_output
    falKey: Option<string>,                               // os.getenv("FAL_KEY")
    tts: SpeechRequest -> Option<Json>,                   // fal_client.subscribe
    search: SearchRequest -> Option<map<string, Json>>,   // VideosSearch(...).result()
    imageClient: bool,                                    // OpenAI() constructs without raising
    image: ImageRequest -> Option<string>)                // images.generate(...).data[0].url

  datatype Stage = SummaryStage | AudioStage | SearchStage | ThumbnailStage

  /** What a section ends with: what it shows, or the exception its handler reports. */
  datatype Outcome =
    | SummaryShown(text: string)
    | AudioPlayable(url: Json)
    | AudioMissing                        // "Audio generation failed." (nothing raised)
    | Videos(videos: seq<VideoRecord>)
    | NoVideos                            // "No videos found for your search query."
    | ThumbnailShown(imageUrl: string)
    | Raised(error: PyError)

  /** A call a section made to a third-party service. */
  datatype Request = Speech(speech: SpeechRequest) | Search(search: SearchRequest) | Image(image: ImageRequest)

  datatype StageReport = StageReport(stage: Stage, outcome: Outcome, requests: seq<Request>)

  /** The state the summary section leaves behind. */
  datatype AfterSummary = AfterSummary(report: StageReport, resultOa: Binding<AgentValue>)

  /** The state the audio section leaves behind. */
  datatype AfterAudio = AfterAudio(report: StageReport, chapterText: Binding<string>)

  /** Section 1: `result_oa = Runner.run(agent, user_prompt)`. The run result
      is an object without a truth value of its own, so it is truthy. */
  function SummarySection(topic: string, svc: Services): (s: AfterSummary)
    ensures s.report.stage == SummaryStage && s.report.requests == []
    ensures s.resultOa.Bound? <==> svc.agent(topic).Some?
    ensures s.resultOa.Bound? ==>
              s.resultOa.value == AgentValue(true, svc.agent(topic).value) &&
              s.report.outcome == SummaryShown(svc.agent(topic).value)
    ensures s.resultOa.Unbound? ==> s.report.outcome == Raised(ServiceError)
  {
    match svc.agent(topic)
    case Some(text) => AfterSummary(StageReport(SummaryStage, SummaryShown(text), []), Bound(AgentValue(true, text)))
    case None => AfterSummary(StageReport(SummaryStage, Raised(ServiceError), []), Unbound)
  }

  /** The speech calls made, as requests of the run. */
  function SpeechRequests(rs: seq<SpeechRequest>): (r: seq<Request>)
    ensures |r| == |rs| && forall i :: 0 <= i < |rs| ==> r[i] == Speech(rs[i])
  {
    seq(|rs|, i requires 0 <= i < |rs| => Speech(rs[i]))
  }

  /** Section 2: the FAL_KEY check, the text fallback, the cut to 2500
      characters, the synthesis call with its one retry and the choice of the
      audio locator. `chapter_summary_text` is bound once the fallback line
      has run, whatever happens after it. */
  function AudioSection(topic: string, resultOa: Binding<AgentValue>, svc: Services): (s: AfterAudio)
    ensures s.report.stage == AudioStage
    ensures svc.falKey.None? || svc.falKey == Some("") ==>
              s.report.outcome == Raised(ValueError) && s.report.requests == [] && s.chapterText.Unbound?
    ensures s.chapterText.Bound? <==> !(svc.falKey.None? || svc.falKey == Some("")) && resultOa.Bound?
    ensures s.chapterText.Bound? ==>
              s.chapterText.value == Truncate(SpeechText(resultOa, topic).value) &&
              1 <= |s.report.requests| <= 2 &&
              forall i :: 0 <= i < |s.report.requests| ==>
                s.report.requests[i].Speech? &&
                "text" in s.report.requests[i].speech.arguments &&
                s.report.requests[i].speech.arguments["text"] == s.chapterText.value
    ensures s.chapterText.Unbound? ==> s.report.requests == [] && s.report.outcome.Raised?
    ensures !(svc.falKey.None? || svc.falKey == Some("")) && resultOa.Unbound? ==>
              s.report.outcome == Raised(NameError)
    // the calls in order ("voice", then "voice_id" only if the first raised) and
    // the branch taken on the last reply
    ensures s.chapterText.Bound? ==>
              var synthesis := Synthesize(s.chapterText.value, svc.tts);
              s.report.requests == SpeechRequests(synthesis.requests) &&
              (synthesis.reply.Failure? ==> s.report.outcome == Raised(ServiceError)) &&
              (synthesis.reply.Success? ==>
                 var chosen := ChooseAudio(synthesis.reply.value);
                 (chosen.Failure? ==> s.report.outcome == Raised(chosen.error)) &&
                 (chosen == Success(NoAudioUrl) ==> s.report.outcome == AudioMissing) &&
                 (chosen.Success? && chosen.value.Playable? ==> s.report.outcome == AudioPlayable(chosen.value.url)))
  {
    if svc.falKey.None? || svc.falKey == Some("") then
      AfterAudio(StageReport(AudioStage, Raised(ValueError), []), Unbound)
    else
      match SpeechText(resultOa, topic)
      case Failure(e) => AfterAudio(StageReport(AudioStage, Raised(e), []), Unbound)
      case Success(text) =>
        var spoken := Truncate(text);
        var synthesis := Synthesize(spoken, svc.tts);
        var requests := SpeechRequests(synthesis.requests);
        var outcome :=
          match synthesis.reply
          case Failure(e) => Raised(e)
          case Success(reply) =>
            match ChooseAudio(reply)
            case Failure(e) => Raised(e)
            case Success(Playable(url)) => AudioPlayable(url)
            case Success(NoAudioUrl) => AudioMissing;
        AfterAudio(StageReport(AudioStage, outcome, requests), Bound(spoken))
  }

  /** Section 3: `VideosSearch(user_prompt, limit=5).result()` and the
      normalisation of its records. Nothing of the earlier sections is read. */
  function SearchSection(topic: string, svc: Services): (r: StageReport)
    ensures r.stage == SearchStage && r.requests == [Search(SearchRequest(topic, SearchLimit))]
    ensures svc.search(SearchRequest(topic, SearchLimit)).None? ==> r.outcome == Raised(ServiceError)
    ensures svc.search(SearchRequest(topic, SearchLimit)).Some? ==>
              var o := SearchOutcomeOf(svc.search(SearchRequest(topic, SearchLimit)).value);
              (r.outcome == NoVideos <==> o.NoVideosFound?) &&
              (r.outcome.Videos? <==> o.VideosFound?) &&
              (o.VideosFound? ==> r.outcome.videos == o.videos) &&
              (o.SearchRaised? ==> r.outcome == Raised(o.error))
  {
    var request := SearchRequest(topic, SearchLimit);
    var outcome :=
      match svc.search(request)
      case None => Raised(ServiceError)
      case Some(results) =>
        match SearchOutcomeOf(results)
        case VideosFound(videos) => Videos(videos)
        case NoVideosFound => NoVideos
        case SearchRaised(e) => Raised(e);
    StageReport(SearchStage, outcome, [Search(request)])
  }

  /** The fixed parts of the thumbnail prompt, around the topic and the text. */
  const PromptHead: string := "Generate a Thumbnail image with the following: 1. Youtube icon in the cennter of the image, 2. Chapter name from  "
  const PromptMiddle: string := " on the top of the image and 3. Only 1 diagram reelevant to "
  const PromptTail: string := " on the lower part of the image "

  /** The thumbnail prompt: the topic and the narration text, each at a fixed
      place in the template. */
  function ThumbnailPrompt(topic: string, text: string): (p: string)
    ensures |p| == |PromptHead| + |topic| + |PromptMiddle| + |text| + |PromptTail|
    ensures p[|PromptHead|..|PromptHead| + |topic|] == topic
    ensures p[|PromptHead| + |topic| + |PromptMiddle|..|p| - |PromptTail|] == text
  {
    PromptHead + topic + PromptMiddle + text + PromptTail
  }

  /** Section 4: `client = OpenAI()`, then the prompt, which reads
      `chapter_summary_text`, then the image call. */
  function ThumbnailSection(topic: string, chapterText: Binding<string>, svc: Services): (r: StageReport)
    ensures r.stage == ThumbnailStage
    ensures svc.imageClient && chapterText.Unbound? ==> r.outcome == Raised(NameError) && r.requests == []
    ensures svc.imageClient && chapterText.Bound? ==>
              r.requests == [Image(ImageRequest("dall-e-3", ThumbnailPrompt(topic, chapterText.value), 1, "1024x1024"))]
    ensures r.outcome.ThumbnailShown? ==> svc.imageClient && chapterText.Bound?
    ensures !svc.imageClient ==> r.outcome == Raised(ServiceError) && r.requests == []
    ensures svc.imageClient && chapterText.Bound? ==>
              var request := ImageRequest("dall-e-3", ThumbnailPrompt(topic, chapterText.value), 1, "1024x1024");
              (svc.image(request).None? ==> r.outcome == Raised(ServiceError)) &&
              (svc.image(request).Some? ==> r.outcome == ThumbnailShown(svc.image(request).value))
  {
    if !svc.imageClient then StageReport(ThumbnailStage, Raised(ServiceError), [])
    else
      match chapterText
      case Unbound => StageReport(ThumbnailStage, Raised(NameError), [])
      case Bound(text) =>
        var request := ImageRequest("dall-e-3", ThumbnailPrompt(topic, text), 1, "1024x1024");
        match svc.image(request)
        case None => StageReport(ThumbnailStage, Raised(ServiceError), [Image(request)])
        case Some(url) => StageReport(ThumbnailStage, ThumbnailShown(url), [Image(request)])
  }

  /** The button handler: the four sections in order, each one run whatever
      the earlier ones did. */
  method Generate(sel: Selection, svc: Services) returns (reports: seq<StageReport>)
    ensures |reports| == 4
    ensures reports[0].stage == SummaryStage && reports[1].stage == AudioStage
    ensures reports[2].stage == SearchStage && reports[3].stage == ThumbnailStage
    ensures reports[0] == SummarySection(TopicOf(sel), svc).report
    ensures reports[1] == AudioSection(TopicOf(sel), SummarySection(TopicOf(sel), svc).resultOa, svc).report
    ensures reports[2] == SearchSection(TopicOf(sel), svc)
    ensures reports[3] ==
              ThumbnailSection(TopicOf(sel), AudioSection(TopicOf(sel), SummarySection(TopicOf(sel), svc).resultOa, svc).chapterText, svc)
  {
    var userPrompt := TopicOf(sel);
    reports := [];

    var summary := SummarySection(userPrompt, svc);
    var resultOa := summary.resultOa;
    reports := reports + [summary.report];

    var audio := AudioSection(userPrompt, resultOa, svc);
    var chapterSummaryText := audio.chapterText;
    reports := reports + [audio.report];

    var searchReply := svc.search(SearchRequest(userPrompt, SearchLimit));
    var searchOutcome: Outcome;
    match searchReply {
      case None => searchOutcome := Raised(ServiceError);
      case Some(results) =>
        var found := CollectVideos(results);
        match found {
          case VideosFound(videos) => searchOutcome := Videos(videos);
          case NoVideosFound => searchOutcome := NoVideos;
          case SearchRaised(e) => searchOutcome := Raised(e);
        }
    }
    reports := reports + [StageReport(SearchStage, searchOutcome, [Search(SearchRequest(userPrompt, SearchLimit))])];

    reports := reports + [ThumbnailSection(userPrompt, chapterSummaryText, svc)];
  }

  /** A failing summary section leaves `result_oa` unbound, so the fallback
      line of the audio section raises NameError instead of narrating the
      topic, no speech call is made, and (when the image client constructs)
      the thumbnail section raises NameError too. */
  lemma SummaryFailureSkipsFallback(topic: string, svc: Services)
    requires svc.agent(topic).None?
    requires svc.falKey.Some? && svc.falKey.value != ""
    ensures var audio := AudioSection(topic, SummarySection(topic, svc).resultOa, svc);
            audio.report.outcome == Raised(NameError) && audio.report.requests == [] &&
            (svc.imageClient ==> ThumbnailSection(topic, audio.chapterText, svc).outcome == Raised(NameError))
  {
  }

  /** In this script the topic is never narrated: whenever a speech call is
      made, its text is the agent's summary, cut to the limit. */
  lemma NarrationIsAgentSummary(topic: string, svc: Services)
    ensures var audio := AudioSection(topic, SummarySection(topic, svc).resultOa, svc);
            forall i :: 0 <= i < |audio.report.requests| ==>
              svc.agent(topic).Some? &&
              audio.report.requests[i].speech.arguments["text"] == Truncate(svc.agent(topic).value)
  {
  }

  /** A missing FAL_KEY stops the audio section before any speech call, and
      because `chapter_summary_text` is then never bound, the thumbnail
      section raises NameError as soon as the image client exists. */
  lemma MissingFalKeyBreaksThumbnail(topic: string, resultOa: Binding<AgentValue>, svc: Services)
    requires svc.falKey.None? || svc.falKey == Some("")
    requires svc.imageClient
    ensures var audio := AudioSection(topic, resultOa, svc);
            audio.report.outcome == Raised(ValueError) && audio.report.requests == [] &&
            ThumbnailSection(topic, audio.chapterText, svc).outcome == Raised(NameError)
  {
  }

  /** The thumbnail prompt carries the cut narration text, never the whole
      summary: its length is bounded whatever the agent returns. */
  lemma ThumbnailPromptBounded(topic: string, svc: Services)
    requires svc.imageClient
    ensures var audio := AudioSection(topic, SummarySection(topic, svc).resultOa, svc);
            var thumb := ThumbnailSection(topic, audio.chapterText, svc);
            forall i :: 0 <= i < |thumb.requests| ==>
              thumb.requests[i].Image? &&
              |thumb.requests[i].image.prompt| <=
                |PromptHead| + |topic| + |PromptMiddle| + MaxChars + |Marker| + |PromptTail|
  {
  }
}
