# YouTube Resource Generator — a Dafny model of its deterministic core

The YouTube Resource Generator is a Streamlit app. From a topic such as
"NCERT Class 10 Science Chapter 1" it asks a language-model agent for a
chapter summary, narrates that summary through a speech-synthesis service,
lists competitor videos from a YouTube search, and asks an image service for
a thumbnail. Almost all of its work is done by third-party services. This
project models the deterministic glue between those services and proves what
that glue guarantees:

- **Topic** (`topic.dfy`): the canonical topic string built from the class,
  subject and chapter inputs, and a parser that inverts it for every choice
  the two select boxes offer.
- **TextToAudio** (`text_to_audio.dfy`):
  - the cut of the narration text to 2500 characters plus `"..."`;
  - the speech call made with the `voice` parameter, retried exactly once
    with `voice_id`.
- **VideoSearch** (`video_search.dfy`): the normalisation of loosely-typed
  search records into fixed eight-field video records with sentinel defaults.
  The loop that appends them is a method, proved equal to a specification
  function.
- **Narration** (`narration.dfy`): two steps shared by the scripts.
  - The narration-text fallback (`... if result_oa else user_prompt`).
  - The audio-locator choice (`audio_url` or else `url`). All three scripts
    use this same expression: YouTubeResource_BF.py:101-107,
    streamlit_app.py:80-85 and YouTubeResource.py:80-85.
- **ComposioFilter, StreamlitApp, ResourceApp** (`composio_filter.dfy`,
  `streamlit_app.dfy`, `youtube_resource.dfy`): the two variants of the
  Composio post-processor `filter_youtube_results`.
  - streamlit_app.py reads each message leniently with `.get`.
  - YouTubeResource.py reads each message strictly, through a chain of
    subscripts.
  - Both share the guard that returns an unusable tool result unchanged, and
    the `{successful, data: {summary}, error}` envelope.
- **Pipeline** (`pipeline.dfy`): the "Generate Resources" run of
  YouTubeResource_BF.py. It is four sections (summary, audio, search,
  thumbnail), each inside its own try/except. A section that raises reports
  the error, and the next section still runs.

Python values are modelled in `py_values.dfy`:

- A `Json` datatype (None, bool, int, str, list, dict).
- Python truthiness, `dict.get` (an AttributeError on anything but a dict),
  subscripting (KeyError, TypeError, IndexError) and `len`.
- Exceptions as a `Result` carrying the exception's kind.
- A variable that may be unassigned as a `Binding`, so that reading it raises
  NameError.
- Python's "append in a loop, the first exception escapes", as `MapInOrder`.

The third-party services are parameters of the run (the `Services`
datatype). The agent, speech, search and image calls are functions that
return a value, or `None` when the call raises.

Where the pipeline's design intent and the code of YouTubeResource_BF.py
differ, the model follows the code:

- **Topic fallback.** The intent is that a failed summary degrades later
  stages to the topic text. In the code, `result_oa` is then unbound, and the
  fallback line raises NameError (`Pipeline.SummaryFailureSkipsFallback`).
  When `result_oa` is bound it is a run-result object, which is always
  truthy. So the topic is never narrated (`Pipeline.NarrationIsAgentSummary`).
- **Missing speech credential.** The intent is that a missing speech
  credential affects only narration. In the code, the thumbnail section then
  raises NameError on `chapter_summary_text` (`Pipeline.MissingFalKeyBreaksThumbnail`).
- **Thumbnail prompt text.** The intent is that the thumbnail prompt carries
  the full summary. In the code it carries the text already cut to
  2500 characters (`Pipeline.ThumbnailPromptBounded`).

In YouTubeResource.py, `Runner.run(agent, user_prompt)` is not awaited, so
`result_oa` is a coroutine object: it is truthy, and `str(result_oa)` is its
repr. `Narration.AgentValue` abstracts this as a truth value and a string,
which covers both scripts.

## Model

| member | source | states |
|---|---|---|
| `PyValues.MapInOrderAt` | YouTubeResource_BF.py:132-144 | a loop that appends one result per element yields exactly one entry per element, at the element's own position, and completes iff no element raises |
| `PyValues.MapInOrderFirstFailure` | YouTubeResource.py:40-45 | the exception that escapes the appending loop is the one of the first element that raises; no partial list is returned |
| `Narration.SpeechText` | YouTubeResource.py:71 | the narration text is the agent's text when `result_oa` is truthy, the topic when it is falsy, and a NameError when `result_oa` was never bound |
| `Narration.ChooseAudio` | YouTubeResource_BF.py:101-107 | the locator is `audio_url` when that is truthy, else `url`; the failure branch is taken without raising exactly when neither is truthy; a reply that is not a dict raises AttributeError |
| `ComposioFilter.Guard` | streamlit_app.py:37-41 | a falsy `successful` or a missing `data` hands the result back; so does a `messages` value that is not a list; a missing `messages` proceeds with no messages; a `data` that is not a dict raises AttributeError |
| `StreamlitApp.Filtered` | streamlit_app.py:36-53 | guarded results are returned unchanged; otherwise the result is the processed envelope with one summary entry per message, and the filter raises iff `data` or some message is not a dict |
| `StreamlitApp.FilterYoutubeResults` | streamlit_app.py:42-47 | the appending loop computes exactly `Filtered` |
| `StreamlitApp.SummaryPerMessage` | streamlit_app.py:43-52 | each summary entry is the message's `title` and `description` only, each defaulting to `""`, in message order, inside `{successful: True, data: {summary}, error: None}` |
| `ResourceApp.Filtered` | YouTubeResource.py:34-51 | guarded results are returned unchanged; otherwise the processed envelope with one entry per message; the filter raises iff `data` is not a dict or some message's `data.response_data.items.snippet.title`/`.description` subscript chain fails (KeyError for a missing key, TypeError for a link that is not a dict, such as a list under `items`) |
| `ResourceApp.FilterYoutubeResults` | YouTubeResource.py:40-45 | the appending loop computes exactly `Filtered` |
| `ResourceApp.SummaryFromSnippets` | YouTubeResource.py:42-50 | each summary entry holds the snippet's title and description, in message order |
| `ResourceApp.FirstMissingKeyAborts` | YouTubeResource.py:43-44 | the first message whose subscript chain fails (KeyError or TypeError) aborts the whole filter with that exception; no partial summary is returned |
| `ResourceApp.StrictRefinesLenient` | YouTubeResource.py:34-51 | both variants hand back the same guarded inputs, and whenever the strict variant summarises, the lenient one does too, with as many entries |
| `Topic.TopicOf` | YouTubeResource_BF.py:29 | the topic starts with `"NCERT " + class + " "`, ends with the chapter, and has the length of the template plus its three parts |
| `Topic.ParseTopic` | YouTubeResource_BF.py:26-29 | any selection read back from a string has select-box options and rebuilds exactly that string |
| `Topic.ParseTopicInverts` | YouTubeResource_BF.py:26-29 | every topic built from the select-box options parses back to its selection, so the topic string identifies the selection |
| `TextToAudio.Truncate` | YouTubeResource_BF.py:68-71 | text of at most 2500 characters is unchanged; longer text becomes its first 2500 characters followed by `"..."` (2503 characters) |
| `TextToAudio.TruncateIdempotent` | YouTubeResource_BF.py:68-71 | cutting twice gives the same text as cutting once |
| `TextToAudio.Synthesize` | YouTubeResource_BF.py:77-97 | the first call names the voice under `voice`; exactly one more call, under `voice_id`, is made iff the first raises; the reply is that of the last call, and a second failure propagates; every call sends the given text |
| `VideoSearch.ThumbnailOf` | YouTubeResource_BF.py:143 | the thumbnail is the first thumbnail's `url` when `thumbnails` is truthy (`""` when that element has no `url`), `""` when it is falsy or absent; it raises iff a truthy `thumbnails` is not a list whose first element is a dict |
| `VideoSearch.NormaliseVideo` | YouTubeResource_BF.py:135-143 | each of the seven plain or nested fields is copied when present and takes its default when missing (`No title`, `''`, `Unknown`, `Unknown channel`, `Unknown views`, `Unknown`, `Unknown description`); the thumbnail is the one `ThumbnailOf` derives (`''` when `thumbnails` is missing); the record raises iff the video, its `channel` or its `viewCount` is not a dict, or its thumbnail cannot be read |
| `VideoSearch.SearchOutcomeOf` | YouTubeResource_BF.py:133-144 | the "no videos" branch is taken iff `result` is missing or empty; otherwise there is one record per element, in order; a list of well-formed records never takes the error branch |
| `VideoSearch.StringResultRaises` | YouTubeResource_BF.py:133-134 | a non-empty string under `result` is iterated character by character and the first character raises AttributeError |
| `VideoSearch.CollectVideos` | YouTubeResource_BF.py:132-144 | the appending loop computes exactly `SearchOutcomeOf` |
| `Pipeline.SummarySection` | YouTubeResource_BF.py:35-50 | `result_oa` is bound, to a truthy value holding the agent's text, iff the agent call succeeds; otherwise the section reports the exception |
| `Pipeline.AudioSection` | YouTubeResource_BF.py:53-110 | a missing or empty FAL_KEY raises ValueError before any call, and an unbound `result_oa` raises NameError; otherwise `chapter_summary_text` holds the cut narration text, the calls are those of `Synthesize` in order (`voice`, then `voice_id` only after a failure), a second failure is reported as the section's error, and the reply decides playable audio, the non-raising failure message, or AttributeError as `ChooseAudio` picks |
| `Pipeline.SearchSection` | YouTubeResource_BF.py:119-170 | the search is called once with the topic and limit 5; the section shows the videos, the "no videos" warning, or reports the normalisation's exception exactly as `SearchOutcomeOf` decides, or the exception of the call; nothing of the earlier sections is read |
| `Pipeline.ThumbnailPrompt` | YouTubeResource_BF.py:179 | the prompt holds the topic and the text, each at its fixed place in the template |
| `Pipeline.ThumbnailSection` | YouTubeResource_BF.py:174-189 | a client that cannot be constructed raises before any call; with a client and no `chapter_summary_text` the section raises NameError before any call; otherwise one `dall-e-3` 1024x1024 request carrying the prompt is made, and the section shows the returned locator or reports the call's exception |
| `Pipeline.Generate` | YouTubeResource_BF.py:34-189 | the four sections always all run, in order, each reporting its own outcome, coupled only through `result_oa` and `chapter_summary_text` |
| `Pipeline.SummaryFailureSkipsFallback` | YouTubeResource_BF.py:45-65 | a failed summary makes the narration fallback raise NameError instead of using the topic, no speech call is made, and the thumbnail section raises NameError too |
| `Pipeline.NarrationIsAgentSummary` | YouTubeResource_BF.py:65-71 | every speech call carries the agent's summary cut to the limit; the topic is never narrated |
| `Pipeline.MissingFalKeyBreaksThumbnail` | YouTubeResource_BF.py:56-179 | a missing FAL_KEY stops narration before any call and leaves `chapter_summary_text` unbound, so the thumbnail section raises NameError |
| `Pipeline.ThumbnailPromptBounded` | YouTubeResource_BF.py:68-179 | every thumbnail prompt is at most the template plus the topic plus 2503 characters long |

## Left out

- Streamlit presentation (`st.*`: titles, spinners, expanders, buttons, images, audio players, the traceback display): display calls are assumed not to raise, and a section's outcome is modelled as what it would show. One of them can raise: `st.image(video['thumbnail'])` at YouTubeResource_BF.py:152-153 sits inside the search section's try-block and fails on a truthy thumbnail it cannot display (a non-string, or a string that is neither a URL nor a file); the code then reports the section's error where the model reports the videos.
- The language-model agents (`Runner.run`, CrewAI `Crew.kickoff`, LangChain `AgentExecutor`, `hub.pull`): opaque text from a foreign service; the BF run takes the agent as a function returning the summary or failing.
- The network clients (`fal_client.subscribe`, `OpenAI().images.generate`, `VideosSearch(...).result()`, `ComposioToolSet.get_tools`): their replies are inputs; `img.data[0].url` is folded into the image service returning a locator or raising.
- The whole top-level flow of streamlit_app.py and YouTubeResource.py (which has no try/except at all): only the functions named above are modelled from those two files.
- The assignment `os.environ["OPENAI_API_KEY"] = os.getenv(...)` in YouTubeResource_BF.py:37, which raises when the key is unset: it is folded into the agent call failing.
- Environment variables, `.env`, `st.secrets`, `asyncio`/`nest_asyncio`, the unused async helper of YouTubeResource.py and the `pysqlite3` swap: configuration and plumbing; only the FAL_KEY check is modelled, as an input.
- The quiz and PDF stage: it appears in none of these source files.
- Exception messages: only the kind of exception is modelled, not its text.
- JSON floats: numbers are integers; a float under `successful`, `audio_url`, `url` or `thumbnails` would be judged by its own truthiness, which the model does not represent.
- Strings are sequences of characters, each standing for one Python code point; the 2500-character cut therefore counts code points, as Python's `len` does.
- Dict key order: Dafny maps are unordered, so the order of keys inside the records and envelopes built here is not modelled; iterating a non-empty dict under `result` raises on whichever key comes first, and that is all the model states about it.
