/** YouTubeResource.py: the strict Composio post-processor, which reads each
    message's title and description through a fixed chain of subscripts and
    so fails on the first message that lacks any key on that chain. (Its text
    fallback is Narration.SpeechText, its audio-locator choice
    Narration.ChooseAudio.) */
module ResourceApp {
  import opened PyValues
  import opened ComposioFilter
  import StreamlitApp

  /** `message["data"]["response_data"]["items"]["snippet"]`. */
  const SnippetPath: seq<string> := ["data", "response_data", "items", "snippet"]

  /** One message of the loop body: the title chain is evaluated before the
      description chain. */
  function StrictEntry(message: Json): Result<Json> {
    match Path(message, SnippetPath + ["title"])
    case Failure(e) => Failure(e)
    case Success(title) =>
      match Path(message, SnippetPath + ["description"])
      case Failure(e) => Failure(e)
      case Success(description) => Success(Entry(title, description))
  }

  /** What `filter_youtube_results` returns, or the exception it raises. */
  function Filtered(result: map<string, Json>): (r: Result<map<string, Json>>)
    ensures Guard(result).PassThrough? ==> r == Success(result)
    ensures r.Failure? <==>
              Guard(result).GuardRaised? ||
              (Guard(result).Proceed? && exists i :: 0 <= i < |Guard(result).messages| && StrictEntry(Guard(result).messages[i]).Failure?)
    ensures r.Success? && Guard(result).Proceed? ==>
              IsProcessed(r.value) && |Summary(r.value)| == |Guard(result).messages|
  {
    match Guard(result)
    case PassThrough => Success(result)
    case GuardRaised(e) => Failure(e)
    case Proceed(messages) =>
      MapInOrderAt(messages, StrictEntry);
      match MapInOrder(messages, StrictEntry)
      case Failure(e) => Failure(e)
      case Success(summary) => Success(Processed(summary))
  }

  /** The loop of the post-processor: `filtered_results` starts empty and one
      entry is appended per message; an exception leaves the loop at once. */
  method FilterYoutubeResults(result: map<string, Json>) returns (out: Result<map<string, Json>>)
    ensures out == Filtered(result)
  {
    match Guard(result) {
      case PassThrough =>
        return Success(result);
      case GuardRaised(e) =>
        return Failure(e);
      case Proceed(messages) =>
        var filtered: seq<Json> := [];
        for i := 0 to |messages|
          invariant MapInOrder(messages[..i], StrictEntry) == Success(filtered)
        {
          MapInOrderSnoc(messages[..i], messages[i], StrictEntry);
          assert messages[..i + 1] == messages[..i] + [messages[i]];
          var entry := StrictEntry(messages[i]);
          if entry.Failure? {
            MapInOrderPrefixFailure(messages, i + 1, StrictEntry);
            return Failure(entry.error);
          }
          filtered := filtered + [entry.value];
        }
        assert messages[..|messages|] == messages;
        return Success(Processed(filtered));
    }
  }

  /** When every message carries the whole chain, the summary has one entry per
      message, in order, holding the snippet's title and description. */
  lemma SummaryFromSnippets(result: map<string, Json>)
    requires Guard(result).Proceed?
    requires forall i :: 0 <= i < |Guard(result).messages| ==> StrictEntry(Guard(result).messages[i]).Success?
    ensures Filtered(result).Success?
    ensures var ms, summary := Guard(result).messages, Summary(Filtered(result).value);
            |summary| == |ms| &&
            forall i :: 0 <= i < |ms| ==>
              summary[i] == Entry(Path(ms[i], SnippetPath + ["title"]).value,
                                  Path(ms[i], SnippetPath + ["description"]).value)
  {
    MapInOrderAt(Guard(result).messages, StrictEntry);
  }

  /** The first message that lacks a key on the chain aborts the whole filter
      with that message's exception: nothing of the summary built so far is
      returned. */
  lemma FirstMissingKeyAborts(result: map<string, Json>, k: nat)
    requires Guard(result).Proceed? && k < |Guard(result).messages|
    requires StrictEntry(Guard(result).messages[k]).Failure?
    requires forall i :: 0 <= i < k ==> StrictEntry(Guard(result).messages[i]).Success?
    ensures Filtered(result) == Failure(StrictEntry(Guard(result).messages[k]).error)
  {
    MapInOrderFirstFailure(Guard(result).messages, StrictEntry, k);
  }

  /** A subscript chain that succeeds starts at a dict. */
  lemma {:induction false} PathStartsAtDict(j: Json, keys: seq<string>)
    requires keys != [] && Path(j, keys).Success?
    ensures j.JObj? && keys[0] in j.fields
  {
  }

  /** The two variants agree on every input they hand back untouched, and
      wherever the strict variant produces a summary the lenient variant of
      streamlit_app.py produces one of the same length. */
  lemma StrictRefinesLenient(result: map<string, Json>)
    ensures Guard(result).PassThrough? ==> Filtered(result) == StreamlitApp.Filtered(result)
    ensures Filtered(result).Success? ==> StreamlitApp.Filtered(result).Success?
    ensures Filtered(result).Success? ==>
              |Summary(Filtered(result).value)| == |Summary(StreamlitApp.Filtered(result).value)|
  {
    if Filtered(result).Success? && Guard(result).Proceed? {
      var ms := Guard(result).messages;
      MapInOrderAt(ms, StrictEntry);
      forall i | 0 <= i < |ms| ensures ms[i].JObj? {
        PathStartsAtDict(ms[i], SnippetPath + ["title"]);
      }
    }
  }
}
