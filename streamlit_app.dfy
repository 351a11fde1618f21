/** streamlit_app.py: the lenient Composio post-processor, which reads each
    message's `title` and `description` with `.get(..., "")`. (Its audio-locator
    choice is Narration.ChooseAudio.) */
module StreamlitApp {
  import opened PyValues
  import opened ComposioFilter

  /** One message of the loop body: `{"title": m.get("title", ""),
      "description": m.get("description", "")}`; a message that is not a dict
      has no `get`. */
  function LenientEntry(message: Json): Result<Json> {
    match message
    case JObj(m) => Success(Entry(Lookup(m, "title", JStr("")), Lookup(m, "description", JStr(""))))
    case _ => Failure(AttributeError)
  }

  /** What `filter_youtube_results` returns, or the exception it raises. */
  function Filtered(result: map<string, Json>): (r: Result<map<string, Json>>)
    ensures Guard(result).PassThrough? ==> r == Success(result)
    ensures r.Failure? <==>
              Guard(result).GuardRaised? ||
              (Guard(result).Proceed? && exists i :: 0 <= i < |Guard(result).messages| && !Guard(result).messages[i].JObj?)
    ensures r.Success? && Guard(result).Proceed? ==>
              IsProcessed(r.value) && |Summary(r.value)| == |Guard(result).messages|
  {
    match Guard(result)
    case PassThrough => Success(result)
    case GuardRaised(e) => Failure(e)
    case Proceed(messages) =>
      MapInOrderAt(messages, LenientEntry);
      match MapInOrder(messages, LenientEntry)
      case Failure(e) => Failure(e)
      case Success(summary) => Success(Processed(summary))
  }

  /** The loop of the post-processor: `filtered_results` starts empty and one
      projected entry is appended per message. */
  method FilterYoutubeResults(result: map<string, Json>) returns (out: Result<map<string, Json>>)
    ensures out == Filtered(result)
  {
    match Guard(result) {
      case PassThrough =>
        return Success(result);
      case GuardRaised(e) =>
        return Failure(e);
      case Proceed(messages) =>
        var filtered: seq<Json> := [];
        for i := 0 to |messages|
          invariant MapInOrder(messages[..i], LenientEntry) == Success(filtered)
        {
          MapInOrderSnoc(messages[..i], messages[i], LenientEntry);
          assert messages[..i + 1] == messages[..i] + [messages[i]];
          var entry := LenientEntry(messages[i]);
          if entry.Failure? {
            MapInOrderPrefixFailure(messages, i + 1, LenientEntry);
            return Failure(entry.error);
          }
          filtered := filtered + [entry.value];
        }
        assert messages[..|messages|] == messages;
        return Success(Processed(filtered));
    }
  }

  /** When every message is a dict, the summary has one entry per message, in
      the same order, holding only that message's title and description, each
      defaulting to the empty string. */
  lemma SummaryPerMessage(result: map<string, Json>)
    requires Guard(result).Proceed?
    requires forall i :: 0 <= i < |Guard(result).messages| ==> Guard(result).messages[i].JObj?
    ensures Filtered(result).Success?
    ensures var ms, summary := Guard(result).messages, Summary(Filtered(result).value);
            |summary| == |ms| &&
            forall i :: 0 <= i < |ms| ==>
              summary[i] == Entry(Lookup(ms[i].fields, "title", JStr("")), Lookup(ms[i].fields, "description", JStr("")))
  {
    var ms := Guard(result).messages;
    MapInOrderAt(ms, LenientEntry);
  }
}
