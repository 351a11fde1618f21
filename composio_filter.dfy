/** The parts of the Composio post-processor `filter_youtube_results` that
    streamlit_app.py and YouTubeResource.py write identically: the guard that
    hands an unusable tool result back untouched, and the envelope that wraps
    the per-message summary. The two files differ only in how one message is
    projected (modules StreamlitApp and ResourceApp). */
module ComposioFilter {
  import opened PyValues

  /** What the guard decides before the loop starts. */
  datatype Guarded =
    | PassThrough                       // `return result`
    | Proceed(messages: seq<Json>)      // loop over these messages
    | GuardRaised(error: PyError)       // `result["data"].get` raised

  /** The first lines of the post-processor:
      `if not result.get("successful") or "data" not in result: return result`,
      `original_messages = result["data"].get("messages", [])`,
      `if not isinstance(original_messages, list): return result`. */
  function Guard(result: map<string, Json>): (g: Guarded)
    ensures !Truthy(Lookup(result, "successful", JNull)) || "data" !in result ==> g == PassThrough
    ensures g.GuardRaised? <==>
              Truthy(Lookup(result, "successful", JNull)) && "data" in result && !result["data"].JObj?
    ensures g.GuardRaised? ==> g.error == AttributeError
    ensures g.Proceed? <==>
              Truthy(Lookup(result, "successful", JNull)) && "data" in result && result["data"].JObj? &&
              Lookup(result["data"].fields, "messages", JList([])).JList?
    ensures g.Proceed? ==> g.messages == Lookup(result["data"].fields, "messages", JList([])).items
    // an absent message key reads as an empty list: the loop runs zero times
    ensures (Truthy(Lookup(result, "successful", JNull)) && "data" in result && result["data"].JObj? &&
             "messages" !in result["data"].fields) ==> g == Proceed([])
  {
    if !Truthy(Lookup(result, "successful", JNull)) || "data" !in result then PassThrough
    else
      match Get(result["data"], "messages", JList([]))
      case Failure(e) => GuardRaised(e)
      case Success(messages) => if messages.JList? then Proceed(messages.items) else PassThrough
  }

  /** The dict the post-processor returns after the loop:
      `{"successful": True, "data": {"summary": filtered_results}, "error": None}`. */
  function Processed(summary: seq<Json>): map<string, Json> {
    map["successful" := JBool(true), "data" := JObj(map["summary" := JList(summary)]), "error" := JNull]
  }

  /** The shape every processed result has, whatever the summary. */
  predicate IsProcessed(out: map<string, Json>) {
    var summary := Summary(out);
    out.Keys == {"successful", "data", "error"} &&
    out["successful"] == JBool(true) && out["error"] == JNull &&
    out["data"] == JObj(map["summary" := JList(summary)])
  }

  /** The summary list inside a processed result (empty for any other shape). */
  function Summary(out: map<string, Json>): seq<Json> {
    if "data" in out && out["data"].JObj? && "summary" in out["data"].fields && out["data"].fields["summary"].JList?
    then out["data"].fields["summary"].items
    else []
  }

  /** The title/description pair one message is projected to. */
  function Entry(title: Json, description: Json): Json {
    JObj(map["title" := title, "description" := description])
  }
}
