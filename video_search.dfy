/** YouTubeResource_BF.py, YouTube search section: the loosely-typed records
    returned by the search library are turned into fixed eight-field video
    records, every missing field taking a fixed default. */
module VideoSearch {
  import opened PyValues

  /** The dict appended per video; each field keeps whatever value the search
      returned, or the default. */
  datatype VideoRecord = VideoRecord(
    title: Json, link: Json, duration: Json, channel: Json,
    views: Json, published: Json, description: Json, thumbnail: Json)

  /** The record of a video for which the search returned no field at all. */
  const Defaults: VideoRecord := VideoRecord(
    JStr("No title"), JStr(""), JStr("Unknown"), JStr("Unknown channel"),
    JStr("Unknown views"), JStr("Unknown"), JStr("Unknown description"), JStr(""))

  /** `video.get(key, {})` is something `.get` can then be called on. */
  predicate NestedReadable(m: map<string, Json>, key: string) {
    Lookup(m, key, JObj(map[])).JObj?
  }

  /** `video.get('thumbnails', [{}])[0].get('url', '') if video.get('thumbnails') else ''`. */
  function ThumbnailOf(m: map<string, Json>): (r: Result<Json>)
    ensures !Truthy(Lookup(m, "thumbnails", JNull)) ==> r == Success(JStr(""))
    ensures r.Success? && Truthy(Lookup(m, "thumbnails", JNull)) ==>
              m["thumbnails"].JList? && m["thumbnails"].items[0].JObj? &&
              r.value == Lookup(m["thumbnails"].items[0].fields, "url", JStr(""))
    ensures r.Failure? <==>
              Truthy(Lookup(m, "thumbnails", JNull)) &&
              !(m["thumbnails"].JList? && m["thumbnails"].items[0].JObj?)
  {
    if Truthy(Lookup(m, "thumbnails", JNull)) then
      match First(Lookup(m, "thumbnails", JList([JObj(map[])])))
      case Failure(e) => Failure(e)
      case Success(first) => Get(first, "url", JStr(""))
    else
      Success(JStr(""))
  }

  /** One iteration of the loop: the eight fields are evaluated in the order
      the dict literal lists them, so the first one that raises decides the
      exception. */
  function NormaliseVideo(video: Json): (r: Result<VideoRecord>)
    ensures r.Success? <==>
              video.JObj? && NestedReadable(video.fields, "channel") &&
              NestedReadable(video.fields, "viewCount") && ThumbnailOf(video.fields).Success?
    ensures r.Success? ==>
              var m := video.fields;
              ("title" !in m ==> r.value.title == Defaults.title) &&
              ("link" !in m ==> r.value.link == Defaults.link) &&
              ("duration" !in m ==> r.value.duration == Defaults.duration) &&
              ("channel" !in m || "name" !in m["channel"].fields ==> r.value.channel == Defaults.channel) &&
              ("viewCount" !in m || "short" !in m["viewCount"].fields ==> r.value.views == Defaults.views) &&
              ("publishedTime" !in m ==> r.value.published == Defaults.published) &&
              ("descriptionSnippet" !in m ==> r.value.description == Defaults.description) &&
              ("thumbnails" !in m ==> r.value.thumbnail == Defaults.thumbnail)
    ensures r.Success? ==>
              var m := video.fields;
              ("title" in m ==> r.value.title == m["title"]) &&
              ("link" in m ==> r.value.link == m["link"]) &&
              ("duration" in m ==> r.value.duration == m["duration"]) &&
              ("channel" in m && "name" in m["channel"].fields ==> r.value.channel == m["channel"].fields["name"]) &&
              ("viewCount" in m && "short" in m["viewCount"].fields ==> r.value.views == m["viewCount"].fields["short"]) &&
              ("publishedTime" in m ==> r.value.published == m["publishedTime"]) &&
              ("descriptionSnippet" in m ==> r.value.description == m["descriptionSnippet"])
    // the thumbnail is derived, not copied
    ensures r.Success? ==> r.value.thumbnail == ThumbnailOf(video.fields).value
  {
    match video
    case JObj(m) =>
      var channel := Get(Lookup(m, "channel", JObj(map[])), "name", JStr("Unknown channel"));
      var views := Get(Lookup(m, "viewCount", JObj(map[])), "short", JStr("Unknown views"));
      var thumbnail := ThumbnailOf(m);
      if channel.Failure? then Failure(channel.error)
      else if views.Failure? then Failure(views.error)
      else if thumbnail.Failure? then Failure(thumbnail.error)
      else
        Success(VideoRecord(
          Lookup(m, "title", JStr("No title")),
          Lookup(m, "link", JStr("")),
          Lookup(m, "duration", JStr("Unknown")),
          channel.value,
          views.value,
          Lookup(m, "publishedTime", JStr("Unknown")),
          Lookup(m, "descriptionSnippet", JStr("Unknown description")),
          thumbnail.value))
    case _ => Failure(AttributeError)
  }

  /** How the section ends: the list of videos, the "no videos" warning, or
      the handler's error message. */
  datatype SearchOutcome = VideosFound(videos: seq<VideoRecord>) | NoVideosFound | SearchRaised(error: PyError)

  /** The characters of a string, each a one-character string, as iterating a
      Python string yields them. */
  function Chars(s: string): (r: seq<Json>)
    ensures |r| == |s| && forall i :: 0 <= i < |s| ==> r[i] == JStr([s[i]])
  {
    seq(|s|, i requires 0 <= i < |s| => JStr([s[i]]))
  }

  /** `if 'result' in search_results and len(search_results['result']) > 0:
      for video in search_results['result']: ... else: warning`. Iterating a
      string yields strings and iterating a dict yields its keys, also
      strings; neither has `.get`. */
  function SearchOutcomeOf(searchResults: map<string, Json>): (o: SearchOutcome)
    ensures o.NoVideosFound? <==> "result" !in searchResults || Len(searchResults["result"]) == Success(0)
    ensures o.VideosFound? ==>
              searchResults["result"].JList? &&
              var items := searchResults["result"].items;
              |o.videos| == |items| && |items| > 0 &&
              forall i :: 0 <= i < |items| ==> NormaliseVideo(items[i]) == Success(o.videos[i])
    ensures ("result" in searchResults && searchResults["result"].JList? &&
             forall i :: 0 <= i < |searchResults["result"].items| ==> NormaliseVideo(searchResults["result"].items[i]).Success?)
            ==> !o.SearchRaised?
  {
    if "result" !in searchResults then NoVideosFound
    else
      var found := searchResults["result"];
      match Len(found)
      case Failure(e) => SearchRaised(e)
      case Success(n) =>
        if n == 0 then NoVideosFound
        else
          match found
          case JList(items) =>
            MapInOrderAt(items, NormaliseVideo);
            (match MapInOrder(items, NormaliseVideo)
             case Failure(e) => SearchRaised(e)
             case Success(videos) => VideosFound(videos))
          case JStr(s) =>
            (match MapInOrder(Chars(s), NormaliseVideo)
             case Failure(e) => SearchRaised(e)
             case Success(videos) => VideosFound(videos))
          case _ => SearchRaised(AttributeError)
  }

  /** Iterating a non-empty string raises at its first character. */
  lemma StringResultRaises(s: string)
    requires s != []
    ensures MapInOrder(Chars(s), NormaliseVideo) == Failure(AttributeError)
  {
    MapInOrderFirstFailure(Chars(s), NormaliseVideo, 0);
  }

  /** The loop of the section: `videos = []`, then one record appended per
      element of `search_results['result']`. */
  method CollectVideos(searchResults: map<string, Json>) returns (outcome: SearchOutcome)
    ensures outcome == SearchOutcomeOf(searchResults)
  {
    if "result" !in searchResults {
      return NoVideosFound;
    }
    var found := searchResults["result"];
    var n := Len(found);
    if n.Failure? {
      return SearchRaised(n.error);
    }
    if n.value == 0 {
      return NoVideosFound;
    }
    var elements: seq<Json>;
    match found {
      case JList(items) => elements := items;
      case JStr(s) => elements := Chars(s);
      case JObj(m) =>
        // the loop variable is a key of the dict, a string
        var key :| key in m;
        var first := NormaliseVideo(JStr(key));
        return SearchRaised(first.error);
    }
    var videos: seq<VideoRecord> := [];
    for i := 0 to |elements|
      invariant MapInOrder(elements[..i], NormaliseVideo) == Success(videos)
    {
      MapInOrderSnoc(elements[..i], elements[i], NormaliseVideo);
      assert elements[..i + 1] == elements[..i] + [elements[i]];
      var record := NormaliseVideo(elements[i]);
      if record.Failure? {
        MapInOrderPrefixFailure(elements, i + 1, NormaliseVideo);
        return SearchRaised(record.error);
      }
      videos := videos + [record.value];
    }
    assert elements[..|elements|] == elements;
    return VideosFound(videos);
  }
}
