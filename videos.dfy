/** `ResearchAssistant.fetch_youtube_videos`: one YouTube search, its items shaped into
    the video records the application shows. */
module Videos {
  import opened Wrappers
  import opened Seqs
  import opened Json
  import opened Services

  /** The page of a video is this prefix followed by its id. */
  const WatchUrl: string := "https://www.youtube.com/watch?v="

  /** Descriptions longer than this are cut to this many characters. */
  const DescriptionLimit: nat := 200

  /** The number of characters of `publishedAt` kept: the `YYYY-MM-DD` date. */
  const DateLength: nat := 10

  /** A video record as stored in the research result. */
  datatype Video = Video(
    title: string,
    channel: string,
    url: string,
    thumbnail: string,
    description: string,
    published: string,
    relevance: string)

  /** Line 299: a description longer than 200 characters becomes its first 200
      characters followed by "...". */
  function Truncated(description: string): string
  {
    if |description| > DescriptionLimit then PySlice(description, 0, DescriptionLimit) + "..."
    else description
  }

  /** A long description keeps its first 200 characters and gains an ellipsis, 203
      characters in all; a short one is kept whole. */
  lemma TruncatedSpec(description: string)
    ensures |description| > DescriptionLimit ==>
      && |Truncated(description)| == DescriptionLimit + 3
      && Truncated(description) == description[..DescriptionLimit] + "..."
    ensures |description| <= DescriptionLimit ==> Truncated(description) == description
  {
  }

  /** Lines 294-302: the record built from one search item for `query`. */
  function ShapeVideo(env: Env, item: VideoItem, query: Value): Video
  {
    Video(
      item.title,
      item.channelTitle,
      WatchUrl + item.videoId,
      match item.highThumbnail case Some(url) => url case None => "",
      Truncated(item.description),
      PySlice(item.publishedAt, 0, DateLength),
      "Related to: " + Show(env, query))
  }

  /** The fields of a shaped record: the watch URL of the id, the `high` thumbnail or
      nothing, a description of at most 203 characters that starts like the original,
      the first ten characters of the timestamp, and the query it was found for. */
  lemma ShapeVideoSpec(env: Env, item: VideoItem, query: Value)
    ensures var v := ShapeVideo(env, item, query);
      && v.title == item.title && v.channel == item.channelTitle
      && v.url == WatchUrl + item.videoId
      && (item.highThumbnail.None? ==> v.thumbnail == "")
      && (item.highThumbnail.Some? ==> v.thumbnail == item.highThumbnail.value)
      && |v.description| <= DescriptionLimit + 3
      && v.description[..Min(|item.description|, DescriptionLimit)]
         == item.description[..Min(|item.description|, DescriptionLimit)]
      && |v.published| == Min(|item.publishedAt|, DateLength)
      && v.published == item.publishedAt[..|v.published|]
      && v.relevance == "Related to: " + Show(env, query)
  {
    TruncatedSpec(item.description);
    TakePrefix(item.publishedAt, DateLength);
  }

  /** What `fetch_youtube_videos(query, max_results)` returns: nothing without a key or
      when the search fails, otherwise one record per item, in order. */
  function VideosFor(a: Assistant, env: Env, query: Value, maxResults: int): seq<Video>
  {
    if !Configured(a.youtubeKey) then []
    else
      match env.youtube(query, maxResults)
      case None => []
      case Some(items) => seq(|items|, i requires 0 <= i < |items| => ShapeVideo(env, items[i], query))
  }

  /** Every record of a search obeys the field bounds. */
  lemma {:induction false} VideosForBounds(a: Assistant, env: Env, query: Value, maxResults: int)
    ensures forall v :: v in VideosFor(a, env, query, maxResults) ==>
      && |v.description| <= DescriptionLimit + 3
      && |v.published| <= DateLength
      && WatchUrl <= v.url
  {
    forall v | v in VideosFor(a, env, query, maxResults)
      ensures |v.description| <= DescriptionLimit + 3 && |v.published| <= DateLength && WatchUrl <= v.url
    {
      var items := env.youtube(query, maxResults).value;
      var i :| 0 <= i < |items| && v == ShapeVideo(env, items[i], query);
      ShapeVideoSpec(env, items[i], query);
    }
  }

  /** `fetch_youtube_videos`: the loop over the response's items appends one record per
      item. */
  method FetchYoutubeVideos(a: Assistant, env: Env, query: Value, maxResults: int) returns (videos: seq<Video>)
    ensures videos == VideosFor(a, env, query, maxResults)
    ensures Configured(a.youtubeKey) && env.youtube(query, maxResults).Some? ==>
      |videos| == |env.youtube(query, maxResults).value|
  {
    if !Configured(a.youtubeKey) {
      return [];
    }
    var response := env.youtube(query, maxResults);
    if response.None? {
      return [];
    }
    var items := response.value;
    videos := [];
    for i := 0 to |items|
      invariant |videos| == i
      invariant forall k :: 0 <= k < i ==> videos[k] == ShapeVideo(env, items[k], query)
    {
      videos := videos + [ShapeVideo(env, items[i], query)];
    }
  }
}
