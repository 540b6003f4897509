/** The steps of `generate_research_content` as the assistant runs them: the loops that
    collect videos and search results, and the assembly of the result. */
module Generate {
  import opened Wrappers
  import opened Seqs
  import opened Json
  import opened Services
  import opened ResponseParser
  import opened Videos
  import opened WebSearch
  import opened Research

  /** Lines 374-377: `all_youtube_videos.extend(fetch_youtube_videos(query, 3))` for every
      query. */
  method CollectVideos(a: Assistant, env: Env, queries: seq<Value>) returns (all: seq<Video>)
    ensures all == Concat(queries, VideoSearch(a, env))
  {
    all := [];
    for i := 0 to |queries|
      invariant all == Concat(queries[..i], VideoSearch(a, env))
    {
      var videos := FetchYoutubeVideos(a, env, queries[i], VideosPerQuery);
      all := all + videos;
      assert queries[..i + 1][..i] == queries[..i];
    }
    assert queries[..|queries|] == queries;
  }

  /** `for result in results: records.append(make(result))`. */
  method AppendRecords<T>(records: seq<T>, results: seq<Hit>, make: Hit -> T) returns (out: seq<T>)
    ensures out == records + seq(|results|, k requires 0 <= k < |results| => make(results[k]))
  {
    out := records;
    for j := 0 to |results|
      invariant out == records + seq(j, k requires 0 <= k < j => make(results[k]))
    {
      out := out + [make(results[j])];
    }
  }

  /** Lines 388-398: one document per result of the documents search of every query. */
  method CollectDocuments(a: Assistant, env: Env, queries: seq<Value>) returns (documents: seq<Document>)
    ensures documents == Concat(queries, DocumentSearch(a, env))
  {
    documents := [];
    for i := 0 to |queries|
      invariant documents == Concat(queries[..i], DocumentSearch(a, env))
    {
      var query := queries[i];
      var results := SearchWebContent(a, env, query, "documents");
      documents := AppendRecords(documents, results, h => DocumentOf(env, h, query));
      assert queries[..i + 1][..i] == queries[..i];
    }
    assert queries[..|queries|] == queries;
  }

  /** Lines 401-411: one resource per result of the general search of every query. */
  method CollectResources(a: Assistant, env: Env, queries: seq<Value>) returns (resources: seq<Resource>)
    ensures resources == Concat(queries, ResourceSearch(a, env))
  {
    resources := [];
    for i := 0 to |queries|
      invariant resources == Concat(queries[..i], ResourceSearch(a, env))
    {
      var query := queries[i];
      var results := SearchWebContent(a, env, query, "general");
      resources := AppendRecords(resources, results, h => ResourceOf(env, h, query));
      assert queries[..i + 1][..i] == queries[..i];
    }
    assert queries[..|queries|] == queries;
  }

  /** Lines 414-423: one profile per result of the profiles search of every query. */
  method CollectProfiles(a: Assistant, env: Env, queries: seq<Value>) returns (profiles: seq<Profile>)
    ensures profiles == Concat(queries, ProfileSearch(a, env))
  {
    profiles := [];
    for i := 0 to |queries|
      invariant profiles == Concat(queries[..i], ProfileSearch(a, env))
    {
      var query := queries[i];
      var results := SearchWebContent(a, env, query, "profiles");
      profiles := AppendRecords(profiles, results, h => ProfileOf(env, h, query));
      assert queries[..i + 1][..i] == queries[..i];
    }
    assert queries[..|queries|] == queries;
  }

  /** `generate_research_content`: the model's answer is parsed, the videos and web
      results are collected, and the result is assembled; a `TypeError` raised on the
      way becomes an internal error. */
  method GenerateResearchContent(a: Assistant, env: Env, req: Request, includeVideos: bool, includeWebSearch: bool)
    returns (outcome: Outcome)
    ensures outcome == ResearchOutcome(a, env, req, includeVideos, includeWebSearch)
  {
    var reply := GeminiResponse(env, req, None);
    if reply.text.None? || reply.text.value == [] {
      return Failure(AiFailure);
    }
    var data := ParseJsonResponse(reply.text.value, env.decode);

    var all: Option<seq<Video>> := None;
    if VideosRequested(a, data, includeVideos) {
      var queries := Get(data, "video_search_queries", Null);
      var qs := Iterate(queries);
      if qs.None? {
        return Failure(InternalError + NotIterable(queries));
      }
      var videos := CollectVideos(a, env, qs.value);
      all := Some(videos);
    }

    var documents: seq<Document> := [];
    var resources: seq<Resource> := [];
    var profiles: seq<Profile> := [];
    if SearchRequested(a, includeWebSearch) {
      var queries := Get(data, "document_search_queries", Arr([]));
      var qs := Iterate(queries);
      if qs.None? {
        return Failure(InternalError + NotIterable(queries));
      }
      documents := CollectDocuments(a, env, qs.value);

      queries := Get(data, "web_search_queries", Arr([]));
      qs := Iterate(queries);
      if qs.None? {
        return Failure(InternalError + NotIterable(queries));
      }
      resources := CollectResources(a, env, qs.value);

      queries := Get(data, "linkedin_search_queries", Arr([]));
      qs := Iterate(queries);
      if qs.None? {
        return Failure(InternalError + NotIterable(queries));
      }
      profiles := CollectProfiles(a, env, qs.value);
    }

    outcome := Assemble(a, req, reply.model, includeWebSearch, data, all,
      Harvest(documents, resources, profiles));
  }
}
