/** What a `ResearchAssistant` is configured with, and the outside world it talks to.

    The assistant holds API keys. The language model, the YouTube search API, SerpAPI,
    the HEAD request that checks a link, `urlparse(...).netloc`, `json.loads` and
    Python's `str()` of a non-string value are not modelled as code: each is a field of
    `Env`, a total function that answers a call, so a model run is a function of the
    request, the keys and these answers. */
module Services {
  import opened Wrappers
  import opened Json

  /** The keys given to the assistant's constructor; `None` is Python's `None`. */
  datatype Assistant = Assistant(youtubeKey: Option<string>, serpapiKey: Option<string>)

  /** Python's `if key:` on an optional key: false for `None` and for the empty string. */
  predicate Configured(key: Option<string>)
  {
    key.Some? && key.value != ""
  }

  /** The fields of a research request that go into the prompt. */
  datatype Request = Request(
    topic: string,
    academicLevel: string,
    researchArea: string,
    keywords: string,
    wordCount: int)

  /** One element of the YouTube search response's `items`, with the fields the assistant
      reads: `id.videoId`, `snippet.title`, `snippet.channelTitle`, `snippet.description`,
      `snippet.publishedAt` and `snippet.thumbnails.high.url` when there is a `high` entry. */
  datatype VideoItem = VideoItem(
    videoId: string,
    title: string,
    channelTitle: string,
    description: string,
    publishedAt: string,
    highThumbnail: Option<string>)

  /** One element of SerpAPI's `organic_results`; an absent field is `None`. */
  datatype OrganicResult = OrganicResult(title: Option<string>, link: Option<string>, snippet: Option<string>)

  /** The answers of everything outside the model.
      - `llm(request, model)`: the first candidate's text for the prompt built from the
        request, or `None` when the request fails or there is no candidate;
      - `decode(text)`: `json.loads(text)` when it yields an object, `None` when it raises;
      - `youtube(query, maxResults)`: the `items` of the search response, `None` when the
        request or the reading of an item raises;
      - `serp(query)`: the `organic_results` of the response, `None` when the request raises;
      - `reachable(url)`: whether a HEAD request to `url` ends with status 200;
      - `netloc(url)`: `urlparse(url).netloc`;
      - `show(v)`: Python's `str(v)` for a value that is not a string. */
  datatype Env = Env(
    llm: (Request, string) -> Option<string>,
    decode: string -> Option<Dict>,
    youtube: (Value, int) -> Option<seq<VideoItem>>,
    serp: Value -> Option<seq<OrganicResult>>,
    reachable: string -> bool,
    netloc: string -> string,
    show: Value -> string)

  /** Python's `str(v)` (what an f-string inserts) for a decoded value. */
  function Show(env: Env, v: Value): string
  {
    if v.Str? then v.s else env.show(v)
  }
}
