/** `ResearchAssistant.generate_research_content`: ask the language model for a research
    outline, parse it, run the video and web searches it suggests, and assemble the
    result with the real search results preferred over the model's suggestions. */
module Research {
  import opened Wrappers
  import opened Seqs
  import opened Text
  import opened Json
  import opened Services
  import opened ResponseParser
  import opened Videos
  import opened WebSearch

  /** The Gemini models the assistant knows; a call without a model uses the first. */
  const Models: seq<string> := ["gemini-2.0-flash", "gemini-1.5-flash-latest", "gemini-pro"]

  /** The error returned when the model gives no text. */
  const AiFailure: string := "Failed to generate content from AI"

  /** The prefix of the error returned for an exception raised while assembling. */
  const InternalError: string := "Internal error: "

  /** At most this many videos are stored. */
  const VideoCap: nat := 15

  /** The `max_results` of every video search. */
  const VideosPerQuery: nat := 3

  /** The prefix of the relevance note of every web search result. */
  const FoundVia: string := "Found via search: "

  /** What `get_gemini_response` returns: the stripped text of the first candidate, or
      `None`, and the name of the model asked. */
  datatype Reply = Reply(text: Option<string>, model: string)

  /** `get_gemini_response(prompt, model)`: an empty or absent model name means the
      first model; the answer is stripped. */
  function GeminiResponse(env: Env, req: Request, model: Option<string>): Reply
  {
    var chosen := if model.Some? && model.value != "" then model.value else Models[0];
    match env.llm(req, chosen)
    case None => Reply(None, chosen)
    case Some(t) => Reply(Some(Strip(t)), chosen)
  }

  /** The model asked is the one named, or the first model when none is named, and the
      text handed back carries no surrounding whitespace. */
  lemma GeminiResponseSpec(env: Env, req: Request, model: Option<string>)
    ensures var r := GeminiResponse(env, req, model);
      && (model.Some? && model.value != "" ==> r.model == model.value)
      && (model.None? || model.value == "" ==> r.model == Models[0])
      && (r.text.None? <==> env.llm(req, r.model).None?)
      && (r.text.Some? ==> r.text.value == Strip(env.llm(req, r.model).value))
      && (r.text.Some? && r.text.value != [] ==>
            !IsSpace(r.text.value[0]) && !IsSpace(r.text.value[|r.text.value| - 1]))
  {
    var r := GeminiResponse(env, req, model);
    if r.text.Some? {
      StripSpec(env.llm(req, r.model).value);
    }
  }

  /** A document found by a web search (lines 391-398). */
  datatype Document = Document(
    title: string, url: string, description: string, source: string, kind: string, relevance: string)

  /** A general web resource found by a web search (lines 404-411). */
  datatype Resource = Resource(
    title: string, url: string, description: string, source: string, kind: string, relevance: string)

  /** A LinkedIn profile found by a web search (lines 417-423). */
  datatype Profile = Profile(
    name: string, linkedinUrl: string, description: string, relevance: string, contactPotential: string)

  /** `f"Found via search: {query}"`. */
  function Relevance(env: Env, query: Value): string
  {
    FoundVia + Show(env, query)
  }

  /** The document type: a URL containing "pdf" is a research paper. */
  function DocumentKind(url: string): string
  {
    if IsInfix("pdf", url) then "research_paper" else "webpage"
  }

  /** A document is a research paper exactly when "pdf" occurs somewhere in its URL, and
      a web page otherwise. */
  lemma DocumentKindSpec(url: string)
    ensures DocumentKind(url) == "research_paper" <==> exists i :: 0 <= i <= |url| - 3 && "pdf" <= url[i..]
    ensures DocumentKind(url) in {"research_paper", "webpage"}
  {
    IsInfixAt("pdf", url);
  }

  function DocumentOf(env: Env, h: Hit, query: Value): Document
  {
    Document(h.title, h.url, h.description, h.source, DocumentKind(h.url), Relevance(env, query))
  }

  function ResourceOf(env: Env, h: Hit, query: Value): Resource
  {
    Resource(h.title, h.url, h.description, h.source, "resource", Relevance(env, query))
  }

  /** The two endings LinkedIn gives its page titles. */
  const PipeSuffix: string := " | LinkedIn"
  const DashSuffix: string := " - LinkedIn"

  /** `title.replace(" | LinkedIn", "").replace(" - LinkedIn", "")`. */
  function ProfileName(title: string): string
  {
    Replace(Replace(title, PipeSuffix, ""), DashSuffix, "")
  }

  function ProfileOf(env: Env, h: Hit, query: Value): Profile
  {
    Profile(ProfileName(h.title), h.url, h.description, Relevance(env, query), "Medium")
  }

  /** A text without the character at position `k` of `pat` has no occurrence of `pat`. */
  lemma AbsentWithout(pat: string, s: string, k: nat)
    requires k < |pat| && pat[k] !in s
    ensures !IsInfix(pat, s)
  {
    IsInfixAt(pat, s);
    forall i | 0 <= i <= |s| - |pat| ensures !(pat <= s[i..]) {
      assert s[i + k] in s;
      assert s[i..][k] == s[i + k];
    }
  }

  /** An occurrence of `pat` at position `i` of `a + b` either lies inside `a` or runs
      into `b`, which then begins with the tail of `pat` past the end of `a`. */
  lemma OccurrenceAcross(a: string, b: string, pat: string, i: nat)
    requires i < |a| && pat <= (a + b)[i..]
    ensures i + |pat| <= |a| ==> pat <= a[i..]
    ensures i + |pat| > |a| ==> pat[|a| - i..] <= b
  {
    if i + |pat| <= |a| {
      forall m | 0 <= m < |pat| ensures pat[m] == a[i..][m] {
        assert (a + b)[i..][m] == a[i + m];
      }
    } else {
      forall m | 0 <= m < |pat| - (|a| - i) ensures pat[|a| - i..][m] == b[m] {
        assert (a + b)[i..][|a| - i + m] == b[m];
      }
    }
  }

  /** No occurrence of `pat` begins inside `a` in `a + b` when `pat` does not occur in
      `a` and no proper tail of `pat` is a prefix of `b`. */
  lemma NoOccurrenceAcross(a: string, b: string, pat: string)
    requires !IsInfix(pat, a)
    requires forall j :: 0 < j < |pat| ==> !(pat[j..] <= b)
    ensures forall i :: 0 <= i < |a| ==> !(pat <= (a + b)[i..])
  {
    IsInfixAt(pat, a);
    forall i | 0 <= i < |a| && pat <= (a + b)[i..] ensures false {
      OccurrenceAcross(a, b, pat, i);
    }
  }

  /** No proper tail of either LinkedIn suffix begins either suffix: the only inner space
      is followed by "L", not by "|" or "-". */
  lemma SuffixTails(pat: string, b: string)
    requires pat in {PipeSuffix, DashSuffix} && b in {PipeSuffix, DashSuffix}
    ensures forall j :: 0 < j < |pat| ==> !(pat[j..] <= b)
  {
    forall j | 0 < j < |pat| ensures !(pat[j..] <= b) {
      if j == 2 {
        assert pat[j..][1] != b[1];
      } else {
        assert pat[j..][0] != b[0];
      }
    }
  }

  /** A profile titled "<name> | LinkedIn" is named `<name>`, whatever `<name>` holds
      besides the two suffixes themselves. */
  lemma ProfileNamePipe(name: string)
    requires !IsInfix(" | LinkedIn", name) && !IsInfix(" - LinkedIn", name)
    ensures ProfileName(name + " | LinkedIn") == name
  {
    SuffixTails(PipeSuffix, PipeSuffix);
    NoOccurrenceAcross(name, PipeSuffix, PipeSuffix);
    ReplaceDropsSuffix(name, PipeSuffix);
    ReplaceAbsent(name, DashSuffix, "");
  }

  /** " | LinkedIn" does not occur in " - LinkedIn". */
  lemma DashKeepsPipe()
    ensures Replace(DashSuffix, PipeSuffix, "") == DashSuffix
  {
    assert PipeSuffix[1] == '|';
    AbsentWithout(PipeSuffix, DashSuffix, 1);
    ReplaceAbsent(DashSuffix, PipeSuffix, "");
  }

  /** The first replacement leaves a title ending in " - LinkedIn" alone. */
  lemma DashTitleKeepsPipe(name: string)
    requires !IsInfix(PipeSuffix, name)
    ensures Replace(name + DashSuffix, PipeSuffix, "") == name + DashSuffix
  {
    SuffixTails(PipeSuffix, DashSuffix);
    NoOccurrenceAcross(name, DashSuffix, PipeSuffix);
    ReplaceSkips(name, DashSuffix, PipeSuffix, "");
    DashKeepsPipe();
  }

  /** A profile titled "<name> - LinkedIn" is named `<name>`, whatever `<name>` holds
      besides the two suffixes themselves. */
  lemma ProfileNameDash(name: string)
    requires !IsInfix(" | LinkedIn", name) && !IsInfix(" - LinkedIn", name)
    ensures ProfileName(name + " - LinkedIn") == name
  {
    DashTitleKeepsPipe(name);
    SuffixTails(DashSuffix, DashSuffix);
    NoOccurrenceAcross(name, DashSuffix, DashSuffix);
    ReplaceDropsSuffix(name, DashSuffix);
  }

  /** A title with neither suffix anywhere in it is the name unchanged. */
  lemma ProfileNamePlain(title: string)
    requires !IsInfix(" | LinkedIn", title) && !IsInfix(" - LinkedIn", title)
    ensures ProfileName(title) == title
  {
    ReplaceAbsent(title, " | LinkedIn", "");
    ReplaceAbsent(title, " - LinkedIn", "");
  }

  /** The documents made from one documents search for `query`. */
  function DocumentsFound(a: Assistant, env: Env, query: Value): seq<Document>
  {
    var hits := SearchFor(a, env, query, "documents");
    seq(|hits|, i requires 0 <= i < |hits| => DocumentOf(env, hits[i], query))
  }

  /** The resources made from one general search for `query`. */
  function ResourcesFound(a: Assistant, env: Env, query: Value): seq<Resource>
  {
    var hits := SearchFor(a, env, query, "general");
    seq(|hits|, i requires 0 <= i < |hits| => ResourceOf(env, hits[i], query))
  }

  /** The profiles made from one profiles search for `query`. */
  function ProfilesFound(a: Assistant, env: Env, query: Value): seq<Profile>
  {
    var hits := SearchFor(a, env, query, "profiles");
    seq(|hits|, i requires 0 <= i < |hits| => ProfileOf(env, hits[i], query))
  }

  function VideoSearch(a: Assistant, env: Env): Value -> seq<Video>
  {
    q => VideosFor(a, env, q, VideosPerQuery)
  }

  function DocumentSearch(a: Assistant, env: Env): Value -> seq<Document>
  {
    q => DocumentsFound(a, env, q)
  }

  function ResourceSearch(a: Assistant, env: Env): Value -> seq<Resource>
  {
    q => ResourcesFound(a, env, q)
  }

  function ProfileSearch(a: Assistant, env: Env): Value -> seq<Profile>
  {
    q => ProfilesFound(a, env, q)
  }

  /** The outcome of a stage that may raise `TypeError`. */
  datatype Step<T> = Ok(value: T) | Raised(message: string)

  /** Line 373: the videos are fetched when asked for, with a YouTube key, and when the
      parsed `video_search_queries` is truthy. */
  predicate VideosRequested(a: Assistant, data: Dict, includeVideos: bool)
  {
    includeVideos && Configured(a.youtubeKey) && Truthy(Get(data, "video_search_queries", Null))
  }

  /** Lines 372-379: `None` when the videos are not fetched, otherwise every video found,
      query after query; raises when the queries cannot be iterated. */
  function VideoStage(a: Assistant, env: Env, data: Dict, includeVideos: bool): Step<Option<seq<Video>>>
  {
    if !VideosRequested(a, data, includeVideos) then Ok(None)
    else
      var queries := Get(data, "video_search_queries", Null);
      match Iterate(queries)
      case None => Raised(NotIterable(queries))
      case Some(qs) => Ok(Some(Concat(qs, VideoSearch(a, env))))
  }

  /** Line 386: a web search runs when asked for and there is a SerpAPI key. */
  predicate SearchRequested(a: Assistant, includeWebSearch: bool)
  {
    includeWebSearch && Configured(a.serpapiKey)
  }

  /** One search loop: every record found for the queries under `key`, query after
      query; raises when the queries cannot be iterated. */
  function Bucket<T>(data: Dict, key: string, search: Value -> seq<T>): Step<seq<T>>
  {
    var queries := Get(data, key, Arr([]));
    match Iterate(queries)
    case None => Raised(NotIterable(queries))
    case Some(qs) => Ok(Concat(qs, search))
  }

  /** What the three search loops collect. */
  datatype Harvest = Harvest(documents: seq<Document>, resources: seq<Resource>, profiles: seq<Profile>)

  /** Lines 381-423: the documents, general and profile searches, in that order. */
  function SearchStage(a: Assistant, env: Env, data: Dict, includeWebSearch: bool): Step<Harvest>
  {
    if !SearchRequested(a, includeWebSearch) then Ok(Harvest([], [], []))
    else
      match Bucket(data, "document_search_queries", DocumentSearch(a, env))
      case Raised(m) => Raised(m)
      case Ok(documents) =>
        match Bucket(data, "web_search_queries", ResourceSearch(a, env))
        case Raised(m) => Raised(m)
        case Ok(resources) =>
          match Bucket(data, "linkedin_search_queries", ProfileSearch(a, env))
          case Raised(m) => Raised(m)
          case Ok(profiles) => Ok(Harvest(documents, resources, profiles))
  }

  /** A list in the result: records the assistant built, or a value taken as decoded
      from the model's answer. */
  datatype Listing<T> = Listed(items: seq<T>) | Suggested(value: Value)

  /** Python's `len()` of a listing. */
  function Count<T>(l: Listing<T>): (r: Step<nat>)
    ensures l.Listed? ==> r == Ok(|l.items|)
    ensures l.Suggested? ==> (r.Ok? <==> Len(l.value).Some?)
    ensures l.Suggested? && r.Ok? ==> r.value == Len(l.value).value
    ensures l.Suggested? && r.Raised? ==> r.message == HasNoLen(l.value)
  {
    match l
    case Listed(items) => Ok(|items|)
    case Suggested(v) =>
      match Len(v)
      case None => Raised(HasNoLen(v))
      case Some(n) => Ok(n)
  }

  /** Lines 426-428: the records found if there are any, else the model's suggestions. */
  function Prefer<T>(found: seq<T>, data: Dict, key: string): Listing<T>
  {
    if found != [] then Listed(found) else Suggested(Get(data, key, Arr([])))
  }

  /** Line 379 and line 440: the first 15 videos found when the videos were fetched,
      else whatever the parsed answer holds under "videos". */
  function StoredVideos(data: Dict, all: Option<seq<Video>>): Listing<Video>
  {
    match all
    case Some(videos) => Listed(PySlice(videos, 0, VideoCap))
    case None => Suggested(Get(data, "videos", Arr([])))
  }

  /** The query lists echoed back in the result. */
  datatype Queries = Queries(videos: Value, documents: Value, web: Value, linkedin: Value)

  /** The counts and flags of the result's metadata. */
  datatype Metadata = Metadata(
    aiModel: string,
    totalVideos: nat,
    videosIncluded: nat,
    documentsFound: nat,
    linksFound: nat,
    profilesFound: nat,
    webSearchEnabled: bool)

  /** The `data` of a successful result. */
  datatype ResearchData = ResearchData(
    request: Request,
    content: Value,
    videos: Listing<Video>,
    documents: Listing<Document>,
    links: seq<Resource>,
    profiles: Listing<Profile>,
    searchQueries: Queries,
    metadata: Metadata)

  /** `{"success": True, "data": ...}` or `{"success": False, "error": ...}`. */
  datatype Outcome = Success(data: ResearchData) | Failure(error: string)

  /** Lines 426-459: the result built from the parsed answer and what the searches
      found; `len()` of a suggestion list that has no length raises. */
  function Assemble(a: Assistant, req: Request, model: string, includeWebSearch: bool,
                    data: Dict, all: Option<seq<Video>>, h: Harvest): Outcome
  {
    var videos := StoredVideos(data, all);
    var documents := Prefer(h.documents, data, "suggested_sources");
    var profiles := Prefer(h.profiles, data, "suggested_experts");
    var total := if all.Some? then |all.value| else 0;
    match Count(videos)
    case Raised(m) => Failure(InternalError + m)
    case Ok(included) =>
      match Count(documents)
      case Raised(m) => Failure(InternalError + m)
      case Ok(documentsFound) =>
        match Count(profiles)
        case Raised(m) => Failure(InternalError + m)
        case Ok(profilesFound) =>
          var queries := Queries(
            Get(data, "video_search_queries", Arr([])),
            Get(data, "document_search_queries", Arr([])),
            Get(data, "web_search_queries", Arr([])),
            Get(data, "linkedin_search_queries", Arr([])));
          var metadata := Metadata(model, total, included, documentsFound, |h.resources|,
            profilesFound, includeWebSearch && a.serpapiKey.Some?);
          Success(ResearchData(req, Get(data, "content", Str("")), videos, documents,
            h.resources, profiles, queries, metadata))
  }

  /** The model's answer, parsed; `None` when the answer is absent or empty. */
  function Decoded(env: Env, req: Request): Option<Dict>
  {
    var reply := GeminiResponse(env, req, None);
    if reply.text.None? || reply.text.value == [] then None
    else Some(ParsedResponse(reply.text.value, env.decode))
  }

  /** What `generate_research_content` returns for a request. */
  function ResearchOutcome(a: Assistant, env: Env, req: Request, includeVideos: bool, includeWebSearch: bool): Outcome
  {
    match Decoded(env, req)
    case None => Failure(AiFailure)
    case Some(data) =>
      match VideoStage(a, env, data, includeVideos)
      case Raised(m) => Failure(InternalError + m)
      case Ok(all) =>
        match SearchStage(a, env, data, includeWebSearch)
        case Raised(m) => Failure(InternalError + m)
        case Ok(h) => Assemble(a, req, Models[0], includeWebSearch, data, all, h)
  }
}
