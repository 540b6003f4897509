# Research assistant core, modelled in Dafny

This project models the data handling inside `ResearchAssistant` in
`research_streamlit_app.py`, the class behind a Streamlit app that turns a research topic
into an outline, YouTube videos, documents, links and LinkedIn profiles. The model covers
four parts of the class:

- `parse_json_response` takes the language model's answer and returns a dictionary with
  seven required keys. It strips a Markdown fence, slices from the first `{` to the last
  `}`, decodes the slice and fills in missing keys. On any failure it returns a fixed
  fallback.
- `fetch_youtube_videos` turns the items of one YouTube search into video records.
- `search_web_content` adds a qualifier to a query for its search type, runs one SerpAPI
  search, and keeps the organic results whose link answers.
- `generate_research_content` ties these together:
  - it fails early when the model gives no text;
  - it asks for up to three videos per suggested query and keeps the first 15;
  - it sorts search results into documents, links and profiles;
  - it prefers real results over the model's own suggestions;
  - it reports counts in the metadata.

Everything outside the program is a field of `Services.Env`, a total function that
answers the call:

- Gemini (`llm`);
- `json.loads` (`decode`);
- the YouTube search (`youtube`);
- SerpAPI (`serp`);
- the HEAD request of `verify_url` (`reachable`);
- `urlparse(...).netloc` (`netloc`);
- Python's `str()` of a non-string value (`show`).

A run of the model is therefore a function of the request, the API keys and these answers.

The modules are:

- `Seqs`: Python slicing, and the concatenation that an `extend` loop builds.
- `Text`: `strip`, `find`, `rfind`, `in` and `replace`.
- `Json`: decoded values, with Python's truth test, iteration, `len()` and the
  `TypeError` messages.
- `Services`: the keys, the request and the outside world.
- `ResponseParser`.
- `Videos`.
- `WebSearch`.
- `Research`: the specification functions of `generate_research_content`.
- `Generate`: the method with its loops, proved equal to `Research.ResearchOutcome`.
- `ResearchProperties`: what generation promises.

Each loop of the source is a method proved equal to a specification function:

- `ResponseParser.Backfill`;
- `Videos.FetchYoutubeVideos`;
- `WebSearch.SearchWebContent`;
- the `Generate.Collect*` methods.

Two behaviours follow the code rather than the described intent:

- When videos are not fetched, the result's `videos` is whatever the decoded answer holds
  under `"videos"`. It is empty when the answer has no such key, and also when that
  value is itself empty (`[]`, `""` or `{}`).
- `web_search_enabled` tests `serpapi_key is not None`, while the search itself tests the
  key's truth. An empty key is therefore reported as enabled although no search runs.
  `ResearchProperties.EmptySerpKeyReported` states this.

## Model

| member | source | states |
|---|---|---|
| Seqs.SliceIndex | research_streamlit_app.py:315 | Python's slice-bound normalisation: non-negative bounds within the length are kept, negative ones count from the end, and the result is never past the end |
| Seqs.TakePrefix | research_streamlit_app.py:379 | `s[:n]` is the first `min(n, len(s))` elements |
| Seqs.ConcatAppend | research_streamlit_app.py:374-376 | the list an `extend` loop builds splits along the queries |
| Seqs.ConcatMember | research_streamlit_app.py:374-376 | an element is in the extended list exactly when one query's part holds it |
| Seqs.ConcatBound | research_streamlit_app.py:374-376 | parts of at most `k` elements give at most `k` per query in total |
| Seqs.ConcatCongruence | research_streamlit_app.py:374-376 | parts that agree query by query give the same list |
| Text.TrimStartSpec | research_streamlit_app.py:313 | `lstrip` removes exactly the leading whitespace |
| Text.TrimEndSpec | research_streamlit_app.py:313 | `rstrip` removes exactly the trailing whitespace |
| Text.StripSpec | research_streamlit_app.py:313 | `strip` leaves the piece between the leading and trailing whitespace, which neither begins nor ends with whitespace |
| Text.StripFixed | research_streamlit_app.py:313 | text that neither begins nor ends with whitespace is its own strip |
| Text.StripIdempotent | research_streamlit_app.py:315 | stripping twice is stripping once |
| Text.StripKeeps | research_streamlit_app.py:315 | stripping only removes characters |
| Text.StripAllSpace | research_streamlit_app.py:313 | whitespace-only text strips to the empty text |
| Text.FindSpec | research_streamlit_app.py:319 | `find` is -1 exactly when the character is absent, and otherwise its first index |
| Text.RFindSpec | research_streamlit_app.py:320 | `rfind` is -1 exactly when the character is absent, and otherwise its last index |
| Text.IsInfixAt | research_streamlit_app.py:396 | `sub in s` holds exactly when `sub` occurs at some position |
| Text.ReplaceAbsent | research_streamlit_app.py:418 | `replace` leaves text without the pattern unchanged |
| Text.ReplaceSkips | research_streamlit_app.py:418 | `replace` passes over a leading part in which no occurrence begins |
| Text.ReplaceDropsSuffix | research_streamlit_app.py:418 | replacing a pattern by "" removes a trailing copy of it |
| Json.Get | research_streamlit_app.py:440 | `d.get(key, default)` is the stored value when the key is present and the default otherwise |
| Json.Iterate | research_streamlit_app.py:374 | `for x in v` works exactly on strings, lists and dicts; a list yields its items, and a string or dict yields strings |
| Json.Len | research_streamlit_app.py:454-457 | `len(v)` is defined exactly where iteration is, and equals the number of values visited |
| ResponseParser.Fallback | research_streamlit_app.py:337-345 | the fallback has exactly the seven required keys, the apology as content and `[]` for the six lists |
| ResponseParser.UnfenceOther | research_streamlit_app.py:313-317 | text not starting with a fence is left unchanged |
| ResponseParser.UnfenceTagged | research_streamlit_app.py:314-315 | text starting with ```` ```json ```` loses its first 7 and last 3 characters and is stripped again; text under 10 characters becomes empty |
| ResponseParser.UnfenceBare | research_streamlit_app.py:316-317 | text starting with ```` ``` ```` but not ```` ```json ```` loses its first 3 and last 3 characters and is stripped again |
| ResponseParser.JsonSliceSpec | research_streamlit_app.py:319-323 | nothing is decoded exactly when there is no `{`; otherwise the slice runs from the first `{` through the last `}`, and it is empty when no `}` follows the first `{` (the `json_end != -1` guard never fails) |
| ResponseParser.JsonSliceBraces | research_streamlit_app.py:319-323 | a non-empty slice begins with `{` and ends with `}`, and no `}` follows it in the text |
| ResponseParser.Backfilled | research_streamlit_app.py:326-332 | completion keeps every decoded key and value, adds the missing required keys, sets "" for content and `[]` for the rest, and adds nothing else |
| ResponseParser.BackfillIdempotent | research_streamlit_app.py:328-330 | completing a complete object changes nothing, so completing twice is completing once |
| ResponseParser.ParsedResponse | research_streamlit_app.py:310-345 | the parsed answer always has all seven required keys |
| ResponseParser.ParsedFallback | research_streamlit_app.py:322-345 | with no `{`, or a slice that fails to decode, the result is the fallback |
| ResponseParser.ParsedDecoded | research_streamlit_app.py:322-332 | a slice that decodes gives the completed decoded object |
| ResponseParser.FallbackWithoutBraces | research_streamlit_app.py:319-345 | an answer with no `{`, or none before its last `}`, gives the fallback |
| ResponseParser.FencedWithTag | research_streamlit_app.py:313-315 | an answer wrapped in ```` ```json ```` and ```` ``` ```` parses like the answer itself |
| ResponseParser.FencedBare | research_streamlit_app.py:316-317 | an answer wrapped in bare ```` ``` ```` fences parses like the answer itself |
| ResponseParser.UnclosedFenceLosesObject | research_streamlit_app.py:314-315 | a tagged fence with no closing fence loses the object's final `}`, so the result is the fallback |
| ResponseParser.Backfill | research_streamlit_app.py:326-332 | the in-place loop over the required keys yields the completed object |
| ResponseParser.ParseJsonResponse | research_streamlit_app.py:310-345 | `parse_json_response` yields the parsed answer |
| Videos.TruncatedSpec | research_streamlit_app.py:299 | a description over 200 characters becomes its first 200 plus "...", 203 in all; a shorter one is kept |
| Videos.ShapeVideoSpec | research_streamlit_app.py:294-302 | the watch URL of the id, the `high` thumbnail or "", a description of at most 203 characters that starts like the original, the first ten characters of the timestamp, and the query |
| Videos.VideosForBounds | research_streamlit_app.py:270-308 | every video returned obeys those field bounds |
| Videos.FetchYoutubeVideos | research_streamlit_app.py:268-308 | nothing without a key or when the request fails; otherwise one record per item, in order |
| WebSearch.QualifiedSpec | research_streamlit_app.py:110-116 | "documents", "profiles" and "academic" append their fixed suffix, any other type leaves the query unchanged, and only a non-string, non-list query with a qualifier raises |
| WebSearch.KeptAppend | research_streamlit_app.py:130-138 | filtering keeps the order of the results |
| WebSearch.KeptMember | research_streamlit_app.py:131-138 | a hit is kept exactly when it comes from a result whose link is reachable |
| WebSearch.KeptLength | research_streamlit_app.py:131-138 | at most one hit per result, and exactly the mapped results when every link is reachable |
| WebSearch.KeptCongruence | research_streamlit_app.py:131-138 | the hits depend only on the link check and `urlparse` |
| WebSearch.SearchForCongruence | research_streamlit_app.py:104-144 | a search depends only on SerpAPI, the link check and `urlparse` |
| WebSearch.SearchForReachable | research_streamlit_app.py:131-138 | every hit has a reachable link |
| WebSearch.SearchForLinked | research_streamlit_app.py:96-102 | when the link check rejects an empty link, as `verify_url` does, no hit has an empty URL |
| WebSearch.SearchWebContent | research_streamlit_app.py:104-144 | nothing without a key, when qualifying raises or when the request fails; otherwise the reachable results, in order |
| Research.GeminiResponseSpec | research_streamlit_app.py:236-266 | the model asked is the one named, else the first model; the text is the stripped answer and carries no surrounding whitespace |
| Research.DocumentKindSpec | research_streamlit_app.py:396 | a document is a research paper exactly when "pdf" occurs in its URL, and a web page otherwise |
| Research.ProfileNamePipe | research_streamlit_app.py:418 | a title "<name> \| LinkedIn" yields the name for every name that holds neither suffix, hyphens and inner bars included |
| Research.ProfileNameDash | research_streamlit_app.py:418 | a title "<name> - LinkedIn" yields the name for every name that holds neither suffix, hyphens and inner bars included |
| Research.ProfileNamePlain | research_streamlit_app.py:418 | a title without either suffix is kept |
| Research.Count | research_streamlit_app.py:453-457 | `len()` of a built list is its length; of a suggestion it is `len()` of the value, and it raises where that has none |
| Generate.AppendRecords | research_streamlit_app.py:390-398 | the inner append loop adds one record per search result, in order |
| Generate.CollectVideos | research_streamlit_app.py:374-377 | the video loop yields the concatenation of the per-query searches with `max_results=3` |
| Generate.CollectDocuments | research_streamlit_app.py:388-398 | the documents loop yields one document per result of every query's documents search, in order |
| Generate.CollectResources | research_streamlit_app.py:401-411 | the links loop yields one resource per result of every query's general search, in order |
| Generate.CollectProfiles | research_streamlit_app.py:414-423 | the profiles loop yields one profile per result of every query's profiles search, in order |
| Generate.GenerateResearchContent | research_streamlit_app.py:347-469 | `generate_research_content` yields the specified outcome |
| ResearchProperties.OutcomeAssembled | research_streamlit_app.py:369-461 | once the model has answered and both stages have run, the outcome is the assembled result |
| ResearchProperties.AssembleOutcome | research_streamlit_app.py:430-469 | the assembly succeeds or fails with an "Internal error: " message |
| ResearchProperties.AnsweredOutcome | research_streamlit_app.py:369-469 | once the model answers, the run succeeds or fails with an "Internal error: " message |
| ResearchProperties.LlmFailure | research_streamlit_app.py:359-366 | the run fails with "Failed to generate content from AI" exactly when the model gives no text or only whitespace, and then no other service is consulted |
| ResearchProperties.VideoStageSpec | research_streamlit_app.py:373-376 | videos are fetched only when asked for, with a YouTube key and truthy video queries; queries that cannot be iterated raise the `TypeError`; otherwise every query's videos are collected in order |
| ResearchProperties.VideosCapped | research_streamlit_app.py:379 | fetched videos are stored as the first `min(15, total)` of all found; total_videos is the uncapped count and videos_included is at most 15 |
| ResearchProperties.VideosPerQueryBound | research_streamlit_app.py:375 | if YouTube honours `max_results=3`, at most three videos are found per query |
| ResearchProperties.VideosNotFetched | research_streamlit_app.py:440 | without fetching, total_videos is 0 and the stored videos are the answer's "videos", so none when it has no such key |
| ResearchProperties.VideoStageCongruence | research_streamlit_app.py:372-379 | the videos found depend only on YouTube and how queries print |
| ResearchProperties.SearchStageCongruence | research_streamlit_app.py:386-423 | the search results depend only on SerpAPI, the link check, `urlparse` and how queries print |
| ResearchProperties.VideosNotFetchedCallsNothing | research_streamlit_app.py:373 | without fetching, YouTube's answers do not affect the outcome |
| ResearchProperties.WebSearchOff | research_streamlit_app.py:386-428 | without web search nothing is collected, so documents and profiles are the suggestions and there are no links |
| ResearchProperties.WebSearchOffCallsNothing | research_streamlit_app.py:386 | without web search, SerpAPI, the link check and `urlparse` do not affect the outcome |
| ResearchProperties.FinalSelection | research_streamlit_app.py:426-459 | real documents and profiles are used when there are any and the suggestions otherwise; links are the real links; the request, the content, all four query lists and the model are echoed |
| ResearchProperties.Counts | research_streamlit_app.py:453-457 | each count in the metadata is the length of the list it counts |
| ResearchProperties.SuggestedSourcesWithoutLength | research_streamlit_app.py:455 | with no documents found, `suggested_sources` without a length makes the assembly fail with the `TypeError` message |
| ResearchProperties.DocumentQueriesNotIterable | research_streamlit_app.py:386-388 | with web search on, document queries that cannot be iterated raise the `TypeError` before any search runs |
| ResearchProperties.DocumentsFoundSpec | research_streamlit_app.py:389-398 | every document from one search has a reachable URL, is a research paper exactly when "pdf" is in its URL and a web page otherwise, and names its query |
| ResearchProperties.ResourcesFoundSpec | research_streamlit_app.py:402-411 | every link from one search has a reachable URL, type "resource", and names its query |
| ResearchProperties.ProfilesFoundSpec | research_streamlit_app.py:415-423 | every profile from one search has a reachable URL, contact potential "Medium", names its query, and takes its name from a result's title |
| ResearchProperties.FoundDocuments | research_streamlit_app.py:388-398 | every collected document has a reachable URL and the type rule above |
| ResearchProperties.FoundResources | research_streamlit_app.py:401-411 | every collected link has a reachable URL and type "resource" |
| ResearchProperties.FoundProfiles | research_streamlit_app.py:414-423 | every collected profile has a reachable URL and contact potential "Medium" |
| ResearchProperties.EmptySerpKeyReported | research_streamlit_app.py:458 | with an empty SerpAPI key no search runs, yet web_search_enabled is reported true |

## Left out

- The Streamlit UI, the CSS, session state and the export buttons are presentation only.
- The HTTP requests, their parameters and timeouts are left out. So are API key placement
  in URLs and the response JSON layout. Each service is an oracle in `Services.Env`.
- The wording of the prompt built by `create_research_prompt` and the Gemini generation
  settings are left out. The request is the oracle's argument.
- `time.sleep`, logging and `datetime.now()` are left out, so the result has no
  `generated_at` field.
- `json.loads`, `urlparse`, the link check and `str()` of a non-string value are oracles,
  because their code is not visible.
  - Duplicate keys in a decoded object are not modelled.
  - Floating-point values are carried as reals and never computed with.
- `Text.IsSpace` follows Python's `str.isspace`. No other Unicode semantics are modelled.
- WebSearch.Qualified: `query += suffix` on a list query extends that list in place. The
  list is an item of the parsed answer, so the echoed `search_queries` and the
  relevance note later show the extended list. The model builds a new value and
  leaves the answer unchanged.
- Generate.GenerateResearchContent: `research_data['videos'] = ...` writes into the parsed
  dictionary. The model keeps the stored videos beside it, as the listing that
  `Research.StoredVideos` describes.
- Research.GeminiResponse: other exceptions inside `get_gemini_response` are folded into
  the oracle's `None`. An example is a candidate whose text is not a string.
- Videos.FetchYoutubeVideos and WebSearch.SearchWebContent: an exception while reading a
  response is folded into the oracle's `None`. An example is an item without
  `id.videoId`.
- The fields of SerpAPI and YouTube items are taken to be strings
  (`Services.OrganicResult`, `Services.VideoItem`). In the source, a SerpAPI result whose
  `"title"` is `null` or a number reaches `.replace` at line 418. That raises
  `AttributeError`, and lines 463-469 report it as an internal error. The model does not
  have this error path.
- With string fields and the required keys always present after parsing, the only
  exceptions left in the modelled code are the `TypeError`s of iteration and `len()`.
  Errors are reported as the message only.
- Services.Env: the `reachable` oracle is not constrained at `""`. `verify_url("")` is
  always `False` in the source, because a request without a scheme raises. The model allows
  link checks that accept `""`. `WebSearch.SearchForLinked` states what follows when the
  oracle agrees with the source.
