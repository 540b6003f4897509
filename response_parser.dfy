/** `ResearchAssistant.parse_json_response`: turning the language model's text into the
    research record. It never fails: either the text holds a decodable object, which is
    completed with defaults for the seven keys the rest of the program reads, or the
    result is a fixed fallback record. */
module ResponseParser {
  import opened Wrappers
  import opened Seqs
  import opened Text
  import opened Json

  /** The `content` of the fallback record. */
  const Apology: string := "Unable to generate research content. Please check your API keys and try again."

  /** The keys every parsed record has, in the order they are filled in. */
  const RequiredKeys: seq<string> := [
    "content", "video_search_queries", "document_search_queries",
    "web_search_queries", "linkedin_search_queries", "suggested_experts", "suggested_sources"]

  const RequiredKeySet: set<string> := set k | k in RequiredKeys

  /** The value a missing required key is given: `""` for `content`, `[]` otherwise. */
  function Default(key: string): Value
  {
    if key == "content" then Str("") else Arr([])
  }

  /** The record returned when the text cannot be read: the apology and six empty lists. */
  function Fallback(): (d: Dict)
    ensures d.Keys == RequiredKeySet
    ensures d["content"] == Str(Apology)
    ensures forall k :: k in RequiredKeys && k != "content" ==> d[k] == Arr([])
  {
    map[
      "content" := Str(Apology),
      "video_search_queries" := Arr([]),
      "document_search_queries" := Arr([]),
      "web_search_queries" := Arr([]),
      "linkedin_search_queries" := Arr([]),
      "suggested_experts" := Arr([]),
      "suggested_sources" := Arr([])]
  }

  /** Removing a Markdown code fence from the stripped text (lines 314-317). */
  function Unfence(t: string): string
  {
    if "```json" <= t then Strip(PySlice(t, 7, -3))
    else if "```" <= t then Strip(PySlice(t, 3, -3))
    else t
  }

  /** Text that does not start with a fence is left as it is. */
  lemma UnfenceOther(t: string)
    requires !("```" <= t)
    ensures Unfence(t) == t
  {
  }

  /** After an opening "```json" the first seven and, whatever they are, the last three
      characters are removed, and the rest is stripped again. */
  lemma UnfenceTagged(t: string)
    requires "```json" <= t
    ensures |t| >= 10 ==> Unfence(t) == Strip(t[7..|t| - 3])
    ensures |t| < 10 ==> Unfence(t) == []
  {
  }

  /** After a bare opening "```" the first three and, whatever they are, the last three
      characters are removed, and the rest is stripped again. */
  lemma UnfenceBare(t: string)
    requires "```" <= t && !("```json" <= t)
    ensures |t| >= 6 ==> Unfence(t) == Strip(t[3..|t| - 3])
    ensures |t| < 6 ==> Unfence(t) == []
  {
  }

  /** The text handed to the decoder (lines 319-323). */
  function JsonSlice(t: string): Option<string>
  {
    var start := Find(t, '{');
    var end := RFind(t, '}') + 1;
    if start != -1 && end != -1 then Some(PySlice(t, start, end)) else None
  }

  /** The slice runs from the first `{` to the last `}`, both included. There is nothing
      to decode only when the text has no `{`: the second half of the guard, on
      `rfind('}') + 1`, always holds. Without a `}` after the first `{` the slice is
      empty. */
  lemma JsonSliceSpec(t: string)
    ensures JsonSlice(t).None? <==> '{' !in t
    ensures 0 <= Find(t, '{') <= RFind(t, '}') < |t| ==>
      JsonSlice(t) == Some(t[Find(t, '{')..RFind(t, '}') + 1])
    ensures '{' in t && ('}' !in t || RFind(t, '}') < Find(t, '{')) ==> JsonSlice(t) == Some([])
  {
    FindSpec(t, '{');
    RFindSpec(t, '}');
  }

  /** A non-empty slice starts with `{`, ends with `}`, and no `}` follows it in the text. */
  lemma JsonSliceBraces(t: string)
    requires JsonSlice(t).Some? && JsonSlice(t).value != []
    ensures var j := JsonSlice(t).value; j[0] == '{' && j[|j| - 1] == '}'
    ensures forall k :: 0 <= k < |t| && Find(t, '{') + |JsonSlice(t).value| <= k ==> t[k] != '}'
  {
    JsonSliceSpec(t);
    FindSpec(t, '{');
    RFindSpec(t, '}');
  }

  /** A decoded object with every missing required key set to its default. */
  function Backfilled(d: Dict): (r: Dict)
    ensures r.Keys == d.Keys + RequiredKeySet
    ensures forall k :: k in d ==> r[k] == d[k]
    ensures forall k :: k in RequiredKeySet && k !in d ==> r[k] == Default(k)
  {
    map k | k in d.Keys + RequiredKeySet :: if k in d then d[k] else Default(k)
  }

  /** Completing an already complete object changes nothing, so completing twice is
      completing once. */
  lemma BackfillIdempotent(d: Dict)
    ensures RequiredKeySet <= d.Keys ==> Backfilled(d) == d
    ensures Backfilled(Backfilled(d)) == Backfilled(d)
  {
    if RequiredKeySet <= d.Keys {
      assert Backfilled(d).Keys == d.Keys;
    }
    assert Backfilled(Backfilled(d)).Keys == Backfilled(d).Keys;
  }

  /** What `parse_json_response` does with the text once it is stripped and unfenced:
      decode the slice between the braces and complete it, or fall back. */
  function FromUnfenced(t: string, decode: string -> Option<Dict>): (r: Dict)
    ensures RequiredKeySet <= r.Keys
  {
    match JsonSlice(t)
    case None => Fallback()
    case Some(j) =>
      match decode(j)
      case None => Fallback()
      case Some(d) => Backfilled(d)
  }

  /** What `parse_json_response` returns for a text, given the decoder. */
  function ParsedResponse(text: string, decode: string -> Option<Dict>): (r: Dict)
    ensures RequiredKeySet <= r.Keys
  {
    FromUnfenced(Unfence(Strip(text)), decode)
  }

  /** The fallback is returned when there is nothing to decode or decoding fails. */
  lemma ParsedFallback(text: string, decode: string -> Option<Dict>)
    requires var s := JsonSlice(Unfence(Strip(text))); s.None? || decode(s.value).None?
    ensures ParsedResponse(text, decode) == Fallback()
  {
  }

  /** Otherwise the decoded object comes back completed: its own keys keep their values,
      and the missing required keys get their defaults. */
  lemma ParsedDecoded(text: string, decode: string -> Option<Dict>, d: Dict)
    requires var s := JsonSlice(Unfence(Strip(text))); s.Some? && decode(s.value) == Some(d)
    ensures ParsedResponse(text, decode) == Backfilled(d)
  {
  }

  /** A decoder that rejects the empty text (as `json.loads("")` does) makes a response
      without a `{`, or without a `}` after its first `{`, come back as the fallback. */
  lemma FallbackWithoutBraces(text: string, decode: string -> Option<Dict>)
    requires decode("") == None
    requires var t := Unfence(Strip(text));
      '{' !in t || '}' !in t || RFind(t, '}') < Find(t, '{')
    ensures ParsedResponse(text, decode) == Fallback()
  {
    JsonSliceSpec(Unfence(Strip(text)));
  }

  /** An object in a fence with a language tag parses as the object alone. */
  lemma {:induction false} FencedWithTag(j: string, decode: string -> Option<Dict>)
    requires !("```" <= Strip(j))
    ensures ParsedResponse("```json" + j + "```", decode) == ParsedResponse(j, decode)
  {
    var text := "```json" + j + "```";
    assert text[0] == '`' && text[|text| - 1] == '`';
    StripFixed(text);
    assert text[..7] == "```json";
    assert text[7..|text| - 3] == j;
    UnfenceTagged(text);
    UnfenceOther(Strip(j));
    assert Unfence(Strip(text)) == Unfence(Strip(j));
  }

  /** An object in a bare fence parses as the object alone, unless the object itself
      starts with "json" (which would then be read as a language tag). */
  lemma {:induction false} FencedBare(j: string, decode: string -> Option<Dict>)
    requires !("json" <= j)
    requires !("```" <= Strip(j))
    ensures ParsedResponse("```" + j + "```", decode) == ParsedResponse(j, decode)
  {
    var text := "```" + j + "```";
    assert text[0] == '`' && text[|text| - 1] == '`';
    StripFixed(text);
    assert text[..3] == "```";
    if |j| >= 4 {
      assert text[3..7] == j[..4] != "json";
    } else {
      assert text[3 + |j|] == '`';
    }
    assert !("```json" <= text);
    assert text[3..|text| - 3] == j;
    UnfenceBare(text);
    UnfenceOther(Strip(j));
    assert Unfence(Strip(text)) == Unfence(Strip(j));
  }

  /** The last three characters go even when they are not a closing fence: after an
      opening "```json" that is never closed, the closing brace of an object whose only
      `}` is its last character is cut off, and the object is lost. */
  lemma {:induction false} UnclosedFenceLosesObject(obj: string, decode: string -> Option<Dict>)
    requires decode("") == None
    requires |obj| > 0 && obj[|obj| - 1] == '}' && '}' !in obj[..|obj| - 1]
    ensures ParsedResponse("```json" + obj, decode) == Fallback()
  {
    var text := "```json" + obj;
    assert text[0] == '`' && text[|text| - 1] == '}';
    StripFixed(text);
    assert text[..7] == "```json";
    UnfenceTagged(text);
    var u := Unfence(text);
    if |text| >= 10 {
      var cut := text[7..|text| - 3];
      assert cut == obj[..|obj| - 3];
      assert forall c :: c in cut ==> c in obj[..|obj| - 1];
      StripKeeps(cut);
    }
    assert '}' !in u;
    JsonSliceSpec(u);
  }

  /** Lines 328-330: each missing required key is set to its default, in place. */
  method Backfill(parsed: Dict) returns (d: Dict)
    ensures d == Backfilled(parsed)
  {
    d := parsed;
    ghost var seen: set<string> := {};
    for i := 0 to |RequiredKeys|
      invariant d.Keys == parsed.Keys + seen
      invariant forall k :: k in parsed ==> d[k] == parsed[k]
      invariant forall k :: k in d && k !in parsed ==> d[k] == Default(k)
      invariant seen <= RequiredKeySet
      invariant forall j :: 0 <= j < i ==> RequiredKeys[j] in seen
    {
      var key := RequiredKeys[i];
      if key !in d {
        d := d[key := Default(key)];
      }
      seen := seen + {key};
    }
  }

  /** `parse_json_response`: strip, remove a fence, slice out the object, decode it and
      complete it, or return the fallback. */
  method ParseJsonResponse(responseText: string, decode: string -> Option<Dict>) returns (d: Dict)
    ensures d == ParsedResponse(responseText, decode)
  {
    var text := Unfence(Strip(responseText));
    var jsonStart := Find(text, '{');
    var jsonEnd := RFind(text, '}') + 1;
    if jsonStart != -1 && jsonEnd != -1 {
      var parsed := decode(PySlice(text, jsonStart, jsonEnd));
      if parsed.Some? {
        d := Backfill(parsed.value);
        return;
      }
    }
    d := Fallback();
  }
}
