/** Picking the JSON candidate out of the model's reply: the stripped text
    itself when it is already brace-delimited, otherwise what
    `re.search(r"\{.*\}", text, flags=re.DOTALL)` matches. Parsing the
    candidate is left to the JSON library and is not modelled here. */
module Extraction {
  import opened Wrappers
  import opened Text

  /** The index of the first `c` in `s`, if any. */
  function FirstIndexOf(s: string, c: char, from: nat := 0): (r: Option<nat>)
    requires from <= |s|
    ensures r.Some? ==> from <= r.value < |s| && s[r.value] == c
    ensures r.Some? ==> forall k :: from <= k < r.value ==> s[k] != c
    ensures r.None? ==> forall k :: from <= k < |s| ==> s[k] != c
    decreases |s| - from
  {
    if from == |s| then None
    else if s[from] == c then Some(from)
    else FirstIndexOf(s, c, from + 1)
  }

  /** The index of the last `c` in `s[..upto]`, if any. */
  function LastIndexOf(s: string, c: char, upto: nat): (r: Option<nat>)
    requires upto <= |s|
    ensures r.Some? ==> r.value < upto && s[r.value] == c
    ensures r.Some? ==> forall k :: r.value < k < upto ==> s[k] != c
    ensures r.None? ==> forall k :: 0 <= k < upto ==> s[k] != c
  {
    if upto == 0 then None
    else if s[upto - 1] == c then Some(upto - 1)
    else LastIndexOf(s, c, upto - 1)
  }

  /** `t[a..b]` matches `\{.*\}` when `.` matches every character: it opens
      with `{`, closes with `}` and has at least those two characters. */
  ghost predicate IsBraceMatch(t: string, a: int, b: int) {
    0 <= a && a + 2 <= b <= |t| && t[a] == '{' && t[b - 1] == '}'
  }

  /** `t[a..b]` is the match `re.search` reports: the leftmost start at which
      any match exists and, the `.*` being greedy, the longest match from there. */
  ghost predicate IsSearchResult(t: string, a: int, b: int) {
    && IsBraceMatch(t, a, b)
    && (forall a', b' :: IsBraceMatch(t, a', b') ==> a <= a')
    && (forall b' :: IsBraceMatch(t, a, b') ==> b' <= b)
  }

  /** The regular-expression search on `t`, computed as the span from the
      first `{` to the last `}` when the latter comes after the former. */
  function BraceSearch(t: string): (r: Option<(nat, nat)>)
    ensures r.Some? ==> IsSearchResult(t, r.value.0, r.value.1)
  {
    match FirstIndexOf(t, '{')
    case None => None
    case Some(a) =>
      match LastIndexOf(t, '}', |t|)
      case None => None
      case Some(j) =>
        if a < j then
          assert IsBraceMatch(t, a, j + 1);
          Some((a, j + 1))
        else
          None
  }

  /** The search fails exactly when no `{` is followed later by a `}`. */
  lemma BraceSearchFailsOnlyWithoutMatch(t: string)
    ensures BraceSearch(t).None? <==> forall a, b :: !IsBraceMatch(t, a, b)
  {
  }

  /** A text that already opens with `{` and closes with `}` is its own search
      result, so the shortcut for pure JSON agrees with the regular expression. */
  lemma WholeTextIsSearchResult(t: string)
    requires |t| > 0 && t[0] == '{' && t[|t| - 1] == '}'
    ensures IsSearchResult(t, 0, |t|)
  {
  }

  /** The candidate chosen from an already stripped reply `t`: `t` itself when
      it is brace-delimited, otherwise the span the search finds. */
  function SelectCandidate(t: string): (r: Option<string>)
    ensures r.Some? ==> |r.value| >= 2 && r.value[0] == '{' && r.value[|r.value| - 1] == '}'
  {
    if |t| > 0 && t[0] == '{' && t[|t| - 1] == '}' then
      Some(t)
    else
      match BraceSearch(t)
      case None => None
      case Some((a, b)) => Some(t[a..b])
  }

  /** Both ways of choosing the candidate give what `re.search` matches. */
  lemma SelectCandidateIsSearchMatch(t: string)
    ensures SelectCandidate(t).None? <==> forall a, b :: !IsBraceMatch(t, a, b)
    ensures SelectCandidate(t).Some? ==>
      exists a, b :: IsSearchResult(t, a, b) && SelectCandidate(t).value == t[a..b]
  {
    BraceSearchFailsOnlyWithoutMatch(t);
    if |t| > 0 && t[0] == '{' && t[|t| - 1] == '}' {
      WholeTextIsSearchResult(t);
      assert t == t[0..|t|];
    } else if BraceSearch(t).Some? {
      var (a, b) := BraceSearch(t).value;
      assert IsSearchResult(t, a, b);
    }
  }

  /** The candidate JSON text of a reply, or `None` for "No JSON object found".
      It always opens with `{` and closes with `}`. */
  function ExtractJsonFromResponse(text: string): (r: Option<string>)
    ensures r.Some? ==> |r.value| >= 2 && r.value[0] == '{' && r.value[|r.value| - 1] == '}'
  {
    SelectCandidate(Strip(text))
  }

  /** Extraction works on the stripped reply and returns what
      `re.search(r"\{.*\}", text, flags=re.DOTALL)` matches there (the whole
      stripped reply when it is brace-delimited); it fails exactly when no `{`
      is followed later by a `}`. */
  lemma ExtractionIsSearchMatch(text: string)
    ensures ExtractJsonFromResponse(text).None? <==> forall a, b :: !IsBraceMatch(Strip(text), a, b)
    ensures ExtractJsonFromResponse(text).Some? ==>
      exists a, b :: IsSearchResult(Strip(text), a, b) && ExtractJsonFromResponse(text).value == Strip(text)[a..b]
  {
    SelectCandidateIsSearchMatch(Strip(text));
  }

  /** A reply whose stripped text is brace-delimited is taken whole. */
  lemma PureJsonIsTakenWhole(text: string)
    requires |Strip(text)| > 0 && Strip(text)[0] == '{' && Strip(text)[|Strip(text)| - 1] == '}'
    ensures ExtractJsonFromResponse(text) == Some(Strip(text))
  {
  }

  /** Extraction looks only at the stripped reply. */
  lemma ExtractionIgnoresSurroundingSpace(text: string)
    ensures ExtractJsonFromResponse(Strip(text)) == ExtractJsonFromResponse(text)
  {
    StripIdempotent(text);
  }
}
