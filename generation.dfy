/** Generating a post: up to three calls to the text-generation service, each
    reply reduced to a JSON candidate, parsed, read field by field, validated
    and post-processed (excerpt cut to 160 characters, storefront link added
    to a Sunday post that lacks it). The service and the JSON parser are
    inputs: `replies[i]` is what the service returns to call `i + 1`, and
    `parse` stands for `json.loads`. */
module Generation {
  import opened Wrappers
  import opened Text
  import opened Settings
  import opened Themes
  import opened Extraction

  const MaxAttempts := 3
  const ExcerptLimit := 160

  /** A parsed JSON value as the script sees it: a string, or some other value
      of which only its Python truthiness matters. */
  datatype JsonValue = JString(s: string) | JOther(truthy: bool)

  /** What `json.loads` returns for a candidate that opens with `{` and closes with `}`. */
  type JsonObject = map<string, JsonValue>

  /** The outcome of one call to the generation service. */
  datatype Reply = ServiceFailed(reason: string) | OutputText(text: string)

  /** Why one attempt failed; the retry loop keeps the last one. */
  datatype AttemptError =
    | ServiceFailure(reason: string)
    | NoJsonObject
    | InvalidJson
    | FieldNotString(key: string)
    | MissingRequiredFields

  /** Why generation failed as a whole. */
  datatype GenError =
    | MissingApiKey
    | UnknownTheme
    | GenerationFailed(lastError: AttemptError)

  datatype GeneratedPost = GeneratedPost(title: string, excerpt: string, html: string, category: string)

  /** The three fields of a parsed reply, each stripped. */
  datatype Fields = Fields(title: string, excerpt: string, html: string)

  /** `data.get(key) or ""`, ready for `.strip()`: a missing or falsy value
      reads as the empty string, and a truthy value that is not a string fails
      (Python raises when it is asked to strip it). */
  function FieldText(data: JsonObject, key: string): (r: Result<string, AttemptError>)
    ensures key !in data ==> r == Ok("")
    ensures r.Err? <==> key in data && data[key].JOther? && data[key].truthy
    ensures r.Err? ==> r.error == FieldNotString(key)
    ensures key in data && data[key].JString? ==> r == Ok(data[key].s)
    ensures key in data && data[key].JOther? && !data[key].truthy ==> r == Ok("")
  {
    if key !in data then Ok("")
    else
      match data[key]
      case JString(s) => Ok(s)
      case JOther(truthy) => if truthy then Err(FieldNotString(key)) else Ok("")
  }

  /** Turns one reply into its stripped title, excerpt and html, failing as the
      script does: on a service error, when no JSON object is found, when the
      candidate does not parse, or when a field is not a string (title first,
      then excerpt, then html). */
  function ReadFields(reply: Reply, parse: string -> Option<JsonObject>): (r: Result<Fields, AttemptError>)
    ensures r.Ok? ==> IsStripped(r.value.title) && IsStripped(r.value.excerpt) && IsStripped(r.value.html)
    ensures reply.ServiceFailed? ==> r == Err(ServiceFailure(reply.reason))
    ensures reply.OutputText? && ExtractJsonFromResponse(reply.text).None? ==> r == Err(NoJsonObject)
    ensures reply.OutputText? && ExtractJsonFromResponse(reply.text).Some? ==>
      var p := parse(ExtractJsonFromResponse(reply.text).value);
      && (p.None? ==> r == Err(InvalidJson))
      && (p.Some? ==>
            var title, excerpt, html :=
              FieldText(p.value, "title"), FieldText(p.value, "excerpt"), FieldText(p.value, "html");
            && (r.Ok? <==> title.Ok? && excerpt.Ok? && html.Ok?)
            && (title.Err? ==> r == Err(title.error))
            && (title.Ok? && excerpt.Err? ==> r == Err(excerpt.error))
            && (title.Ok? && excerpt.Ok? && html.Err? ==> r == Err(html.error))
            && (r.Ok? ==> r.value == Fields(Strip(title.value), Strip(excerpt.value), Strip(html.value))))
  {
    match reply
    case ServiceFailed(reason) => Err(ServiceFailure(reason))
    case OutputText(text) =>
      match ExtractJsonFromResponse(text)
      case None => Err(NoJsonObject)
      case Some(candidate) =>
        match parse(candidate)
        case None => Err(InvalidJson)
        case Some(data) =>
          var title :- FieldText(data, "title");
          var excerpt :- FieldText(data, "excerpt");
          var html :- FieldText(data, "html");
          Ok(Fields(Strip(title), Strip(excerpt), Strip(html)))
  }

  /** `excerpt[:160]`: the longest prefix of at most 160 characters. */
  function TruncateExcerpt(excerpt: string): (r: string)
    ensures |r| == if |excerpt| <= ExcerptLimit then |excerpt| else ExcerptLimit
    ensures r == excerpt[..|r|]
    ensures |excerpt| <= ExcerptLimit ==> r == excerpt
  {
    if |excerpt| <= ExcerptLimit then excerpt else excerpt[..ExcerptLimit]
  }

  /** The fallback paragraph linking to the storefront. */
  function CtaParagraph(stanUrl: string): (p: string)
    ensures OccursAt(p, stanUrl, 12)
  {
    "<p><a href=\"" + stanUrl + "\">Grab this week\U{2019}s full Feed the Chaos plan here.</a></p>"
  }

  /** The fallback paragraph contains the link it was built with. */
  lemma CtaParagraphContainsLink(html: string, stanUrl: string)
    ensures Contains(html + CtaParagraph(stanUrl), stanUrl)
  {
    var pre := html + "<p><a href=\"";
    var post := "\">Grab this week\U{2019}s full Feed the Chaos plan here.</a></p>";
    assert OccursAt(stanUrl, stanUrl, 0);
    ContainsIsOccurrence(stanUrl, stanUrl);
    ContainsInMiddle(pre, stanUrl, post, stanUrl);
    assert html + CtaParagraph(stanUrl) == pre + stanUrl + post;
  }

  /** The html after the storefront safety net: a Sunday post gets the fallback
      paragraph appended when a storefront URL is configured and the html does
      not already contain it; every other html is returned unchanged. */
  function WithCta(stanUrl: string, key: string, html: string): (r: string)
    ensures html <= r
    ensures r != html <==> key == SundayKey && stanUrl != "" && !Contains(html, stanUrl)
    ensures r != html ==> r == html + CtaParagraph(stanUrl)
    ensures key == SundayKey && stanUrl != "" ==> Contains(r, stanUrl)
  {
    if key == SundayKey && stanUrl != "" && !Contains(html, stanUrl) then
      CtaParagraphContainsLink(html, stanUrl);
      html + CtaParagraph(stanUrl)
    else
      html
  }

  /** One attempt of the retry loop, from the service's reply to the post:
      it is rejected when the stripped title or html is empty, and otherwise
      yields a post whose excerpt is cut to 160 characters, whose html carries
      the storefront safety net, and whose category is the theme's. */
  function AttemptOutcome(cfg: Config, theme: Theme, reply: Reply, parse: string -> Option<JsonObject>)
    : (r: Result<GeneratedPost, AttemptError>)
    ensures r.Ok? ==> r.value.title != "" && r.value.html != "" && r.value.category == theme.category
    ensures r.Ok? ==> |r.value.excerpt| <= ExcerptLimit
  {
    var f :- ReadFields(reply, parse);
    if f.title == "" || f.html == "" then Err(MissingRequiredFields)
    else Ok(GeneratedPost(f.title, TruncateExcerpt(f.excerpt), WithCta(cfg.stanUrl, theme.key, f.html), theme.category))
  }

  /** An attempt is rejected when reading the reply fails or when the stripped
      title or html is empty. This says what `AttemptOutcome(...).Err?` says
      (see AttemptRejection) without unfolding the excerpt cut and the
      storefront paragraph, which keeps the retry loop's invariant cheap. */
  ghost predicate Rejected(reply: Reply, parse: string -> Option<JsonObject>) {
    var f := ReadFields(reply, parse);
    f.Err? || f.value.title == "" || f.value.html == ""
  }

  /** An attempt fails exactly when it is rejected: with the error of the
      reply's reading when that fails, and otherwise for a missing required
      field. Neither the excerpt nor the storefront link can make it fail. */
  lemma AttemptRejection(cfg: Config, theme: Theme, reply: Reply, parse: string -> Option<JsonObject>)
    ensures AttemptOutcome(cfg, theme, reply, parse).Err? <==> Rejected(reply, parse)
    ensures ReadFields(reply, parse).Err? ==>
      AttemptOutcome(cfg, theme, reply, parse) == Err(ReadFields(reply, parse).error)
    ensures ReadFields(reply, parse).Ok? && Rejected(reply, parse) ==>
      AttemptOutcome(cfg, theme, reply, parse) == Err(MissingRequiredFields)
  {
  }

  /** What every accepted attempt guarantees about the post it returns. */
  lemma AcceptedPostIsValid(cfg: Config, theme: Theme, reply: Reply, parse: string -> Option<JsonObject>)
    requires AttemptOutcome(cfg, theme, reply, parse).Ok?
    ensures ReadFields(reply, parse).Ok?
    ensures var p := AttemptOutcome(cfg, theme, reply, parse).value;
      var f := ReadFields(reply, parse).value;
      && p.title == f.title && p.title != "" && IsStripped(p.title)
      && p.excerpt == TruncateExcerpt(f.excerpt)
      && p.html == WithCta(cfg.stanUrl, theme.key, f.html)
      && p.html != ""
      && |p.excerpt| <= ExcerptLimit
      && p.category == theme.category
      && (theme.key == SundayKey && cfg.stanUrl != "" ==> Contains(p.html, cfg.stanUrl))
  {
  }

  /** A reply whose JSON object has only string values but no html is rejected
      as missing a required field, whatever its title and excerpt. */
  lemma {:induction false} MissingHtmlRejected(cfg: Config, theme: Theme, text: string,
                                                parse: string -> Option<JsonObject>, data: JsonObject)
    requires ExtractJsonFromResponse(text).Some?
    requires parse(ExtractJsonFromResponse(text).value) == Some(data)
    requires forall k :: k in data ==> data[k].JString?
    requires "html" !in data
    ensures AttemptOutcome(cfg, theme, OutputText(text), parse) == Err(MissingRequiredFields)
  {
    var data' := parse(ExtractJsonFromResponse(text).value).value;
    assert data' == data;
    assert FieldText(data, "html") == Ok("");
    assert Strip("") == "";
    var f := ReadFields(OutputText(text), parse);
    assert f.Ok? && f.value.html == "" by {
      var t := FieldText(data, "title");
      var e := FieldText(data, "excerpt");
      assert t.Ok? && e.Ok?;
      assert f == Ok(Fields(Strip(t.value), Strip(e.value), Strip("")));
    }
  }

  /** A reply whose JSON object holds a title, an excerpt and an html as
      strings, the title and html not blank, is accepted with those values
      stripped, the excerpt cut and the storefront safety net applied. */
  lemma {:induction false} StringFieldsAccepted(cfg: Config, theme: Theme, text: string,
                                                parse: string -> Option<JsonObject>, data: JsonObject,
                                                title: string, excerpt: string, html: string)
    requires ExtractJsonFromResponse(text).Some?
    requires parse(ExtractJsonFromResponse(text).value) == Some(data)
    requires "title" in data && data["title"] == JString(title) && Strip(title) != ""
    requires "excerpt" in data && data["excerpt"] == JString(excerpt)
    requires "html" in data && data["html"] == JString(html) && Strip(html) != ""
    ensures AttemptOutcome(cfg, theme, OutputText(text), parse)
      == Ok(GeneratedPost(Strip(title), TruncateExcerpt(Strip(excerpt)),
                          WithCta(cfg.stanUrl, theme.key, Strip(html)), theme.category))
  {
    var f := ReadFields(OutputText(text), parse);
    assert f == Ok(Fields(Strip(title), Strip(excerpt), Strip(html))) by {
      assert FieldText(data, "title") == Ok(title);
      assert FieldText(data, "excerpt") == Ok(excerpt);
      assert FieldText(data, "html") == Ok(html);
    }
  }

  /** The body of one attempt, as the script runs it: read the reply, reject a
      blank title or html, append the storefront paragraph to the html in
      place when needed, and cut the excerpt. */
  method ProcessReply(cfg: Config, theme: Theme, reply: Reply, parse: string -> Option<JsonObject>)
    returns (outcome: Result<GeneratedPost, AttemptError>)
    ensures outcome == AttemptOutcome(cfg, theme, reply, parse)
  {
    var fields := ReadFields(reply, parse);
    if fields.Err? {
      return Err(fields.error);
    }
    var title, excerpt, html := fields.value.title, fields.value.excerpt, fields.value.html;
    if title == "" || html == "" {
      return Err(MissingRequiredFields);
    }
    if theme.key == SundayKey && cfg.stanUrl != "" && !Contains(html, cfg.stanUrl) {
      html := html + CtaParagraph(cfg.stanUrl);
    }
    var cut := if |excerpt| <= ExcerptLimit then |excerpt| else ExcerptLimit;
    return Ok(GeneratedPost(title, excerpt[..cut], html, theme.category));
  }

  /** The first `n` replies were all rejected. */
  ghost predicate RejectedUpTo(replies: seq<Reply>, parse: string -> Option<JsonObject>, n: nat)
    requires n <= |replies|
  {
    n == 0 || (RejectedUpTo(replies, parse, n - 1) && Rejected(replies[n - 1], parse))
  }

  /** Under `RejectedUpTo(n)` each of the first `n` attempts failed. */
  lemma {:induction false} RejectedUpToEachAttempt(replies: seq<Reply>, parse: string -> Option<JsonObject>,
                                                   n: nat, j: nat)
    requires j < n <= |replies|
    requires RejectedUpTo(replies, parse, n)
    ensures Rejected(replies[j], parse)
  {
    if j < n - 1 {
      RejectedUpToEachAttempt(replies, parse, n - 1, j);
    } else {
      assert replies[j] == replies[n - 1];
    }
  }

  /** Generates a post for `theme`: fails before calling the service when no
      API key is configured or the theme has no prompt template, then tries
      the service's replies in order and returns the first accepted one, or
      after three rejected attempts fails with the last attempt's error.
      `attempts` is the number of service calls made (the 1.5 s delay after
      each rejected attempt is not modelled). */
  method AiGeneratePost(cfg: Config, theme: Theme, isoWeek: int, replies: seq<Reply>,
                        parse: string -> Option<JsonObject>)
    returns (r: Result<GeneratedPost, GenError>, attempts: nat)
    requires |replies| == MaxAttempts
    ensures attempts <= MaxAttempts
    ensures cfg.openAiApiKey == "" ==> r == Err(MissingApiKey) && attempts == 0
    ensures cfg.openAiApiKey != "" && BuildPrompt(cfg, theme, isoWeek).Err? ==>
      r == Err(UnknownTheme) && attempts == 0
    ensures cfg.openAiApiKey != "" && BuildPrompt(cfg, theme, isoWeek).Ok? ==>
      attempts >= 1 && (r.Ok? || r.error.GenerationFailed?)
    ensures r.Ok? ==>
      && attempts >= 1
      && RejectedUpTo(replies, parse, attempts - 1)
      && AttemptOutcome(cfg, theme, replies[attempts - 1], parse) == Ok(r.value)
    ensures r.Err? && r.error.GenerationFailed? ==>
      && attempts == MaxAttempts
      && RejectedUpTo(replies, parse, MaxAttempts)
      && AttemptOutcome(cfg, theme, replies[MaxAttempts - 1], parse) == Err(r.error.lastError)
  {
    if cfg.openAiApiKey == "" {
      return Err(MissingApiKey), 0;
    }
    var prompt := BuildPrompt(cfg, theme, isoWeek);
    if prompt.Err? {
      return Err(UnknownTheme), 0;
    }

    var lastErr: Option<AttemptError> := None;
    for attempt := 1 to MaxAttempts + 1
      invariant RejectedUpTo(replies, parse, attempt - 1)
      invariant attempt > 1 ==> lastErr == Some(AttemptOutcome(cfg, theme, replies[attempt - 2], parse).error)
    {
      var outcome := ProcessReply(cfg, theme, replies[attempt - 1], parse);
      AttemptRejection(cfg, theme, replies[attempt - 1], parse);
      if outcome.Ok? {
        return Ok(outcome.value), attempt;
      }
      lastErr := Some(outcome.error);
    }
    return Err(GenerationFailed(lastErr.value)), MaxAttempts;
  }
}
