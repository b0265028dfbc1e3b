# Verified model of the autopost script

`autopost.py` writes one blog post on each of four weekdays. It follows these steps:

- It picks the day's theme.
- It asks a text-generation service for a JSON object with `title`, `excerpt` and `html`.
- It checks the reply and post-processes it.
- It sends the result to the WordPress.com REST API, either to be published now or scheduled a few minutes ahead.

This project models the deterministic logic between those service calls and proves what that logic guarantees:

- `wrappers.dfy`: `Option` and `Result`.
- `text.dfy` covers the Python string operations the script relies on:
  - `str.strip()` with Python's `isspace` character set
  - the substring test `a in b`
  - ASCII `str.lower()`
- `settings.dfy`: the module-level configuration read from the environment. The site id, the storefront URL and the API key are stripped, the post mode is stripped and lower-cased, the category names and `FUTURE_MINUTES` are taken as they are, and an unset variable takes its default.
- `themes.dfy`:
  - the weekday-to-theme table
  - the three-week Friday rotation driven by the ISO 8601 week number
  - the prompt template choice, with the values interpolated into it
- `extraction.dfy` picks the JSON candidate out of a reply:
  - It strips the reply.
  - It takes the whole reply when the stripped text is brace-delimited.
  - Otherwise it takes the match of `re.search(r"\{.*\}", text, re.DOTALL)`, which is the span from the first `{` to the last `}`. This is proved against a leftmost-longest specification of the search.
- `generation.dfy`: one generation attempt, and the three-attempt retry loop of `ai_generate_post` as a method.
  - One attempt reads the fields, rejects a blank title or html, cuts the excerpt to 160 characters, and appends the storefront paragraph to a Sunday post that lacks the link.
  - The retry method keeps the last error. Its contract ties its result to the per-attempt specification `AttemptOutcome`.
- `publishing.dfy`: the post-creation request of `wpcom_create_post`. This covers the target URL, the bearer header, the status, the optional `date`, and the payload map built and then extended in place.

The script's services are inputs of the model:

- The generation service's three possible replies are a sequence `replies`. Each reply is an error or an output text.
- `json.loads` is a function parameter `parse` from the candidate text to an optional JSON object.
- The weekday, the ISO week number and the current local time are integer parameters.

Three behaviours of `autopost.py` are worth stating plainly, since the model follows them:

- A reply whose stripped text opens with `{` and closes with `}` is parsed whole. If it does not parse, the attempt fails; there is no fallback to the brace search (autopost.py:334-335).
- A missing excerpt is accepted. A missing or falsy value of any field reads as `""` (autopost.py:364-366).
- `autopost.py` attaches no post tags and has no call-to-action style rotation in its prompts. It publishes on the day it runs: it does not scan forward for a publish slot, and it does not check whether a post is already scheduled for the day.

## Model

| member | source | states |
|---|---|---|
| Settings.LoadConfig | autopost.py:23-39 | The site id, storefront URL and API key are the stripped variable values, and an unset one is empty. The post mode is the stripped, lower-cased value, defaulting to `publish`; it is stripped and has no upper-case letter. `FUTURE_MINUTES` is the given value, defaulting to 5. Each category is the variable's value or its documented default. |
| Settings.DefaultPostModeIsNormal | autopost.py:32 | Stripping and lower-casing the default mode `publish` leaves it unchanged. |
| Text.LeadingSpace | autopost.py:331 | The count of leading whitespace characters (`str.strip`) is within the string. Every counted character is whitespace, and the next one is not. |
| Text.TrailingSpace | autopost.py:331 | The same for the trailing whitespace. |
| Text.Strip | autopost.py:331 | `str.strip()` has no whitespace at either end and is no longer than its input. |
| Text.StripIsTrimmedSlice | autopost.py:331 | `strip()` returns a contiguous slice of its input. Everything before and after that slice is whitespace. |
| Text.StripIdempotent | autopost.py:331 | Stripping twice is the same as stripping once. |
| Text.Contains | autopost.py:373 | Python's `t in s`: never true for a needle longer than the haystack, and true when the haystack starts with the needle (in particular for the empty needle). ContainsIsOccurrence gives the full meaning. |
| Text.ContainsIsOccurrence | autopost.py:373 | The left-to-right substring search behind `STAN_URL not in html` returns true exactly when the URL occurs at some index of the html. |
| Text.ContainsInMiddle | autopost.py:373-374 | A string found in the middle part of a concatenation is found in the whole. |
| Text.LowerChar | autopost.py:32 | `lower()` on one character leaves no ASCII capital. It changes only capitals, each by 32, and preserves whitespace. |
| Text.LowerAscii | autopost.py:32 | `lower()` keeps the length and lowers each character. A stripped string stays stripped. |
| Themes.PickThemeForToday | autopost.py:141-152 | A theme is returned exactly on weekdays 0, 2, 4 and 6. On those days the theme keys are `mom_chaos_monday`, `wtfs_wednesday`, `fuck_it_friday` and `feed_the_chaos_sunday`, in that order. Each theme carries its configured category. |
| Themes.ThemeKeysDistinct | autopost.py:143-150 | Different post days get themes with different keys. |
| Themes.FridayRotationType | autopost.py:125-133 | The Friday type is always A, B or C. |
| Themes.FridayRotationCycles | autopost.py:126-133 | Week 1 gives A, and each following week moves one step along A, B, C, A. So weeks 1, 2 and 3 give A, B and C. |
| Themes.FridayRotationSameType | autopost.py:133 | Two weeks share a type exactly when they are a multiple of 3 weeks apart. Weeks n and n + 3 agree. |
| Themes.BuildPrompt | autopost.py:155-320 | Fails exactly for a key outside the four theme keys, and otherwise picks the template of that key. The Friday template embeds `friday_rotation_type` of the week. The Sunday template embeds the storefront URL, or `[STAN STORE LINK]` when no URL is set. |
| Themes.PickedThemesHavePrompts | autopost.py:143-150 | Every theme the weekday table returns has a prompt template, so "Unknown theme key" is unreachable for a scheduled day. |
| Extraction.FirstIndexOf | autopost.py:338 | Returns the first index of the character, or None exactly when the character does not occur. |
| Extraction.LastIndexOf | autopost.py:338 | Returns the last index of the character before a bound, or None exactly when the character does not occur there. |
| Extraction.BraceSearch | autopost.py:338-340 | A span found by the first-`{`/last-`}` scan is the leftmost-longest match of `\{.*\}` with DOTALL. |
| Extraction.BraceSearchFailsOnlyWithoutMatch | autopost.py:338-340 | The search fails exactly when no `{` is followed later by a `}`. |
| Extraction.WholeTextIsSearchResult | autopost.py:334-335 | A brace-delimited text is its own search result. |
| Extraction.SelectCandidate | autopost.py:334-341 | Any candidate is at least two characters long, opens with `{` and closes with `}`. |
| Extraction.SelectCandidateIsSearchMatch | autopost.py:333-341 | There is no candidate exactly when no `{`…`}` span exists. Otherwise the candidate is the regular expression's match. |
| Extraction.ExtractJsonFromResponse | autopost.py:327-341 | The candidate of a reply opens with `{` and closes with `}`. |
| Extraction.ExtractionIsSearchMatch | autopost.py:331-341 | Extraction returns the search match within the stripped reply. It fails ("No JSON object found") exactly when the stripped reply has no `{`…`}` span. |
| Extraction.PureJsonIsTakenWhole | autopost.py:334-335 | A reply whose stripped text is brace-delimited is taken whole. |
| Extraction.ExtractionIgnoresSurroundingSpace | autopost.py:331 | Extraction gives the same result on a reply and on its stripped form. |
| Generation.FieldText | autopost.py:364-366 | `data.get(key) or ""` gives "" for a missing key and for a falsy non-string. A string value gives that string. It fails exactly for a truthy value that is not a string. |
| Generation.ReadFields | autopost.py:356-366 | A service error, a reply without a JSON object and an unparsable candidate fail with those errors. Otherwise the title, excerpt and html are read in that order, the first field that is a truthy non-string fails the attempt, and a successful read gives the three stripped `FieldText` values. |
| Generation.TruncateExcerpt | autopost.py:378 | `excerpt[:160]` is the prefix of length min(len, 160). An excerpt of at most 160 characters is unchanged. |
| Generation.CtaParagraph | autopost.py:374 | The fallback paragraph carries the storefront URL right after its opening `<p><a href="`. |
| Generation.CtaParagraphContainsLink | autopost.py:374 | The appended fallback paragraph contains the storefront URL. |
| Generation.WithCta | autopost.py:373-374 | The html changes exactly when the theme is Sunday, the URL is set and the html lacks it. It then becomes the html followed by the fallback paragraph. Afterwards a Sunday html with a URL configured contains the URL. |
| Generation.AttemptOutcome | autopost.py:361-381 | One attempt, from reply to post. An accepted post has a non-empty title and html, the theme's category, and an excerpt of at most 160 characters. AttemptRejection, AcceptedPostIsValid, MissingHtmlRejected and StringFieldsAccepted state the rest. |
| Generation.AttemptRejection | autopost.py:364-369 | An attempt fails exactly when reading the reply fails or the stripped title or html is empty. A read failure keeps its error, and a blank field gives "missing required fields". |
| Generation.AcceptedPostIsValid | autopost.py:364-381 | An accepted post has a non-empty stripped title and a non-empty html. Its excerpt is at most 160 characters and its category is the theme's. A Sunday post with a URL configured links to the storefront. |
| Generation.MissingHtmlRejected | autopost.py:364-369 | A JSON object with string values and no `html` is rejected as missing required fields. |
| Generation.StringFieldsAccepted | autopost.py:362-381 | A JSON object with string title, excerpt and html, where the title and html are not blank, yields those values stripped, with the excerpt cut and the storefront link applied. |
| Generation.ProcessReply | autopost.py:361-381 | One attempt's imperative body, with the in-place `html +=` and the excerpt slice, equals the attempt specification `AttemptOutcome`. |
| Generation.RejectedUpToEachAttempt | autopost.py:354-386 | If the first n attempts were rejected, each of them was rejected. |
| Generation.AiGeneratePost | autopost.py:344-388 | A missing API key fails before any attempt. An unknown theme fails before any attempt. There are at most 3 attempts, and the first accepted attempt is returned, after every earlier attempt was rejected. After three rejected attempts it fails with the third attempt's error. |
| Publishing.WpcomCreatePost | autopost.py:82-114 | An empty site id fails. Otherwise the request goes to `.../sites/<id>/posts/new` with `Bearer <token>`. The status is `future` exactly in future mode, and `publish` otherwise. A `date` of now + `FUTURE_MINUTES` minutes is present exactly in future mode. Title, content, excerpt and categories come from the post, and there are no other keys. |

## Left out

- HTTP calls are not modelled:
  - the OAuth2 token request (`wpcom_get_token`)
  - the post-creation `requests.post` and `raise_for_status`
  - the OpenAI client call

  The model returns the request instead of sending it, and the generation service's replies are inputs.
- `json.loads` is a parameter, not a parser. A brace-delimited candidate either parses to a JSON object or fails.
- The clock, time zone, ISO calendar and `isoformat()` are not modelled. The weekday, ISO week number and local time are inputs, and the scheduled date is a `LocalTime` value in seconds rather than its ISO 8601 text.
- `int()` parsing of `FUTURE_MINUTES` is not modelled: its value arrives already as an integer. `OPENAI_MODEL`, `BLOG_TIMEZONE` and the WordPress.com credentials are read only by the left-out calls.
- The `print` logging and the `time.sleep(1.5)` after a failed attempt are not modelled.
- `main` is not modelled: it only chains the modelled steps and the left-out calls.
- The fixed prose of the four prompt templates is not modelled. Only the template choice and the interpolated values are.
- Generation.AiGeneratePost: the service is assumed to produce one reply per attempt, given up front as a sequence of three. Exceptions other than the ones modelled (a service error, no JSON object, unparsable JSON, a non-string field, a blank title or html) are not represented.
- Text.LowerChar, Text.LowerAscii: lower-case ASCII letters only. No other character lower-cases to a letter of `future`, so the post-mode comparison is unaffected.
