# Search tool and provider-error classifier of the agent platform

This project models two decision procedures of the agent's tool-execution path
and proves their properties in Dafny.

- **The Search tool** (`tools/search.py`). It reads one Serper (Google search)
  response and produces cited snippets: `CitedSnippet(index, text, link)`.
  - The answer box is read by priority: `answer`, then `snippet`, then `snippetHighlighted`.
  - At most five organic results are used.
  - Indices are 1-based and contiguous.
  - With no snippets, the answer is the fixed message "No good Google Search Result was found".
  - Otherwise the snippets go to the summariser unchanged.
  - A failed search request falls back to the Reason tool with the same goal, task and input.
  - The answer-box link quotes the query with `urllib.parse.quote`. This is modelled as
    UTF-8 encoding, then percent-encoding (section 2.1 of RFC 3986) of every byte outside
    the unreserved set of section 2.3 of RFC 3986 and `/`.
- **The error classifier** (`helpers.py`). `openai_error_handler` maps the exception of a
  model call to a classified `OpenAIError(cause, message, should_log)`.
  - The mapping is first-match over its `except` clauses.
  - A completed call passes its value through unchanged.
  - `parse_with_handling` turns an `OutputParserException` into the fixed parse-failure error.
    Any other exception from the parser is not caught.

Files:

- `python.dfy` (module `Python`): the Python built-ins the sources rely on. These are
  `None`, truthiness, `str.join`, `str.split`, `str.replace` and `str.startswith`.
  `str.split` appears only as the inverse of `str.join`.
- `quote.dfy` (module `UrlQuote`): `urllib.parse.quote` with `safe="/"`. Its partner is a
  percent-decoder, used to state the round trip.
- `search.dfy` (module `Search`): the Serper response as datatypes, and `Search.available`.
  - The spec functions `Snippets` and `SearchResponse`.
  - The imperative `SearchBody`, which models the loop of `Search._call`.
  - `OrganicEntry`, which models that loop's body with its inner attribute loop.
  - `Call`, which models `Search.call`.
- `helpers.dfy` (module `Helpers`): the exception kinds and the ordered `except` clauses.
  - `Classify`, the classifier.
  - `ErrorHandler`, which models `openai_error_handler`.
  - `ParseWithHandling`, which models `parse_with_handling`.

How the outside world is represented:

- The HTTP request is the parameter `fetched: SearchOutcome = Ok(results) | TransportError`.
- The model call and the parser are function parameters that return
  `CallOutcome = Completed(value) | Threw(exception)`.
- The summariser, `stream_string` and the Reason tool's stream are opaque tagged
  values of `Response`. A tag records which path answered and with which arguments.
- The default of `OpenAIError`'s `should_log` is defined outside the modelled files.
  It is the parameter `defaultShouldLog`, one value shared by every clause that does not set the flag.

Facts about the code that the model keeps:

- `_call` emits the answer-box snippet, when there is one, and then up to five organic snippets.
- The fixed message is "No good Google Search Result was found".
- A passed-through invalid-request or rate-limit message, and an unexpected exception, use
  `OpenAIError`'s default `should_log`. Only the other four cases set the flag from the custom key.

## Model

| member | source | states |
|---|---|---|
| `Python.Join` | platform/reworkd_platform/web/api/agent/tools/search.py:123 | `sep.join(parts)` is empty for no parts. Otherwise it starts with the first part and is as long as all parts plus one separator between neighbours. |
| `Python.JoinLayout` | platform/reworkd_platform/web/api/agent/tools/search.py:99 | In `sep.join(parts)`, each part stands at its place after the earlier parts and separators, and a separator stands right before every part but the first. |
| `Python.SplitJoin` | platform/reworkd_platform/web/api/agent/tools/search.py:123 | Joining pieces that hold no separator, then splitting on that separator, gives the pieces back. |
| `Python.Replace` | platform/reworkd_platform/web/api/agent/tools/search.py:96 | `s.replace("\n", " ")` keeps the length, replaces every newline and leaves every other character unchanged. No newline remains. |
| `UrlQuote.Utf8` | platform/reworkd_platform/web/api/agent/tools/search.py:107 | A character is encoded in 1 to 4 bytes. ASCII takes exactly one byte, equal to its code. The bytes of a longer encoding are all non-ASCII. |
| `UrlQuote.DecodeEncode` | platform/reworkd_platform/web/api/agent/tools/search.py:107 | Percent-decoding the output of `quote`'s byte encoder gives back every byte, in order. |
| `UrlQuote.QuoteAlphabet` | platform/reworkd_platform/web/api/agent/tools/search.py:107 | `quote(query)` contains only unreserved characters, `/` and `%`. Every `%` is followed by two upper-case hex digits. So it is safe after `?q=`. |
| `UrlQuote.QuoteKeepsSafeText` | platform/reworkd_platform/web/api/agent/tools/search.py:107 | A query made only of unreserved ASCII characters and `/` is left unchanged by `quote`. |
| `Search.AvailableIffKeySent` | platform/reworkd_platform/web/api/agent/tools/search.py:59-60 | `available()` holds exactly when `serp_api_key` is neither None nor `""`. This is exactly when the request would send a non-empty `X-API-KEY`. |
| `Search.AnswerBoxPriority` | platform/reworkd_platform/web/api/agent/tools/search.py:88-99 | There is answer-box text exactly when one of `answer`, `snippet` and `snippetHighlighted` is truthy. The first truthy one wins. A chosen `snippet` keeps its length, each newline becomes a space and every other character is unchanged. A chosen `snippetHighlighted` holds each part at its place, in order, with ", " before every part but the first. |
| `Search.AbsentBoxSameAsEmpty` | platform/reworkd_platform/web/api/agent/tools/search.py:88 | A box with none of the three fields truthy gives the same result as no box. |
| `Search.AnswerSnippets` | platform/reworkd_platform/web/api/agent/tools/search.py:101-109 | The answer-box snippet exists exactly when there is answer text. It has index 1, that text, and link `https://www.google.com/search?q=` + `quote(query)`. |
| `Search.OrganicSnippetShape` | platform/reworkd_platform/web/api/agent/tools/search.py:112-123 | An organic snippet's link is `link` or `""`. Its lines are the snippet (if the key is present), then one `attr: value.` line per attribute. When there is at least one line and none holds a newline, its text splits back into exactly those lines. A result with neither snippet nor attributes still gives a snippet, with empty text. |
| `Search.Snippets` | platform/reworkd_platform/web/api/agent/tools/search.py:85-123 | There are as many snippets as the smaller of 5 and the number of organic results, plus one if there is answer text, so at most 6. Index i is i+1, with no gaps. The answer-box snippet comes first. The first five organic results follow in order. |
| `Search.NoResultIffNoSnippets` | platform/reworkd_platform/web/api/agent/tools/search.py:125-128 | The answer is the fixed "No good Google Search Result was found" exactly when there is no answer text and `organic` is empty. Otherwise the summariser gets the snippets unchanged. A body without `organic` raises `KeyError`. |
| `Search.OrganicEntry` | platform/reworkd_platform/web/api/agent/tools/search.py:112-123 | The loop body builds `texts` step by step and returns exactly the organic snippet defined by `OrganicSnippet`. |
| `Search.SearchBody` | platform/reworkd_platform/web/api/agent/tools/search.py:77-128 | `Search._call` appends snippets inside the loop over `organic[:5]`, numbering each one from the current list length. It returns exactly `SearchResponse`, the spec function whose properties are proved above. |
| `Search.Call` | platform/reworkd_platform/web/api/agent/tools/search.py:62-75 | A transport error gives exactly the Reason tool's response for the same goal, task and input. A successful request gives the search's own response. Of the modelled outcomes, only the missing-`organic` `KeyError` escapes. |
| `Helpers.FirstCatching` | platform/reworkd_platform/web/api/agent/helpers.py:33-65 | The chosen `except` clause matches the exception, and no earlier clause does. |
| `Helpers.Classify` | platform/reworkd_platform/web/api/agent/helpers.py:33-65 | Every exception becomes a classified error whose cause is that exception. |
| `Helpers.ErrorHandler` | platform/reworkd_platform/web/api/agent/helpers.py:28-65 | A completed call returns its value unchanged. Every modelled exception (with a string `user_message`) leaves as a classified error with that cause, the one the first matching `except` clause builds, never raw. |
| `Helpers.ParseWithHandling` | platform/reworkd_platform/web/api/agent/helpers.py:19-25 | Returns the parser's value on success. An `OutputParserException` becomes the fixed parse-failure message with the default flag. Any other exception propagates unchanged. |
| `Helpers.ServiceUnavailableCase` | platform/reworkd_platform/web/api/agent/helpers.py:33-39 | Service unavailable gives the fixed status-page message, logged exactly when no custom key is set. |
| `Helpers.InvalidRequestCase` | platform/reworkd_platform/web/api/agent/helpers.py:40-47 | A message starting "The model:" gives the fixed model-access message, logged exactly when no custom key is set. Any other message is passed through verbatim with the default flag. |
| `Helpers.AuthenticationCase` | platform/reworkd_platform/web/api/agent/helpers.py:48-53 | Authentication failure gives the fixed API-key message, logged exactly when no custom key is set. |
| `Helpers.RateLimitCase` | platform/reworkd_platform/web/api/agent/helpers.py:54-61 | A message starting "You exceeded your current quota" gives the fixed quota message, logged exactly when no custom key is set. Any other message is passed through verbatim with the default flag. |
| `Helpers.OtherExceptionCase` | platform/reworkd_platform/web/api/agent/helpers.py:62-65 | Any other exception, a parser exception included, gives the fixed unexpected-issue message with the default flag. |
| `Helpers.ShouldLogRule` | platform/reworkd_platform/web/api/agent/helpers.py:33-65 | `should_log` is `not custom_api_key` for the four key-dependent cases (outage, model access, authentication, quota), and the one shared default for every other case. |
| `Helpers.SettingsOnlyAffectLogging` | platform/reworkd_platform/web/api/agent/helpers.py:33-65 | The message depends on neither the settings nor the default. The settings act only through the truthiness of the custom key, so None and `""` behave alike. |
| `Helpers.MessageSource` | platform/reworkd_platform/web/api/agent/helpers.py:33-65 | The provider's own text reaches the user only for a non-special invalid request or rate limit. Every other message is one of the fixed texts. |

## Left out

- The HTTP request of `_google_serper_search_results` is not modelled. This covers the session, the headers other than the key, the `search_type` path and `raise_for_status`. Its outcome is a parameter. Only the `X-API-KEY` value is modelled, by `ApiKeyHeader`.
- `Reason.call`, `summarize_with_sources` and `stream_string` are opaque tags. They are thin wrappers over the language-model chain and the streaming response. The second argument of `stream_string` is not recorded.
- Asynchronous execution, streaming, cancellation and `logger.exception` are not modelled. They are concurrency and telemetry, not decisions.
- `call_model_with_handling` is not modelled. It only builds the chain and hands its call to `openai_error_handler`, which is modelled as `ErrorHandler`.
- The value of `OpenAIError`'s default `should_log` is not modelled. It is defined in `web/api/errors.py`, which is not part of this model, so it is the parameter `defaultShouldLog`.
- JSON values are modelled as strings, and a `null` for a key is read like an absent key. This is unfaithful in these cases:
  - an organic `snippet` or `link` that is `null`: Python tests these by key presence and would use the `None`;
  - `"organic": null`: Python's `None[:5]` raises `TypeError`, where the model gives `KeyError("organic")`;
  - `"attributes": null`: `.get("attributes", {})` returns `None` and `.items()` raises `AttributeError`, which escapes `Search.call`; the model reads it as no attributes.
  Non-string `answer` and attribute values are not modelled, nor are the `TypeError`s that other malformed bodies would raise.
- Only `custom_api_key` is modelled from the model settings. The model name and sampling parameters do not affect the classifier.
- The static tool descriptions (`description`, `public_description`, `arg_description`, `image_url`) are not modelled. They have no behaviour.
- The prompt templates, the request dependencies with their run and task records, and process startup are not part of this model.
- Tool selection by the registry is not part of this model. It is outside the two modelled files.
- Request failures other than `ClientResponseError` are not represented in `SearchOutcome`. Examples are connection errors and timeouts raised by `session.post`. In the source they are not caught by `Search.call` and propagate from it.
- `quote` raising `UnicodeEncodeError` on a string that holds a lone surrogate is not modelled. A Dafny `char` cannot hold a surrogate.
- Helpers.ErrorHandler: `user_message` is modelled as a string. In the OpenAI client library it can be `None`, and then `startswith` on it (helpers.py lines 41 and 55) raises `AttributeError` inside the `except` clause, which leaves `openai_error_handler` raw. The model's "never raw" holds only for string messages.
