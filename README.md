# Legal document analyser: a verified model

The system is a browser side panel with a small FastAPI backend. It answers
questions about an uploaded legal PDF, summarises it, lists its risks and keeps
a chat about it. The language model does the hard work. This project models
the deterministic code around the model calls and proves what that code
guarantees for every possible model reply:

- `fastapi/model.py`:
  - the API-key check and how pages are joined;
  - the 8000-character head of the document that the summary and risk prompts embed;
  - the three ways a structured result is recovered from a free-form reply:
    - question answering parses the whole reply, then the span from the first `{` to the last `}`, then gives a fixed error answer;
    - summaries and risks remove code fences, parse, and otherwise fall back to a plain-text reading;
  - the transcript that the chat model receives.
- `fastapi/main.py`:
  - the per-session message store of `chat_endpoint`;
  - the seed message, the 5000-character document preview, the appends, and the history filter.
- `extension/sidepanel/src/lib/api.service.ts`: how the client turns each JSON body into what the UI shows, using JavaScript's `||` defaults.

The language model is a function parameter `llm: ChatModel` from a prompt to a
reply. `json.loads` is a function parameter `parse: JsonParser`, where `None`
means `JSONDecodeError`. Every lemma holds for all models and all parsers.
Python string operations are modelled with Python's own semantics in
`PyText`:

- `strip` uses the `str.isspace` set;
- slices accept negative and out-of-range bounds;
- `split` always returns at least one piece;
- `replace` removes leftmost occurrences that do not overlap.

The session store is a class with a `map` field that its methods update in
place. The two loops of the source stay loops, each proved against a function
that specifies it:

- the key-point loop of the summary fallback;
- the transcript loop of `chat_with_ai`.

Modules:

- `Wrappers`: Option and Result.
- `PyText`: Python `str` operations.
- `JsonValue`: JSON values.
- `LegalModel`: `fastapi/model.py`.
- `ChatServer`: `fastapi/main.py`.
- `ApiService`: the client.

### Behaviour of the code worth knowing

- Question answering strips no code fences. A fenced object is still recovered through the brace span (`QaRecoversFencedObject`).
- Summaries and risks take no brace span. A reply with prose before a fenced object goes to the plain-text fallback.
- The summary fallback uses the reply's first line even when that line is empty.
- A short `key_points` list from a parsed reply is returned as it is, with no padding to four.
- Appending to a chat session cannot fail for an unknown session. An unseen session id is created with the seed message first.
- When the parse result is not an object, the summary and risk fast paths raise `AttributeError`, which nothing catches. This is modelled as `Failure(NonObjectJson)`.
- `split('\n')` never returns an empty list, so the "Unable to generate summary" branch of the summary fallback cannot be taken.
- The client turns a backend confidence of 0.0 into 0.85, because `0 || 0.85` is 0.85 in JavaScript. The backend's "no relevant information" answer is therefore shown with 85% confidence (`NoHitsShownWithDefaultConfidence`).
- The backend passes a parsed `risks` value through unchecked. When it is not a list, or a list holding `null`, the client's `data.risks?.map(...)` throws. No risk report is shown, and the error is only logged to the console (`UncheckedRisksFail`, `TextRisksFail`).

## Model

| member | source | states |
|---|---|---|
| PyText.Strip | fastapi/model.py:164 | `str.strip()`: the result is the piece of the input that starts where its leading whitespace ends, everything cut off on either side is whitespace, neither end of the result is whitespace, and the input is returned unchanged exactly when it had no whitespace at its ends |
| PyText.TrimCuts | fastapi/model.py:164 | stripping characters from both ends keeps one contiguous piece, starting where the dropped run at the front ends, and cuts only dropped characters on either side |
| PyText.TrimLeft | fastapi/model.py:181 | `lstrip(chars)`: the result is a suffix, every dropped character is in the set, and the new first character is not |
| PyText.Find | fastapi/model.py:112 | `find`: -1 exactly when the character is absent, otherwise the index of its first occurrence |
| PyText.RFind | fastapi/model.py:113 | `rfind`: -1 exactly when the character is absent, otherwise the index of its last occurrence |
| PyText.SliceBound | fastapi/model.py:114 | a slice bound is clamped into the string: a bound within it is kept, a negative bound counts from the end, a bound past the end becomes the length, and a bound before the start becomes 0 |
| PyText.Slice | fastapi/model.py:114 | `s[start:stop]` is never longer than `s`: in-range bounds give `s[start..stop]`, crossed bounds give the empty text, and otherwise the piece between the clamped bounds |
| PyText.Prefix | fastapi/model.py:193-194 | `s[:n]` on a string or a list is a prefix of at most `n` items: the whole of it when it is short enough, exactly `n` otherwise |
| PyText.Join | fastapi/model.py:33 | `sep.join`: no pieces give the empty text, one piece gives itself, and the text starts with the first piece |
| PyText.Split | fastapi/model.py:174 | `split('\n')` returns at least one piece, and no piece holds the separator |
| PyText.JoinSplit | fastapi/model.py:174 | joining the pieces of a split with the separator gives back the original text |
| PyText.SplitJoin | fastapi/model.py:33 | pieces that hold no separator are recovered by splitting what joining them produced |
| PyText.JoinLength | fastapi/model.py:33 | joining `n >= 1` pieces adds exactly `n - 1` separators to their total length |
| PyText.Lower | fastapi/model.py:251 | `lower()` keeps the length and lowers each ASCII letter in place |
| PyText.Upper | fastapi/model.py:297 | `upper()` keeps the length and raises each ASCII letter in place |
| PyText.Contains | fastapi/model.py:254 | `sub in s` holds exactly when `sub` occurs at some index of `s` |
| PyText.RemoveAll | fastapi/model.py:164 | `replace(pat, "")` never lengthens the text, and an empty pattern changes nothing |
| PyText.RemoveAllAbsent | fastapi/model.py:164 | a text in which the pattern does not occur comes out of `replace(pat, "")` unchanged |
| PyText.RemoveFenceComplete | fastapi/model.py:164 | after `replace("```", "")` no run of three backticks is left |
| PyText.RemoveFenceLeadingTicks | fastapi/model.py:164 | removing fences leaves `k mod 3` of a text's `k` leading backticks |
| PyText.StripKeepsOut | fastapi/model.py:164 | stripping cannot create a substring that was absent |
| PyText.RemoveAllPassesPlainText | fastapi/model.py:164 | removing a backtick-led pattern leaves text without backticks untouched |
| LegalModel.GetApiKey | fastapi/model.py:20-24 | the key is refused exactly when it is unset, empty or the placeholder, and otherwise returned unchanged |
| LegalModel.LoadFullText | fastapi/model.py:32-33 | no pages give the empty text; `n >= 1` pages give their total length plus `n - 1` newlines, starting with the first page |
| LegalModel.LoadFullTextSplits | fastapi/model.py:32-33 | pages without line breaks are recovered from the joined text |
| LegalModel.CreateSummaryPrompt | fastapi/model.py:128-132 | the summary prompt embeds the whole document up to 8000 characters, and otherwise exactly its first 8000 |
| LegalModel.CreateRiskPrompt | fastapi/model.py:202-208 | the risk prompt embeds the whole document up to 8000 characters, and otherwise exactly its first 8000 |
| LegalModel.JsonCandidate | fastapi/model.py:112-114 | the second QA attempt parses the span from the first `{` to the last `}`; without such a span it parses at most a lone `}` |
| LegalModel.AnswerQuestions | fastapi/model.py:87-122 | with no retrieved chunks the answer is the fixed "no relevant information" result with confidence 0.0, and the model is not consulted |
| LegalModel.RecoverQa | fastapi/model.py:106-122 | the QA result never fails: it is the whole-text parse when there is one, and otherwise the brace-span parse or, failing that, the fixed error result |
| LegalModel.QaRecoversEmbeddedObject | fastapi/model.py:110-114 | an object surrounded by prose without braces is recovered as that object's own parse |
| LegalModel.QaRecoversFencedObject | fastapi/model.py:107-114 | a reply fenced as json is recovered through the brace span, with no fence stripping |
| LegalModel.StripFences | fastapi/model.py:162-164 | the cleaned reply has no fence left and no whitespace at either end, and a reply without backticks is only stripped |
| LegalModel.PlainPassesFences | fastapi/model.py:164 | removing the json code fence and then the bare code fence leaves a text without backticks as it is |
| LegalModel.StripFencesUnwraps | fastapi/model.py:164 | a json-fenced text comes out as the stripped text inside the fence |
| LegalModel.BulletText | fastapi/model.py:180-181 | a key point is a suffix of the stripped line, everything cut from its front is a bullet marker or a space, and it starts with neither |
| LegalModel.BulletPoints | fastapi/model.py:178-181 | at most one key point per line |
| LegalModel.BulletPointsEmpty | fastapi/model.py:178-184 | no key point is collected exactly when no line is a bullet |
| LegalModel.FallbackKeyPoints | fastapi/model.py:183-194 | between one and four key points: the generic four when no line is a bullet, otherwise the first `min(n, 4)` bullet texts |
| LegalModel.FallbackSummary | fastapi/model.py:174-193 | the fallback summary is a prefix of the reply, at most 500 characters, without a line break, and stops only at the limit or at the first line break |
| LegalModel.FirstLineIsHead | fastapi/model.py:174-175 | the first piece of `split('\n')` is the reply up to its first line break |
| LegalModel.SummaryFallback | fastapi/model.py:174-196 | the fallback summary is the reply's first line cut to 500 characters (a line-break-free prefix of the reply), the key points are the fallback points of the remaining lines (one to four strings), and the type is "Legal Document" |
| LegalModel.CollectKeyPoints | fastapi/model.py:178-181 | the loop collects exactly the bullet texts of the lines, in order |
| LegalModel.SummaryFromReply | fastapi/model.py:160-196 | the result fails exactly when the cleaned reply parses to a non-object; text that is not JSON gives the fallback; an object gives each present field and the defaults "", [] and "Unknown Document" for missing ones |
| LegalModel.SummarizeDocument | fastapi/model.py:155-196 | the summary, including the key-point loop, is the recovery chain applied to the model's reply to the summary prompt |
| LegalModel.SummaryFencedRoundTrip | fastapi/model.py:160-171 | a summary object sent in a json fence is returned field for field |
| LegalModel.SummaryPlainRoundTrip | fastapi/model.py:160-171 | a summary object sent as plain JSON, without backticks, is returned field for field |
| LegalModel.FallbackRiskLevel | fastapi/model.py:251-259 | "high" exactly when the lowered reply mentions high or significant risk; "low" exactly when it mentions only low or minimal risk; "medium" otherwise |
| LegalModel.RiskFromReply | fastapi/model.py:238-280 | it fails exactly when the cleaned reply parses to a non-object; a reply that is not JSON gives the keyword level and the two fixed risks; an object gives its `risk_level` and `risks`, defaulting to "medium" and [] |
| LegalModel.AnalyzeRisks | fastapi/model.py:233-280 | one model call on the risk prompt; it fails exactly when the cleaned reply parses to a non-object, an object reply gives its `risk_level` (default "medium") and `risks` (default []), and a reply that is not JSON gives the keyword level and the two fixed risks |
| LegalModel.RiskFallbackLevelIsKnown | fastapi/model.py:249-280 | the fallback level is one of low, medium and high, and the risks are the two fixed ones |
| LegalModel.RiskFencedRoundTrip | fastapi/model.py:238-248 | a risk object sent in a json fence is returned field for field |
| LegalModel.RiskPlainRoundTrip | fastapi/model.py:238-248 | a risk object sent as plain JSON, without backticks, is returned field for field |
| LegalModel.TranscriptAppend | fastapi/model.py:295-298 | the transcript of two runs of messages is the concatenation of their transcripts |
| LegalModel.TranscriptAt | fastapi/model.py:295-298 | each message, system messages included, contributes its own `ROLE: content` line at its own place |
| LegalModel.RenderTranscript | fastapi/model.py:295-298 | the loop builds exactly the transcript of all messages |
| LegalModel.ChatWithAi | fastapi/model.py:283-319 | the reply is the model's answer to the transcript of the whole message list |
| ChatServer.Preview | fastapi/main.py:102 | the preview is the text itself up to 5000 characters, and otherwise its first 5000 followed by "..." |
| ChatServer.PreviewTurn | fastapi/main.py:102-103 | the preview message is a system message: the upload announcement for the file name followed by the preview, so a short text is included verbatim |
| ChatServer.UploadTurns | fastapi/main.py:94-103 | a call adds one system preview message exactly when a readable file came with it, and none otherwise; that message is the preview of the file's joined pages under its file-name header |
| ChatServer.Visible | fastapi/main.py:120 | the history is never longer than the session and holds no system message |
| ChatServer.VisibleAppend | fastapi/main.py:120 | filtering a concatenation filters each part |
| ChatServer.VisibleMembers | fastapi/main.py:120 | a message is in the visible history exactly when it is in the session and is not a system message |
| ChatServer.VisibleIdempotent | fastapi/main.py:120 | filtering the visible history again changes nothing |
| ChatServer.NoSystemInExchanges | fastapi/main.py:108-120 | user and assistant pairs pass the filter unchanged, two turns per call |
| ChatServer.VisibleAfterExchanges | fastapi/main.py:90-120 | a session made of the seed and `N` message/reply pairs shows exactly those `2N` turns |
| ChatServer.ExchangeTurnsLast | fastapi/main.py:108-114 | one more exchange adds its message and then its reply at the end of the session |
| ChatServer.ChatWithoutFile | fastapi/main.py:90-120 | a call without a file on a session of the seed and `N` pairs leaves the seed and `N + 1` pairs, the last being this call, and shows exactly those `2N + 2` turns |
| ChatServer.ChatSessions.constructor | fastapi/main.py:30 | the store starts empty |
| ChatServer.ChatSessions.SessionOrSeed | fastapi/main.py:90-91 | a call starts from the stored session, or from exactly the seed message for an unseen id; either way the first message is the seed |
| ChatServer.ChatSessions.Chat | fastapi/main.py:85-122 | see the paragraph after this table |
| ChatServer.ChatSessions.Converse | fastapi/main.py:103-114 | the preview, the user's message and then the reply are appended in that order; the model sees the session after the user's message |
| ChatServer.ChatSessions.Append | fastapi/main.py:108 | one message is appended to one session and every other session is unchanged |
| ApiService.OrString | extension/sidepanel/src/lib/api.service.ts:97 | `a || b` on a string keeps a non-empty value and otherwise gives the default |
| ApiService.StringField | extension/sidepanel/src/lib/api.service.ts:93-99 | a string field is read exactly when the body holds a string there, and then it is that string |
| ApiService.NumberField | extension/sidepanel/src/lib/api.service.ts:98 | a number field is read exactly when the body holds a number there, and then it is that number |
| ApiService.StringsField | extension/sidepanel/src/lib/api.service.ts:99 | a string-list field is read exactly when the body holds an array of strings there, and then it is those strings in order |
| ApiService.QaBody | extension/sidepanel/src/lib/api.service.ts:93-99 | reading a `null` body throws; any other non-object has none of the fields; an object gives its answer, response, confidence and sources |
| ApiService.ToQaResponse | extension/sidepanel/src/lib/api.service.ts:96-100 | see the paragraph after this table |
| ApiService.NoHitsShownWithDefaultConfidence | extension/sidepanel/src/lib/api.service.ts:98 | the backend's zero-confidence "no relevant information" answer is shown with confidence 0.85 and no sources |
| ApiService.ToSummaryResponse | extension/sidepanel/src/lib/api.service.ts:121-125 | a missing summary becomes empty and missing key points become none; a missing or empty type becomes "Unknown Document Type"; present values are kept |
| ApiService.SummaryBody | extension/sidepanel/src/lib/api.service.ts:118-124 | reading a `null` body throws; any other non-object has none of the fields; an object gives its summary, key points and type |
| ApiService.SummaryBodyReadsFields | extension/sidepanel/src/lib/api.service.ts:118-125 | a summary body with string fields and a string list is read back field for field |
| ApiService.SummaryFallbackShown | fastapi/model.py:172-196 | when the reply is not JSON, the side panel shows the fallback summary, one to four key points and "Legal Document" |
| ApiService.OverallRisk | extension/sidepanel/src/lib/api.service.ts:146-153 | Low exactly for "low"; High exactly for "high"; Medium for anything else, including a missing or capitalised level; each level's backend name maps back to it |
| ApiService.ToRisk | extension/sidepanel/src/lib/api.service.ts:154-159 | see the paragraph after this table |
| ApiService.ToRiskResponse | extension/sidepanel/src/lib/api.service.ts:152-160 | the overall level goes through the table; the risks are mapped one by one, in the same order and number; a missing list gives no risks |
| ApiService.RiskItem | extension/sidepanel/src/lib/api.service.ts:154-159 | an object element gives its `type`, `category`, `description`, `severity` and `recommendation` strings; any other non-null element has none of them |
| ApiService.RiskBody | extension/sidepanel/src/lib/api.service.ts:142-160 | reading throws exactly for a `null` body or a `risks` value that is neither `null` nor an array or that holds `null`; otherwise the level is read and the list gives one entry per element, in order; a missing or `null` list gives none |
| ApiService.UncheckedRisksFail | fastapi/model.py:246-248 | a parsed `risks` value that the client cannot map passes the backend unchanged, and the client then throws instead of showing a report |
| ApiService.TextRisksFail | fastapi/model.py:246-248 | a model answering `{"risk_level": "high", "risks": "none"}` gets a backend result, but no risk report is shown |
| ApiService.FallbackRisksShown | extension/sidepanel/src/lib/api.service.ts:154-159 | the backend's two fixed fallback risks are shown with their categories, severities and texts |
| ApiService.RiskFallbackShown | fastapi/model.py:249-280 | when the reply is not JSON, the panel shows High exactly for high or significant risk wording; Low exactly for low or minimal wording alone; and the two fixed risks |
| ApiService.ToChatResponse | extension/sidepanel/src/lib/api.service.ts:184-187 | a missing reply is empty and a missing history is empty; present ones are kept |

What three members' contracts state:

- `ChatServer.ChatSessions.Chat`:
  - a call succeeds exactly when the key is set and any file is readable;
  - a bad key changes nothing;
  - an unreadable file leaves only the seeded session;
  - on success the session becomes the old session (or the seed) plus the preview, the user's message and the reply, and every other session is unchanged;
  - the reply is the model's answer to the transcript;
  - the history is the visible part of the session, which grew by 3 with a file and by 2 without.
- `ApiService.ToQaResponse`:
  - the answer is `answer`, else `response`, else empty, and it is empty exactly when both are missing or empty;
  - the confidence is never 0, stays as given when it is present and non-zero, and is 0.85 otherwise;
  - missing sources give none.
- `ApiService.ToRisk`:
  - the category is `type`, else `category`, else "General", and is never empty;
  - the severity is passed through unvalidated when it is non-empty, and is "Medium" otherwise;
  - missing texts become empty.

## Left out

- Text splitting (`RecursiveCharacterTextSplitter`), PDF loading (`PyPDFLoader`), embeddings and the vector store: foreign library code. Retrieved chunks and page texts are parameters.
- The language model and `json.loads`: foreign calls, modelled as the parameters `llm` and `parse`.
- LegalModel.SummaryFromReply: `json.loads` can raise exceptions other than `JSONDecodeError` (such as `RecursionError` on deeply nested input). The parser parameter has no such outcome. Summaries catch only `JSONDecodeError`, so such an exception would end the request; this is not modelled. Question answering catches every exception, so for it `None` covers them all.
- LegalModel.RiskFromReply: risk analysis also catches only `JSONDecodeError`, so another exception from `json.loads` would end the request; the parser parameter has no such outcome.
- Prompt wording: only the text each prompt embeds is modelled (the context and question, the document head, the conversation).
- PyText.Lower: models `str.lower()` on ASCII letters only, because Unicode case mapping tables are not modelled. PyText.Upper has the same limit.
- ChatServer.ChatSessions.Chat: does not model an exception from the model call, which would leave the user's message stored without a reply.
- Concurrency on the session store: requests are modelled one at a time.
- Temporary files, FastAPI routing, CORS and `.env` loading: I/O and configuration. The other endpoints only call the modelled functions.
- The commented-out second copy of the endpoints in `fastapi/main.py`.
- `fetch`, `FormData` and the HTTP error handling of the client: network I/O.
- ApiService.StringField: a scalar body field whose JSON type differs from the declared one is read as missing. JavaScript would pass a truthy value of another type through (a number as a category, say). A `risks` value that is not an array is not affected: it is modelled as the TypeError it raises (`ApiService.RiskBody`).
- ApiService.NumberField: a `confidence` that is not a JSON number is read as missing, so the default 0.85 is shown; JavaScript would keep any truthy value, such as a non-empty text.
- ApiService.StringsField: a `key_points` or `sources` value that is not an array of texts is read as missing; JavaScript would keep a truthy value of another type, such as a text.
- ApiService.OverallRisk: level names that are keys of `Object.prototype` (such as "constructor") are not modelled; JavaScript would return an inherited property. A `risk_level` that is an array such as `["low"]` is read as missing, while JavaScript would turn it into the key "low".
- ApiService.ToQaResponse: models confidence as a real number; NaN and -0 are not modelled.
- The React components, the mock API, the extension's background and content scripts, the Express stubs and the build configuration: UI and glue outside the modelled core.
