# startupdesk pitch-deck analyzer — Dafny model

This project models the core of the pitch-deck analyzer. A founder uploads a
PDF or PowerPoint deck with a few form fields. The service extracts the
deck's text and asks a language model to score five categories. It averages
the scores, asks the model for an investibility decision, and stores the
resulting report on disk and in an in-memory cache.

The model has seven modules, one file each:

- `Wrappers` (`wrappers.dfy`): `Option` and `Result`.
- `PyStr` (`pystr.dfy`): the Python `str` operations the code relies on,
  stated exactly. These are `strip`, `split`, `join`, `find`, `rfind`,
  `lower` (ASCII), posix `os.path.splitext` and `str(n)` for naturals.
- `Json` (`json.dfy`): decoded JSON values, `dict.get(key, default)` and
  `float(v)`.
- `GroqClient` (`groq_client.dfy`), which is pure. It covers:
  - the scoring prompt;
  - the chain that recovers a JSON document from the model's free text
    (direct decode, then the ```` ```json ```` fence, then a plain ```` ``` ````
    fence, then the fallback);
  - the score record and the decision record built from the recovered
    document, together with the error records.
- `Parsers` (`parsers.dfy`):
  - `ParsePptx` and `ParsePdf` are loops proved against the functions
    `PptxContent` and `PdfContent`;
  - `ParseDocument` is the dispatch on the lower-cased extension.
- `Crew` (`crew_agents.dfy`): `EvaluatePitchDeck` is a method proved against
  the function `Evaluate`. It makes five scoring calls in a fixed order,
  computes the mean over the reals, makes one decision call and assembles
  the record. Two helper methods keep its proof small:
  - `ScoreCategories` holds the five in-place dictionary assignments;
  - `OverallScore` holds `sum(...) / len(scores)`.
- `Server` (`main.dfy`): the class `App`. Its fields are `cache` (the
  module-level `evaluation_cache`) and `reports`, the reports directory as a
  map from file path to stored record. `Upload` models `upload_deck`, with
  the part inside `try` in the method `Attempt`. `Get` models `get_result`.
  The invariant `Valid` says every cached record is the one stored at its
  report path. `Upload` and `Get` both preserve it.

Several things the code needs are parameters of the model rather than
definitions:
- The language model (`GroqClient.Service`): a completion is its text or
  the message of the exception the round trip raised.
- `json.loads` and Python's parser of float literals (`GroqClient.Runtime`).
- `round(x, 2)` (`round2`).
- The uuid, the timestamp, and the outcome of writing the report.
- The two document libraries, given as what they make of the file
  (`Parsers.FileViews`).

The fenced-block recovery follows the code. Its candidate is
`content.split("```json")[1].split("```")[0].strip()`. That is the text
after the first tag, cut at the next tag, then cut at the first fence.
- `TaggedCandidateUpToFence` proves that this is "up to the next fence,
  stripped" whenever the text after the tag holds no run of four backticks.
- `TaggedCutCanStopLate` shows the exception. If the text after the tag is
  one backtick followed by another tag, the cut keeps that backtick: it
  stops at the second tag and not at the fence the tag overlaps.

The plain-fence branch is reached only when there is no tag. A fenced
candidate that does not decode gives the 0.0 error record, never the 5.0
default.

## Model

| member | source | states |
|---|---|---|
| Json.Get | groq_client.py:76-77 | the field when the value is a dict holding the key, the default when the key is absent, the AttributeError message when the value is not a dict |
| Json.ToFloat | groq_client.py:76 | numbers and booleans convert, strings go through the float parser, other values raise |
| PyStr.Take | groq_client.py:73 | `s[:n]`: the first min(n, len) characters |
| PyStr.LStrip | parsers.py:36 | the result is a suffix and everything removed is whitespace; it is empty or starts with a non-space |
| PyStr.RStrip | parsers.py:36 | the result is a prefix and everything removed is whitespace; it is empty or ends with a non-space |
| PyStr.Strip | groq_client.py:66 | the result is a slice of the input with whitespace only on both sides, and it neither starts nor ends with whitespace |
| PyStr.StripSlice | groq_client.py:66 | stripping the left and then the right end leaves a slice with whitespace only outside it |
| PyStr.StripEmptyIffAllSpace | parsers.py:36 | `strip()` is empty exactly when every character is whitespace |
| PyStr.FindFrom | groq_client.py:65 | the first occurrence at or after a position, or none when there is none |
| PyStr.Find | groq_client.py:65 | the first occurrence of a pattern, or none exactly when the pattern does not occur |
| PyStr.JoinAppend | parsers.py:22 | joining one more part appends the separator and the part |
| PyStr.NoOccurrenceInPrefix | groq_client.py:66 | a prefix that ends before the first occurrence does not contain the pattern |
| PyStr.Split | groq_client.py:66 | joining the pieces gives the input back, no piece holds the separator, and there are two or more pieces exactly when the separator occurs |
| PyStr.SplitRest | groq_client.py:66 | the split cuts at the leftmost separator and splits the rest again, which fixes every piece, also for an overlapping separator |
| PyStr.SplitFirst | groq_client.py:66 | piece 0 is the text before the first separator |
| PyStr.SplitSecond | groq_client.py:66 | piece 1 is the text between the first and second separator |
| PyStr.SplitWithoutSeparator | groq_client.py:69 | a string without the separator splits into itself |
| PyStr.SplitAfterPiece | groq_client.py:18-35 | splitting on one character peels off a first piece that does not contain it |
| PyStr.SplitJoinedLines | groq_client.py:18-35 | splitting joined lines gives back each leading line that holds no separator |
| PyStr.Lower | parsers.py:49 | same length, each ASCII capital lower-cased, all other characters kept |
| PyStr.RFind | main.py:66 | the last index holding the character, or -1 |
| PyStr.RFindUnique | main.py:66 | an index holding the character with none after it is the `rfind` result |
| PyStr.RFindAppend | main.py:66 | appending text without the character leaves `rfind` unchanged |
| PyStr.Splitext | main.py:66 | the two parts concatenate to the path; the extension starts with a dot and has no other dot and no slash; when it is non-empty, the root's last component holds a character that is neither a dot nor a slash |
| PyStr.SplitextAppend | main.py:66-70 | a root whose last component has a non-dot character, followed by a one-dot extension, splits into exactly that root and extension |
| PyStr.Digit | parsers.py:13 | a decimal digit character, which is "0" only for zero |
| PyStr.NatToString | parsers.py:13 | `str(n)` is a non-empty string of decimal digits with no leading zero, and "0" for zero |
| PyStr.NatToStringRoundTrip | parsers.py:13 | reading the digits of `str(n)` back gives n |
| PyStr.NatToStringInjective | parsers.py:37 | distinct page or slide numbers give distinct labels |
| GroqClient.NoCharNoOccurrence | groq_client.py:21 | a string without a character does not contain it as a one-character pattern |
| GroqClient.ContextLineIsFourthLine | groq_client.py:18-21 | for a category and context without newlines, line 4 of the scoring prompt is "Context: <context>" when a context is given, and empty otherwise |
| GroqClient.IntroIsOneLine | groq_client.py:18 | the prompt's opening sentence is one line |
| GroqClient.ScorePrompt | groq_client.py:18-35 | the template lines joined by newlines; `ContextLineIsFourthLine` proves that, for a category and context without newlines, its fourth line is "Context: <context>" or empty |
| GroqClient.TagHoldsFence | groq_client.py:65-68 | text holding "```json" holds "```" |
| GroqClient.FencedCandidate | groq_client.py:66-69 | `content.split(open)[1].split("```")[0].strip()`; `TaggedCandidate`, `TaggedCandidateUpToFence` and `PlainCandidate` give it as the text after the opening up to the next fence, stripped |
| GroqClient.Recover | groq_client.py:60-70 | a direct decode wins; the no-fence fallback is reached exactly when the direct decode fails and the text holds no fence |
| GroqClient.DirectParseIgnoresFences | groq_client.py:60-62 | when the whole text decodes, the result is that value whatever the decoder says about any other string |
| GroqClient.TaggedCandidate | groq_client.py:66 | the tagged candidate is the text after the first tag, cut at the next tag and then at the first fence, stripped |
| GroqClient.FenceBeforeTag | groq_client.py:66 | inside any text, the first fence starts no later than the first tag |
| GroqClient.CutAtEarlierFence | groq_client.py:66 | a fence wholly before the cut point ends the cut piece |
| GroqClient.OverlapMakesFourBackticks | groq_client.py:66 | a fence beginning one or two characters before a tag forms four backticks |
| GroqClient.TaggedCandidateUpToFence | groq_client.py:65-66 | without four backticks in a row after the tag, the candidate is the text after the first tag up to the next fence or the end, stripped |
| GroqClient.TaggedCutCanStopLate | groq_client.py:66 | a concrete text where the tagged cut stops at the next tag instead of at the first fence |
| GroqClient.PlainCandidate | groq_client.py:68-69 | the plain candidate is the text between the first and second fence, or to the end, stripped |
| GroqClient.OneFencedAttempt | groq_client.py:63-70 | after a failed direct decode exactly one fenced candidate is decoded: the tagged one when a tag exists, else the plain one; the fallback is not reached |
| GroqClient.ErrorScore | groq_client.py:80-85 | the record of the `except` clause; `TransportErrorScoresZero` states its score 0.0 and its notes |
| GroqClient.FallbackData | groq_client.py:71-73 | the default dict; `UnfencedScoresDefault` states the 5.0 score and the 200-character notes it yields |
| GroqClient.ScoreFields | groq_client.py:75-78 | the returned record; `DecodedObjectScore` and `DecodedNonObjectIsError` state it for every decoded document |
| GroqClient.ScoreFromCompletion | groq_client.py:52-85 | the score for a completion; stated case by case by `UnfencedScoresDefault`, `UndecodableFenceScoresZero`, `DecodedObjectScore`, `DecodedNonObjectIsError` and `TransportErrorScoresZero` |
| GroqClient.GenerateScore | groq_client.py:15-85 | `generate_score` against the service: the score for the reply to `ScorePrompt` |
| GroqClient.UnfencedScoresDefault | groq_client.py:71-73 | undecodable text with no fence gets the 5.0 default record with its first 200 characters as notes; `Recover` shows this is the only way to that fallback |
| GroqClient.UndecodableFenceScoresZero | groq_client.py:67-85 | a fenced candidate that does not decode gives score 0.0 with the "Error during evaluation: " notes |
| GroqClient.DecodedObjectScore | groq_client.py:75-85 | a decoded dict gives `float()` of its "score" (default 5.0) and its "notes" (default ""), and nothing else; a score `float()` rejects gives the 0.0 error record with the conversion's message |
| GroqClient.DecodedNonObjectIsError | groq_client.py:75-85 | a decoded non-dict gives the error record carrying the AttributeError's message |
| GroqClient.TransportErrorScoresZero | groq_client.py:80-85 | a failed round trip gives score 0.0 with notes "Error during evaluation: <message>" |
| GroqClient.ErrorDecision | groq_client.py:153-160 | the record of the decision call's `except` clause; `DecisionOutcomes` states when it is returned |
| GroqClient.DecisionFromCompletion | groq_client.py:126-160 | the decision for a completion; `DecisionOutcomes` states all four outcomes |
| GroqClient.GenerateDecision | groq_client.py:87-160 | `generate_investibility_decision` against the service; `Crew.OutageDecisionIsDict` shows a failed round trip still gives a dict |
| GroqClient.DecisionOutcomes | groq_client.py:134-160 | a decoded document is returned unchanged; undecodable text with no fence gives the "Unable to generate decision" record; a failed round trip or an undecodable fenced candidate gives the "API error" record |
| GroqClient.UnableDecisionFields | groq_client.py:144-149 | the fallback decision has exactly the four keys with "No", "Unable to generate decision", [] and ["Evaluation error"] |
| Parsers.ShapeLinesAppend | parsers.py:14-18 | what shapes add to a slide is additive over concatenation |
| Parsers.ShapeLinesAreTexts | parsers.py:14-18 | a slide adds exactly its shapes' non-empty texts, each followed by "\n", in shape order |
| Parsers.ShapeLinesEmptyIff | parsers.py:14-18 | a slide adds nothing after its header exactly when none of its shapes has non-empty text |
| Parsers.EverySlideHasEntry | parsers.py:12-19 | one entry per slide; entry k starts with "Slide k+1:\n", and a slide without text is its header alone |
| Parsers.PptxContentAppend | parsers.py:19-22 | one more slide appends a blank line and its numbered entry |
| Parsers.PptxContent | parsers.py:21-23 | the slide entries joined by blank lines; `EverySlideHasEntry` and `PptxContentAppend` state its entries and how it grows |
| Parsers.SlideText | parsers.py:13-18 | the inner loop builds the slide's header followed by its shapes' lines |
| Parsers.ParsePptx | parsers.py:7-24 | content is the slide entries joined by "\n\n"; slide_count is the number of slides |
| Parsers.Kept | parsers.py:33-37 | the kept positions are positions of the document |
| Parsers.KeptIncreasing | parsers.py:33-37 | kept pages stay in document order |
| Parsers.KeptExactlyNonBlank | parsers.py:36-37 | a page is kept exactly when its text is not whitespace only |
| Parsers.PageEntries | parsers.py:33-37 | one entry per kept page; `PageEntriesAppend` states it page by page |
| Parsers.PageEntriesAppend | parsers.py:33-37 | a blank page adds nothing; any other page adds "Page k:\n" + text with k its true 1-based position |
| Parsers.AllBlankPagesGiveNoContent | parsers.py:36-42 | no retained pages gives empty content |
| Parsers.PdfContent | parsers.py:41-43 | the page entries joined by blank lines; `AllBlankPagesGiveNoContent` and `PageEntriesAppend` describe it |
| Parsers.ParsePdf | parsers.py:27-44 | content is the entries of the non-blank pages joined by "\n\n"; page_count counts every page, blank ones included |
| Parsers.ParseDocument | parsers.py:47-56 | ".pptx" goes to the slide parser and ".pdf" to the page parser, after lower-casing; only other extensions raise the unsupported-format error, carrying the extension; a read error comes from the chosen library |
| Parsers.ParseErrorMessage | parsers.py:56 | `str(e)`: the "Unsupported file format" text with the extension, or the library's message |
| Parsers.DispatchIgnoresCase | parsers.py:49 | paths with the same lower-cased extension are dispatched alike |
| Crew.DeckOf | crew_agents.py:16-20 | missing name, sector and stage default to "Unknown"; missing content and funding ask default to "" |
| Crew.Context | crew_agents.py:25-61 | the five context strings; `ScoreCallsSpelledOut` states them literally |
| Crew.PerCategory | crew_agents.py:30-62 | one entry per category under its key |
| Crew.ScoreCategories | crew_agents.py:22-63 | the five scorer calls in order, each score and note stored under its category's key |
| Crew.OverallScore | crew_agents.py:65 | `sum / len` over the five scores is their mean |
| Crew.Mean | crew_agents.py:65 | the mean over the reals; `MeanOfFive` and `UniformScoresMean` state it |
| Crew.EvaluatePitchDeck | crew_agents.py:13-95 | the calls are the five scoring calls in order and then one decision call on the raw scores and notes; the result is the evaluation |
| Crew.Evaluate | crew_agents.py:13-95 | the evaluation; `ResultKeys`, `OverallIsRoundedMean`, `DecisionDefaults` and `NonObjectDecisionRaises` describe it |
| Crew.PerCategoryKeys | crew_agents.py:22-63 | a per-category dictionary has exactly the five keys |
| Crew.SpelledOut | crew_agents.py:30-62 | a per-category dictionary is the five assignments the code makes |
| Crew.ScoreCallsSpelledOut | crew_agents.py:25-61 | the five calls, with their category names, content as text, and context strings |
| Crew.DecisionInputs | crew_agents.py:67 | the decision oracle receives the unrounded scores and the notes, each with exactly the five keys |
| Crew.MeanOfFive | crew_agents.py:65 | the mean is the sum of the five scores divided by 5 |
| Crew.ResultKeys | crew_agents.py:74-89 | scores has the five keys plus "overall"; evaluation_notes has the five keys and holds the notes the scorer returned |
| Crew.OverallIsRoundedMean | crew_agents.py:65-81 | overall is the rounded mean of the raw scores, and each category's score is its own raw score rounded |
| Crew.UniformScoresMean | crew_agents.py:65 | five equal scores s have mean s |
| Crew.DecisionDefaults | crew_agents.py:82-92 | investible, summary, key_strengths and key_concerns default to "No", "", [] and []; present fields are taken unchanged |
| Crew.NonObjectDecisionRaises | crew_agents.py:82 | a decision that is not a dict makes the evaluation raise the `.get` AttributeError |
| Crew.OutageScoresZero | crew_agents.py:25-82 | when every round trip to the model fails, the evaluation still completes: overall is round(0.0) and investible is "No" |
| Crew.OutageDecisionIsDict | crew_agents.py:67 | a failed decision round trip gives a dict whose "investible" is "No" |
| Crew.OutageScoresEachZero | crew_agents.py:25-63 | when every scoring round trip fails, every category scores 0.0 |
| Server.PathJoin | main.py:70 | an absolute name replaces the directory; otherwise the name follows the directory, after a "/" unless the directory is empty or already ends in one |
| Server.CheckUpload | main.py:57-68 | the request passes exactly when the key and filename are non-empty and the extension is accepted; otherwise the refusals come in the code's order: 500 key, 400 filename, 400 extension |
| Server.UploadPath | main.py:70 | `uploads/<id><ext>`; `UploadPathKeepsExtension` shows it keeps the checked extension |
| Server.ReportPath | main.py:95 | `reports/<id>.json`; `ReportPathInjective` shows distinct ids get distinct paths |
| Server.UploadOutcome | main.py:45-113 | the reply of `upload_deck`; `RefusalsComeFirst`, `UploadedRecord`, `FailuresAreReported` and `WriteFailureIsReported` describe it |
| Server.Lookup | main.py:116-131 | the reply of `get_result`; `CacheIsTransparent` and `UploadThenLookup` describe it |
| Server.Attempt | main.py:76-113 | the `try` block's reply: the parse failure, the evaluation failure, the write failure, or the uploaded record |
| Server.App.constructor | main.py:35 | a fresh process starts with an empty cache over the existing reports |
| Server.App.Upload | main.py:45-113 | the reply is the handler's outcome; on success the report and the cache both hold the record under the new id; every refusal and failure leaves both unchanged; cache keys only grow |
| Server.App.Get | main.py:116-131 | the cache answers first; a report hit is cached; otherwise 404 with no change; reports never change; cache keys only grow |
| Server.ReportPathInjective | main.py:95 | distinct ids have distinct report paths |
| Server.CacheIsTransparent | main.py:120-129 | while the invariant holds, the cache answers as the report would |
| Server.UploadPathKeepsExtension | main.py:66-70 | the saved file's path has the accepted extension the handler checked |
| Server.AcceptedExtensionShape | main.py:67 | ".pdf" and ".pptx" are one dot then lower-case letters |
| Server.UploadRootHasName | main.py:70 | the last component of `uploads/<id>` has a non-dot character |
| Server.AcceptedUploadIsParsed | main.py:66-77 | after the checks pass, parsing never fails with an unsupported format |
| Server.UploadedRecord | main.py:76-110 | a success carries the crew's evaluation of the parsed content, tagged with the id, the timestamp and the client's file name |
| Server.RefusalsComeFirst | main.py:57-68 | a refused request answers with its refusal, a 400 or 500, whatever the file and the backend |
| Server.FailuresAreReported | main.py:76-113 | after the checks, an upload succeeds or answers 500 "Evaluation failed: <message>", the message being the parse error, the crew's exception or the write error, in that order |
| Server.WriteFailureIsReported | main.py:95-113 | a report that cannot be written turns the upload into 500 "Evaluation failed: <message>" |
| Server.UploadThenLookup | main.py:95-129 | after an upload the invariant still holds, and the record is found both by this process and by a fresh one with an empty cache |
| Server.UploadLeavesOtherIds | main.py:95-131 | an upload does not change what any other id answers |

## Left out

- GroqClient.ContextLineIsFourthLine: holds only for a category and context without newlines. The context embeds the deck's company name, and a name holding a newline moves the "Context:" text off line 4 of the real prompt. `ScorePrompt` itself builds the prompt for any text.
- The HTTP round trips to the model API are left out, because they are network I/O. This covers headers, payload, `raise_for_status` and `response.json()`. A completion is the parameter `Service`, and any exception there is its message. The `print` calls are left out too.
- The prompt text of the decision call is left out. It needs Python's float repr and `json.dumps(indent=2)`. The decision reply is a function of the scores and notes instead.
- `json.loads` (RFC 8259) and Python's float-literal parser are parameters, not definitions. Report files are written with `json.dump` and read with `json.load`; the model assumes this round trip returns the record unchanged.
- `round(x, 2)` on binary floats is an abstract function. Scores and the mean are reals.
- Json.ToFloat: JSON numbers are reals, so two float behaviours are not modelled. First, `float()` of an integer beyond the float range raises OverflowError; the code then returns the 0.0 record, where the model converts the integer. Second, `json.loads` accepts `NaN`, `Infinity` and `1e999`, and so does Python's float parser, giving a non-finite score. That score survives rounding, is written to the report file and is cached. The JSON response then fails to render it, inside the `try`, so the upload answers 500 "Evaluation failed: …" with the report and the cache already written. `Server.App.Upload` promises that a failed upload leaves both unchanged, which holds only for finite scores.
- python-pptx and PyMuPDF are left out. A deck is its slides' shapes and a PDF is its pages' texts, or what the library raised when opening.
- `doc.close()` is not in a `finally` at parsers.py:39, so a failing page leaks the handle. Handles are not modelled.
- FastAPI routing, CORS, static mounting and the HTML home page are left out, because they are framework code.
- `uuid4()`, `datetime.now()` and the environment variables are inputs. The lemmas about the upload path assume an id shaped like a uuid: non-empty, without '.' or '/'.
- Writing the uploaded bytes to `uploads/` is left out, because it is file I/O. That write sits outside the `try`, so its failure would not become the 500 "Evaluation failed" reply.
- A report write that fails part-way is modelled as writing nothing. In the code it can leave a partial file, which a later `get_result` would find and fail to decode. A report file that does not decode is not modelled.
- `send_evaluation_email` and SendGrid are left out, because they are a foreign call. Their exceptions are caught and printed, so neither the reply nor the stored state depends on them. The `contact_email` field is therefore unused.
- `fund_thesis` is passed to the crew as in the code, and the crew never reads it.
- The crew's own `GroqClient` construction (API key, base URL, model name) is left out. These values only shape the HTTP request.
- PyStr.Lower: lower-cases ASCII letters only. Python's `str.lower` also maps non-ASCII capitals, but no non-ASCII character lower-cases to one of the characters of ".pdf" or ".pptx", so acceptance and dispatch are unaffected.
- GroqClient.Recover: every failure of the direct `json.loads` goes on to the fence chain. The code catches only `json.JSONDecodeError` there, so another failure of that decode, such as a `RecursionError` on deeply nested text, would go to the outer `except` and give the 0.0 record. The model's decoder reports a single kind of failure.
- Answers from the language model may differ from call to call. Each service is a fixed function of the prompt, so a second identical call is not modelled as a different reply.
