# Recruitment agent: a Dafny model

The recruiter scores a candidate's profile against a job description. Its
backend runs a short agent loop (`run_recruitment_agent`). On each of at
most three iterations the loop asks a text generator what to do next, then
either calls one of three tools through `function_caller` or returns the
generator's final answer. The tools are:

- `calculate_profile_score`: asks the generator for an analysis and parses a
  score and three sections out of it;
- `generate_outreach_message`: fills in a template;
- `send_notifications`: sends for scores of 90 and above.

`analyze_profile` wraps the loop and turns any exception into a failure
dictionary. `extract_score_from_text` is a second score and reasoning
parser. A browser extension converts the page's node tree to Markdown with
`convertToMarkdown` before sending it to the backend.

The project models these parts:

| file | module | models |
|---|---|---|
| `wrappers.dfy` | `Wrappers` | `Option`, `Result` |
| `text.dfy` | `Text` | the string operations the code relies on: Python's `strip`, `find`, slicing with negative indices, `split`, `split(c, 1)`, `join`, `replace(p, '')` and `isdigit`/`int`; JavaScript's `trim`, `split` and `toLowerCase` |
| `py_values.dfy` | `PyValues` | Python values (what `eval` yields, what tools return), exceptions, truthiness, `dict.get`, and `str()`/`repr()` |
| `recruitment_utils.dfy` | `RecruitmentUtils` | `extract_score`, `calculate_profile_score` after its generator call, `generate_outreach_message`, `send_notifications` |
| `recruitment_agent.dfy` | `RecruitmentAgent` | `function_caller` with keyword binding `f(**params)`, and `run_recruitment_agent` |
| `recruitment_ai.dfy` | `RecruitmentAi` | `extract_score_from_text`, `analyze_profile`, and the placeholder extractors |
| `content_script.dfy` | `ContentScript` | `convertToMarkdown` over a node datatype |

### Inputs taken as parameters

- **The text generator** is a parameter `gen: nat -> string`. `gen(k)` is
  the text of the k-th `generate_content` call of the run. That count covers
  the loop's own calls and the scoring tool's calls alike, since both share
  one model. The run depends only on these texts.
- **Python's `eval`** of parameter and final-answer text is a parameter
  `eval: string -> Result<Value, PyError>`.
- **The tools** reach the loop as a `Dispatcher`. `Tools(gen)` is the real
  `function_caller`. The lemmas about one iteration hold for any dispatcher.

### Form of the model

- The loop is written as the source writes it, as methods:
  - `RunRecruitmentAgent` holds the `while` loop;
  - `Iterate` is its body;
  - `CallFunction` is the `FUNCTION_CALL:` branch;
  - `CallTool` is the call and its bookkeeping.
  Each method's `ensures` ties it to a specification function (`Agent`,
  `Step`, `FunctionCallStep`, `ToolCallStep`). The lemmas state what those
  functions promise.
- The run's state is a `Session` value: the loop's variables
  (`iteration`, `last_response`, `current_query`, `iteration_responses`) plus
  a trace of the prompts sent, the responses heard, the generator calls made
  and the notifications set out.
- The parsers and `convertToMarkdown` are pure, so they are functions.

### Where the documented protocol and the code differ

The model follows the code in each of these cases:

- **An unknown tool name** yields the string `"Function <name> not found"`.
  The loop then carries on; nothing fails.
- **A `FINAL_ANSWER:` payload** is evaluated and returned as it is. Earlier
  tool results are not consulted, unless the payload's expression itself
  names a local such as `last_response` (see "## Left out"). No literal
  normalisation is retried.
- **A response with neither prefix** is not a protocol error. The iteration
  is skipped.
- **`send_notifications`** returns `None`, not a boolean. It only logs that
  it would send an email or an SMS. The model records those intended
  deliveries as `Delivery` values.
- **A missing section header** gives -1 from `find`, which Python slicing
  reads as "one before the end":
  - a missing start header gives an empty section, since `text[-1:b]` is
    empty for every `b` that `find` can answer (`SectionWithoutStart`);
  - a missing end header gives the text from the start header to the last
    character, exclusive, which is not empty in general (`SectionWithoutEnd`);
  - a missing `### Personalized Message` gives the last character of the
    text, stripped (`MessageSectionWithoutHeader`).

## Model

| member | source | states |
|---|---|---|
| `Text.TrimStartSpec` | backend/recruitment_agent.py:85 | `strip` removes from the front a run of white space and keeps a suffix of the text that does not begin with white space |
| `Text.TrimEndSpec` | backend/recruitment_agent.py:85 | `strip` removes from the back a run of white space and keeps a prefix that does not end with white space |
| `Text.StripEmptyIff` | extension/contentScript.js:10-12 | stripped text is empty exactly when every character is white space |
| `Text.StripIdempotent` | backend/recruitment_agent.py:91 | stripping twice is stripping once |
| `Text.Find` | backend/recruitment_utils.py:59-61 | `str.find` answers -1 exactly when the text lacks the pattern; otherwise it answers the first index at which the pattern occurs |
| `Text.SliceBound` | backend/recruitment_utils.py:59-61 | a slice bound within the text is kept, a negative one counts from the end, and every bound lands inside the text |
| `Text.Split` | backend/recruitment_utils.py:68 | `split('\n')` yields at least one piece, no piece holds the separator, and joining the pieces with it gives back the text |
| `Text.SplitJoin` | backend/recruitment_utils.py:68 | splitting a join of separator-free pieces gives back the pieces |
| `Text.SplitFirst` | backend/recruitment_agent.py:90-91 | `split(c, 1)` gives one piece, the whole text, when `c` is absent; otherwise two pieces, the first free of `c`, that rejoin around `c` into the text |
| `Text.ContainsSomePiece` | backend/recruitment_utils.py:68-69 | the text contains a separator-free pattern exactly when one of its lines does |
| `Text.JoinContainsParts` | backend/recruitment_agent.py:79 | every joined part occurs in the join |
| `Text.RemoveAllAbsent` | backend/recruitment_utils.py:61 | `replace(p, '')` leaves text without `p` unchanged |
| `Text.Digits` | backend/recruitment_utils.py:70 | the filtered characters are all digits and no more than the input; `DigitsAppend`, `DigitsOfDigits` and `DigitsOfNonDigits` pin it down as the filter |
| `Text.DigitsAppend` | backend/recruitment_utils.py:70 | filtering digits distributes over concatenation |
| `Text.DigitsOfDigits` | backend/recruitment_utils.py:70 | a digit is kept: text of digits filters to itself |
| `Text.DigitsOfNonDigits` | backend/recruitment_utils.py:70 | a non-digit is dropped: text without digits filters to nothing |
| `Text.ParsePrinted` | backend/recruitment_utils.py:71 | `int()` of a printed natural number gives that number back |
| `Text.ToLower` | extension/contentScript.js:9 | the lower-cased tag has the same length and maps each character by itself |
| `Text.Strip` | backend/recruitment_agent.py:85 | `str.strip()` with Python's white space; its properties are `TrimStartSpec`, `TrimEndSpec`, `StripEmptyIff`, `StripIdempotent` and `StripKeepsPrefix` |
| `Text.StripKeepsPrefix` | backend/recruitment_utils.py:59-63 | text that begins with a prefix starting and ending in non-space keeps that prefix when stripped |
| `Text.Trim` | extension/contentScript.js:7-10 | `String.prototype.trim()` with JavaScript's white space; the same lemmas hold of it |
| `Text.PySlice` | backend/recruitment_utils.py:59-61 | `s[i:j]` with both bounds put through `SliceBound`, empty when they cross; never longer than the text |
| `Text.RemoveAll` | backend/recruitment_utils.py:61 | `replace(p, '')`: never longer than the text; `RemoveAllAbsent` and `RemoveAllLeading` state what it removes |
| `Text.ParseDecimal` | backend/recruitment_utils.py:71 | `int()` of a digit string; `ParsePrinted` makes it the inverse of printing |
| `PyValues.Repr` | backend/recruitment_agent.py:45 | `repr()`: `None`, `True`/`False`, decimal integers, quoted and escaped strings, lists, tuples (with the one-element comma) and dictionaries in insertion order |
| `PyValues.Str` | backend/recruitment_agent.py:79-98 | `str()` as an f-string embeds it: a string as it is, any other value as its `repr` |
| `PyValues.Get` | backend/recruitment_utils.py:90-92 | `dict.get` answers the value of the first entry with the key when there is one, and the default when there is none; any other answer is the value of an entry with that key |
| `RecruitmentUtils.FirstLineWithSpec` | backend/recruitment_utils.py:69 | `next(..., '')` answers "" exactly when no line holds the marker; otherwise a line of the text that holds it |
| `RecruitmentUtils.ExtractScore` | backend/recruitment_utils.py:65-73 | the digits of the first line holding `**Score:**` read as one number, 0 without such a line or digits; stated by `ExtractScoreWithoutMarker`, `ScoreOfFormattedResponse` and `ScoreFromTextAgrees` |
| `RecruitmentUtils.FirstLineWithSkips` | backend/recruitment_utils.py:69 | lines without the marker before the score line do not change which line is chosen |
| `RecruitmentUtils.ScoreLineFound` | backend/recruitment_utils.py:68-69 | there is a score line exactly when the text contains `**Score:**`, and the score line holds the marker and no newline |
| `RecruitmentUtils.ExtractScoreWithoutMarker` | backend/recruitment_utils.py:65-73 | without `**Score:**` the score is 0 |
| `RecruitmentUtils.DigitsOfScoreLine` | backend/recruitment_utils.py:70 | the digits of `**Score:** <gap><n><tail>` are those of `n` when the gap and tail hold no digit |
| `RecruitmentUtils.ScoreLineOfLines` | backend/recruitment_utils.py:68-69 | in text laid out as lines, the score line is the first line holding the marker |
| `RecruitmentUtils.ScoreOfFormattedResponse` | backend/recruitment_utils.py:65-73 | a response with a line `**Score:** n` scores exactly `n`, even with a minus or percent sign around it; the score is never negative |
| `RecruitmentUtils.Clamp` | backend/recruitment_utils.py:57 | the clamped score lies in [0, 100] |
| `RecruitmentUtils.ScorePromptError` | backend/recruitment_utils.py:26-27 | building the scoring prompt fails exactly when the profile or its `intro` is not a dictionary |
| `RecruitmentUtils.Section` | backend/recruitment_utils.py:59-60 | `text[text.find(start):text.find(end)].strip()`; stated by `SectionWithoutStart`, `SectionWithoutEnd`, `SectionBetween` and `SectionKeepsHeader` |
| `RecruitmentUtils.MessageSection` | backend/recruitment_utils.py:61 | the text from `### Personalized Message` on, with the header removed, stripped; stated by `MessageSectionWithHeader` and `MessageSectionWithoutHeader` |
| `RecruitmentUtils.CalculateProfileScore` | backend/recruitment_utils.py:53-63 | a prompt error or an empty response raises before any parsing; otherwise it succeeds with the clamped `extract_score` of the response, in [0, 100], and the reasoning, analysis and message sections of the response, whose contents `SectionBetween`, `SectionWithoutStart`, `SectionWithoutEnd` and `MessageSectionWithHeader` state |
| `RecruitmentUtils.SectionWithoutStart` | backend/recruitment_utils.py:59-60 | a missing start header makes the section empty |
| `RecruitmentUtils.SectionWithoutEnd` | backend/recruitment_utils.py:59-60 | a missing end header makes the section run from the start header to the text's last character, exclusive |
| `RecruitmentUtils.SectionBetween` | backend/recruitment_utils.py:59-60 | with both headers, the section is the stripped text from the start header up to the end header, or empty when the end header comes first |
| `RecruitmentUtils.OccurrencesApart` | backend/recruitment_utils.py:59-60 | an end header found after the start header does not overlap it |
| `RecruitmentUtils.SectionKeepsHeader` | backend/recruitment_utils.py:59-60 | a section found between its two headers, in order, still begins with its own header |
| `RecruitmentUtils.ReasoningKeepsHeader` | backend/recruitment_utils.py:59 | the reasoning section still begins with `### Match Analysis` |
| `RecruitmentUtils.AnalysisKeepsHeader` | backend/recruitment_utils.py:60 | the analysis section still begins with `### Qualifications Analysis` |
| `RecruitmentUtils.MessageSectionWithHeader` | backend/recruitment_utils.py:61 | the message is the stripped text after the header's first occurrence, with every later occurrence removed |
| `RecruitmentUtils.MessageSectionWithoutHeader` | backend/recruitment_utils.py:61 | without the header the message is the text's last character, stripped |
| `RecruitmentUtils.GenerateOutreachMessage` | backend/recruitment_utils.py:75-86 | the f-string template with `str()` of each argument; stated by `OutreachMentionsInOrder` |
| `RecruitmentUtils.OutreachMentionsInOrder` | backend/recruitment_utils.py:75-86 | the outreach message names the candidate, then the score followed by `%`, then the message section, in that order |
| `RecruitmentUtils.SendNotifications` | backend/recruitment_utils.py:88-106 | a non-dictionary profile or a score not comparable with 90 raises; below 90 nothing is sent; everything sent carries the outreach message |
| `RecruitmentUtils.Deliveries` | backend/recruitment_utils.py:100-105 | an email goes out exactly when `email` is truthy and an SMS exactly when `phone` is, each to that address and each carrying the same message; there is at most one of each, and the email comes first |
| `RecruitmentUtils.NotificationChannels` | backend/recruitment_utils.py:94-105 | an email goes out exactly when the score is at least 90 and `email` is truthy, and an SMS likewise for `phone`, each to that address |
| `RecruitmentAgent.TruncateProfile` | backend/recruitment_agent.py:41-47 | strings and dictionaries are cut to their first 1000 characters of `str()`; any other value raises `ValueError` |
| `RecruitmentAgent.UnexpectedKeyword` | backend/recruitment_agent.py:29 | finds a keyword that is no parameter exactly when there is one |
| `RecruitmentAgent.MissingNames` | backend/recruitment_agent.py:29 | lists exactly the parameters the keywords do not supply |
| `RecruitmentAgent.BindKeywords` | backend/recruitment_agent.py:29 | binding passes each parameter its keyword's value and otherwise raises `TypeError` |
| `RecruitmentAgent.BindKeywordsSucceedsIff` | backend/recruitment_agent.py:29 | `f(**params)` binds exactly when the parameters form a dictionary whose keys are all parameter names and which supplies each |
| `RecruitmentAgent.BindKeywordsExact` | backend/recruitment_agent.py:29 | a dictionary with exactly the parameter names binds them in order |
| `RecruitmentAgent.BindKeywordsUnexpected` | backend/recruitment_agent.py:29 | a first key that is no parameter raises its unexpected-keyword `TypeError` |
| `RecruitmentAgent.BindKeywordsEmpty` | backend/recruitment_agent.py:29 | an empty dictionary raises the missing-arguments `TypeError` naming all three parameters |
| `RecruitmentAgent.MissingScoreMessage` | backend/recruitment_agent.py:29 | an outreach call without `score` raises a `TypeError` naming only `score` |
| `RecruitmentAgent.FunctionCaller` | backend/recruitment_agent.py:17-37 | an unknown name answers the "not found" string without raising; a known tool re-raises its binding error; once bound, scoring answers the `ReportValue` tuple of `calculate_profile_score` on the generator's next text or re-raises its exception, the outreach tool answers its message, and `send_notifications` re-raises its exception or answers None having sent exactly its deliveries; only scoring calls the generator, at most once |
| `RecruitmentAgent.SendNotificationsReturnsNone` | backend/recruitment_agent.py:29-31 | `send_notifications` returns None whenever it returns |
| `RecruitmentAgent.ScoringToolScore` | backend/recruitment_agent.py:29-31 | the scoring tool returns a 4-tuple whose first item is the clamped score of the generator's answer |
| `RecruitmentAgent.Step` | backend/recruitment_agent.py:75-111 | one iteration of the loop; stated by `StepRecords`, `StepSkipsOtherResponses`, `StepFinalAnswer`, `StepMissingSeparator`, `StepUnparsableParameters`, `StepToolRaises` and `StepToolReturns` |
| `RecruitmentAgent.Run` | backend/recruitment_agent.py:68-119 | the rest of the loop from a session; stated by `RunBounds`, `RunResultOrigin`, `RunWithoutAnswers` and `RunGeneratorCalls` |
| `RecruitmentAgent.RunGeneratorCalls` | backend/recruitment_agent.py:72-96 | with tools that call the generator at most once, a run makes at most two generator calls per prompt |
| `RecruitmentAgent.Agent` | backend/recruitment_agent.py:39-119 | `run_recruitment_agent`: truncation, then `Run` from the initial session; stated by `AgentWithoutAnswers` and `AgentGeneratorCalls`, and implemented by `RunRecruitmentAgent` |
| `RecruitmentAgent.CallTool` | backend/recruitment_agent.py:96-102 | the tool call and its bookkeeping are exactly one `ToolCallStep` |
| `RecruitmentAgent.CallFunction` | backend/recruitment_agent.py:88-102 | the `FUNCTION_CALL:` branch is exactly one `FunctionCallStep` |
| `RecruitmentAgent.Iterate` | backend/recruitment_agent.py:75-111 | the loop body is exactly one `Step` |
| `RecruitmentAgent.RunRecruitmentAgent` | backend/recruitment_agent.py:39-119 | the loop's result and trace are those of `Agent`, the run the lemmas below describe |
| `RecruitmentAgent.NextQueryCases` | backend/recruitment_agent.py:75-80 | with `last_response` None the query is the initial one; otherwise it extends the previous query and quotes every transcript entry |
| `RecruitmentAgent.ToolsCallGeneratorAtMostOnce` | backend/recruitment_agent.py:17-37 | any tool call makes at most one generator call |
| `RecruitmentAgent.SendNotificationsResetsQuery` | backend/recruitment_agent.py:75-80 | after `send_notifications` returns, the next query is the initial query again |
| `RecruitmentAgent.PrefixesExclusive` | backend/recruitment_agent.py:88-104 | no response starts with both prefixes |
| `RecruitmentAgent.StepRecords` | backend/recruitment_agent.py:75-111 | each iteration adds one prompt built from the query and one response; the transcript and deliveries only grow, the transcript by at most one entry; at most two generator calls are made |
| `RecruitmentAgent.StepSkipsOtherResponses` | backend/recruitment_agent.py:88-111 | a response with neither prefix calls no tool and leaves the transcript, `last_response` and deliveries unchanged; only the counter advances |
| `RecruitmentAgent.StepFinalAnswer` | backend/recruitment_agent.py:104-109 | a `FINAL_ANSWER:` response ends the run with the evaluation of the text after the prefix |
| `RecruitmentAgent.FinalAnswerIgnoresHistory` | backend/recruitment_agent.py:104-109 | given an `eval` that reads only its text, the final answer does not depend on earlier tool results or queries |
| `RecruitmentAgent.StepMissingSeparator` | backend/recruitment_agent.py:90-91 | a `FUNCTION_CALL:` response without `|` ends the run with the unpacking `ValueError` |
| `RecruitmentAgent.StepUnparsableParameters` | backend/recruitment_agent.py:91-95 | parameter text that does not evaluate ends the run with the exception `eval` raised |
| `RecruitmentAgent.StepToolRaises` | backend/recruitment_agent.py:96-102 | a tool that raises ends the run with its exception |
| `RecruitmentAgent.StepToolReturns` | backend/recruitment_agent.py:90-98 | the tool named by the stripped text between the prefix and `|` is called with the evaluated remainder; its result becomes `last_response`, and one `Called ... got result: ...` entry is appended |
| `RecruitmentAgent.ToolCallStepResult` | backend/recruitment_agent.py:96-102 | a raising tool stops the run with its exception; a returning one continues with its result recorded and one transcript entry appended |
| `RecruitmentAgent.RunBounds` | backend/recruitment_agent.py:67-72 | a run sends at most three prompts, hears one response per prompt, and only extends the prompts, transcript and deliveries |
| `RecruitmentAgent.RunResultOrigin` | backend/recruitment_agent.py:104-119 | a successful result is the max-iterations dictionary or the evaluated payload of the last response, which starts with `FINAL_ANSWER:` |
| `RecruitmentAgent.RunWithoutAnswers` | backend/recruitment_agent.py:72-119 | with no prefixed responses, the run asks the initial query three times and ends with the max-iterations dictionary and an empty transcript |
| `RecruitmentAgent.AgentWithoutAnswers` | backend/recruitment_agent.py:39-119 | the same for a whole run from a string or dictionary profile |
| `RecruitmentAgent.AgentGeneratorCalls` | backend/recruitment_agent.py:67-84 | a run sends at most three prompts, one response each, and makes at most two generator calls per prompt, counting the scoring tool's call |
| `RecruitmentAi.ScoreFromTextAgrees` | backend/recruitment_ai.py:40-52 | the score agrees with `extract_score`, so it is never negative; it is not clamped |
| `RecruitmentAi.ExtractScoreFromText` | backend/recruitment_ai.py:36-67 | the score and reasoning tuple; stated by `ScoreFromTextAgrees`, `ScoreFromTextCases` and `ScoreOutOfTen` |
| `RecruitmentAi.ExtractReasoning` | backend/recruitment_ai.py:55-60 | the reasoning between the two headers, or the not-found message; stated by `ReasoningBetweenHeaders` and `ReasoningWithoutHeader` |
| `RecruitmentAi.ScoreFromTextCases` | backend/recruitment_ai.py:40-63 | no marker gives `(0, "Score not found in response")`; a score line without digits gives `(0, "Invalid score format")`; otherwise the score and the reasoning |
| `RecruitmentAi.ScoreOutOfTen` | backend/recruitment_ai.py:47-52 | every digit of the score line counts, so `8/10` reads as 810 |
| `RecruitmentAi.ReasoningBetweenHeaders` | backend/recruitment_ai.py:56-59 | with both headers, the reasoning is the stripped text between them, with every `### Match Analysis` removed; it is empty when the qualifications header comes first |
| `RecruitmentAi.ReasoningWithoutHeader` | backend/recruitment_ai.py:58-61 | with either header missing, the reasoning is `"Reasoning section not found"` |
| `RecruitmentAi.AnalysisFailureShape` | backend/recruitment_ai.py:99-108 | the failure dictionary reports `success` False, `matchScore` 0, `scoreReasoning` "Analysis failed" and the exception's text |
| `RecruitmentAi.AnalyzeProfile` | backend/recruitment_ai.py:89-108 | the agent's answer, or the failure dictionary of its exception; stated by `AnalyzeProfileOutcomes` and `AnalyzeInvalidProfile` |
| `RecruitmentAi.AnalyzeProfileOutcomes` | backend/recruitment_ai.py:89-108 | `analyze_profile` answers the max-iterations dictionary, the evaluated final answer of the last response, or the failure dictionary of the exception the agent raised |
| `RecruitmentAi.AnalyzeInvalidProfile` | backend/recruitment_ai.py:89-108 | a profile that is neither a string nor a dictionary becomes the failure dictionary carrying the invalid-format message |
| `RecruitmentAi.PlaceholdersIgnoreText` | backend/recruitment_ai.py:110-123 | the placeholder extractors answer no skills and zero years, whatever the text |
| `ContentScript.ConvertToMarkdown` | extension/contentScript.js:1-40 | the Markdown of an element's children, `""` for any other node; stated by `ChildlessConvertsToEmpty` and `MarkdownAppend` |
| `ContentScript.Markdown` | extension/contentScript.js:2-39 | the accumulator after the `forEach`: each child's piece appended in document order; stated by `MarkdownAppend` and `TextAndOtherPieces` |
| `ContentScript.Piece` | extension/contentScript.js:6-36 | what one child adds; stated by `TextAndOtherPieces`, `BlankElementAddsNothing` and `BreakAddsNothing` |
| `ContentScript.Wrap` | extension/contentScript.js:14-36 | the `switch` on the lower-cased tag; stated by `WrapShapes`, `WrapKeepsContent` and `UnorderedListLines` |
| `ContentScript.ChildlessConvertsToEmpty` | extension/contentScript.js:2-5 | an element without children converts to the empty string |
| `ContentScript.TextAndOtherPieces` | extension/contentScript.js:6-8 | a text node adds its trimmed text and nothing else; other kinds of node add nothing |
| `ContentScript.MarkdownAppend` | extension/contentScript.js:5-38 | the conversion is a fold: the Markdown of consecutive runs of children is theirs concatenated, without separators |
| `ContentScript.BlankElementAddsNothing` | extension/contentScript.js:10-12 | an element whose converted content trims to nothing adds nothing, whatever its tag |
| `ContentScript.BreakAddsNothing` | extension/contentScript.js:12-30 | a childless `br` adds nothing, never the newline its case names |
| `ContentScript.WrapShapes` | extension/contentScript.js:14-36 | headings start with their `#` marks and, like paragraphs, end with a blank line; `li` ends with a newline; `div`/`span` end with a space; `strong`/`b` and `em`/`i` wrap the content in `**` and `*`; a tag the switch does not name passes the content through |
| `ContentScript.WrapKeepsContent` | extension/contentScript.js:14-36 | every tag but `br` and `ul` keeps its whole content in its piece |
| `ContentScript.Dashed` | extension/contentScript.js:22 | each line gets its `- ` bullet |
| `ContentScript.NonBlankLinesSpec` | extension/contentScript.js:21 | the filter keeps no more lines than it is given, everything it keeps is a non-blank line of the input, and every non-blank line is kept |
| `ContentScript.NonBlankLinesAppend` | extension/contentScript.js:21 | the filter distributes over concatenation and keeps a single line, unchanged, exactly when it is not blank; so it keeps each non-blank line once, in order |
| `ContentScript.BulletListJoined` | extension/contentScript.js:20-23 | the bullets followed by the closing newline are the dashed lines joined by newlines, closed by two newlines |
| `ContentScript.UnorderedListLines` | extension/contentScript.js:19-24 | read back line by line, a `ul` piece is one bullet per non-blank content line, in order, then two empty lines |
| `ContentScript.UnorderedListStartsWithBullet` | extension/contentScript.js:19-24 | a `ul` whose content begins with a non-space character starts with a bullet |

## Left out

- The text generator (`model.generate_content`, backend/recruitment_agent.py:84 and backend/recruitment_utils.py:52) is the parameter `gen`; the remote model, its configuration and a response object without `.text` are not modelled.
- The prompt text of `calculate_profile_score` (backend/recruitment_utils.py:28-50) is not modelled. Only its two `.get` calls, which can raise, are kept. The generator's answer is taken as given.
- Python's `eval` (backend/recruitment_agent.py:95, 107) is the parameter `eval`. Python evaluation is not modelled.
- RecruitmentAgent.FinalAnswerIgnoresHistory: holds only because the parameter `eval` sees nothing but its text. Python's `eval` runs in the scope of `run_recruitment_agent`, so the text can read the loop's locals (`last_response`, `iteration_responses`, `current_query`) and the module's globals (`model`, `calculate_profile_score` and the other imports at backend/recruitment_agent.py:3-8). A payload that names them is not modelled. `RecruitmentAgent.RunGeneratorCalls` and `RecruitmentAgent.AgentGeneratorCalls` rest on the same assumption: an evaluated `model.generate_content(...)` would be a generator call that their bound does not count.
- The system prompt is a constant. Its text is copied in, not checked.
- Logging, `print` and `json.dumps` (backend/recruitment_ai.py:92) are left out: they have no effect on any result.
- `send_notifications` only prints what it would send. Each intended email or SMS is recorded as a `Delivery`; no message delivery is modelled.
- `Value` has no floats, so runs in which `eval` yields a float (a score of `92.5`, say) are not covered. That includes the `score >= 90` comparison (backend/recruitment_utils.py:94) and `str()` of a float in the transcript and the outreach text.
- Dictionary keys are strings only, so `f(**{1: 2})` and its "keywords must be strings" `TypeError` are not modelled. The `PyDict` type does not enforce distinct keys either; `Get` answers the first entry with the key.
- `repr` escapes ASCII control characters only. Python's escaping of non-printable non-ASCII characters is not modelled.
- Digits are ASCII only. Characters for which `str.isdigit` holds but `int()` fails are not modelled.
- `ToLower` maps ASCII letters only. JavaScript's full Unicode `toLowerCase` is not modelled; the tags the switch names are ASCII.
- `extract_from_raw_html`, the Flask endpoint and CORS, Google Sheets `update_sheet`, and backend/notification_service.py are not part of this model. They are web plumbing, foreign libraries and network I/O.
- extension/popup.js, extension/content.js and everything in extension/contentScript.js except `convertToMarkdown` are not part of this model. That covers UI handlers, DOM queries, timers, random IDs and messaging.
- The `except Exception` clauses of `extract_score` and `extract_score_from_text` (backend/recruitment_utils.py:72-73, backend/recruitment_ai.py:65-67) are not modelled. Python 3.11 and later limit `int()` to 4300 digits; beyond that `int()` raises `ValueError`, and these clauses answer 0 or the error text. The model parses a digit string of any length.
- `RecruitmentAgent.AgentGeneratorCalls`: bounds the generator calls by two per prompt, not three in total. The scoring tool makes a call of its own to the same model.
