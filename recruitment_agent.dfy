/**
 * `backend/recruitment_agent.py`: the tool dispatcher `function_caller` and
 * the agent loop `run_recruitment_agent`.
 *
 * The text generator is an oracle `gen`: `gen(k)` is the text of the k-th
 * generator call of the run, counting the loop's own calls and the one the
 * scoring tool makes. For one run this loses nothing, since every prompt is
 * determined by the inputs and by the earlier responses. Python's `eval` is
 * an oracle `eval` from text to a value or an exception.
 *
 * The loop itself is `RunRecruitmentAgent`, a method with a `while` loop
 * proved equal to the functional description `Agent`, which runs `Step` at
 * most `MaxIterations` times.
 */
module RecruitmentAgent {
  import opened Wrappers
  import opened Text
  import opened PyValues
  import opened RecruitmentUtils

  const MaxIterations: nat := 3
  const ProfileLimit: nat := 1000

  const FunctionCallPrefix := "FUNCTION_CALL:"
  const FinalAnswerPrefix := "FINAL_ANSWER:"

  const InvalidProfileMessage := "Invalid profile data format. Expected str or dict."
  const UnpackMessage := "not enough values to unpack (expected 2, got 1)"
  const MaxIterationsMessage := "Max iterations reached without conclusion"

  const SystemPrompt :=
    "You are a recruitment agent analyzing profiles. Respond with EXACTLY ONE of these formats:\n"
    + "    1. FUNCTION_CALL: function_name|{\"param1\": value1, \"param2\": value2}\n"
    + "    2. FINAL_ANSWER: {\"success\": bool, \"matchScore\": int, \"message\": str}\n"
    + "\n"
    + "    Available functions:\n"
    + "    1. calculate_profile_score(profile_content, job_description, profile_data) -> Returns score and analysis\n"
    + "    2. generate_outreach_message(name, score, message_section) -> Returns formatted message\n"
    + "    3. send_notifications(profile_data, score, message_section) -> Sends notifications\n"
    + "    \n"
    + "    Follow these steps:\n"
    + "    1. Calculate profile score\n"
    + "    2. If score > 50, generate message\n"
    + "    3. If score > 90, send notifications\n"
    + "    4. Return final result\n"
    + "    "

  // ---------------------------------------------------------------------------
  // Profile truncation
  // ---------------------------------------------------------------------------

  function Min(a: nat, b: nat): nat {
    if a < b then a else b
  }

  /** The first 1000 characters of the profile: of the string itself, or of
      `str()` of a dictionary. Any other value raises `ValueError`. */
  function TruncateProfile(profileData: Value): (r: Result<string, PyError>)
    ensures r.Success? <==> profileData.PyStr? || profileData.PyDict?
    ensures r.Failure? ==> r.error == ValueError(InvalidProfileMessage)
    ensures r.Success? ==>
              && |r.value| <= ProfileLimit
              && StartsWith(Str(profileData), r.value)
              && (|Str(profileData)| <= ProfileLimit ==> r.value == Str(profileData))
              && (|Str(profileData)| >= ProfileLimit ==> |r.value| == ProfileLimit)
  {
    if profileData.PyStr? || profileData.PyDict? then
      var text := Str(profileData);
      Success(text[..Min(ProfileLimit, |text|)])
    else
      Failure(ValueError(InvalidProfileMessage))
  }

  // ---------------------------------------------------------------------------
  // Keyword binding: `f(**params)`
  // ---------------------------------------------------------------------------

  const CalculateProfileScoreName := "calculate_profile_score"
  const GenerateOutreachMessageName := "generate_outreach_message"
  const SendNotificationsName := "send_notifications"

  /** The names in `function_map`. */
  predicate IsTool(name: string) {
    name == CalculateProfileScoreName || name == GenerateOutreachMessageName || name == SendNotificationsName
  }

  /** The parameter names of each tool, in declaration order. */
  function Parameters(tool: string): seq<string>
    requires IsTool(tool)
  {
    if tool == CalculateProfileScoreName then ["profile_content", "job_description", "profile_data"]
    else if tool == GenerateOutreachMessageName then ["name", "score", "message_section"]
    else ["profile_data", "score", "message_section"]
  }

  predicate HasKey(entries: seq<(string, Value)>, key: string) {
    exists k :: 0 <= k < |entries| && entries[k].0 == key
  }

  /** The first key of `entries` that is not one of `names`. */
  function UnexpectedKeyword(entries: seq<(string, Value)>, names: seq<string>): (r: Option<string>)
    ensures r.None? <==> forall k :: 0 <= k < |entries| ==> entries[k].0 in names
    ensures r.Some? ==> r.value !in names && HasKey(entries, r.value)
  {
    if entries == [] then None
    else if entries[0].0 !in names then Some(entries[0].0)
    else
      var r := UnexpectedKeyword(entries[1..], names);
      assert r.Some? ==> entries[1..][IndexOfKey(entries[1..], r.value)].0 == r.value;
      assert forall k :: 1 <= k < |entries| ==> entries[k] == entries[1..][k - 1];
      r
  }

  /** An index at which `key` occurs in `entries`. */
  function IndexOfKey(entries: seq<(string, Value)>, key: string): (k: nat)
    requires HasKey(entries, key)
    ensures k < |entries| && entries[k].0 == key
  {
    if entries[0].0 == key then 0
    else
      assert HasKey(entries[1..], key) by {
        var k :| 0 <= k < |entries| && entries[k].0 == key;
        assert entries[1..][k - 1].0 == key;
      }
      1 + IndexOfKey(entries[1..], key)
  }

  /** The names no entry of `entries` supplies, in order. */
  function MissingNames(entries: seq<(string, Value)>, names: seq<string>): (r: seq<string>)
    ensures forall p :: p in r <==> p in names && !HasKey(entries, p)
  {
    if names == [] then []
    else if HasKey(entries, names[0]) then MissingNames(entries, names[1..])
    else [names[0]] + MissingNames(entries, names[1..])
  }

  function Quote(name: string): string {
    "'" + name + "'"
  }

  /** How CPython lists missing argument names: `'a'`, `'a' and 'b'`,
      `'a', 'b', and 'c'`. */
  function QuotedList(names: seq<string>): string
    requires names != []
  {
    if |names| == 1 then Quote(names[0])
    else if |names| == 2 then Quote(names[0]) + " and " + Quote(names[1])
    else QuotedCommaList(names[..|names| - 1]) + ", and " + Quote(names[|names| - 1])
  }

  function QuotedCommaList(names: seq<string>): string {
    if names == [] then []
    else if |names| == 1 then Quote(names[0])
    else Quote(names[0]) + ", " + QuotedCommaList(names[1..])
  }

  /** The `TypeError` CPython raises when required arguments are missing. */
  function MissingArgumentsError(tool: string, missing: seq<string>): PyError
    requires missing != []
  {
    var count := |missing|;
    TypeError(tool + "() missing " + NatToDecimal(count) + " required positional argument"
      + (if count == 1 then "" else "s") + ": " + QuotedList(missing))
  }

  /** `tool(**params)` up to the call itself: the arguments in parameter
      order, or the `TypeError` the call raises. */
  function BindKeywords(tool: string, params: Value): (r: Result<seq<Value>, PyError>)
    requires IsTool(tool)
    ensures r.Success? ==> params.PyDict? && |r.value| == |Parameters(tool)|
    ensures r.Success? ==> forall k :: 0 <= k < |r.value| ==>
              r.value[k] == Get(params.entries, Parameters(tool)[k], PyNone)
    ensures r.Failure? ==> r.error.TypeError?
  {
    if !params.PyDict? then
      Failure(TypeError("recruitment_utils." + tool + "() argument after ** must be a mapping, not "
        + TypeName(params)))
    else
      var names := Parameters(tool);
      match UnexpectedKeyword(params.entries, names)
      case Some(key) => Failure(TypeError(tool + "() got an unexpected keyword argument '" + key + "'"))
      case None =>
        var missing := MissingNames(params.entries, names);
        if missing != [] then Failure(MissingArgumentsError(tool, missing))
        else Success(seq(|names|, k requires 0 <= k < |names| => Get(params.entries, names[k], PyNone)))
  }

  /** A call binds exactly when the parameters are a dictionary whose keys
      are all parameter names and which supplies every parameter. */
  lemma BindKeywordsSucceedsIff(tool: string, params: Value)
    requires IsTool(tool)
    ensures BindKeywords(tool, params).Success? <==>
              && params.PyDict?
              && (forall k :: 0 <= k < |params.entries| ==> params.entries[k].0 in Parameters(tool))
              && (forall p :: p in Parameters(tool) ==> HasKey(params.entries, p))
  {
    if params.PyDict? {
      var names := Parameters(tool);
      var missing := MissingNames(params.entries, names);
      if missing != [] {
        assert missing[0] in missing;
      }
    }
  }

  /** Binding a dictionary with exactly the parameter names hands each
      parameter its entry. */
  lemma BindKeywordsExact(tool: string, entries: seq<(string, Value)>)
    requires IsTool(tool)
    requires forall k :: 0 <= k < |entries| ==> entries[k].0 in Parameters(tool)
    requires forall p :: p in Parameters(tool) ==> HasKey(entries, p)
    ensures BindKeywords(tool, PyDict(entries)).Success?
    ensures forall k :: 0 <= k < |Parameters(tool)| ==>
              BindKeywords(tool, PyDict(entries)).value[k] == Get(entries, Parameters(tool)[k], PyNone)
  {
    BindKeywordsSucceedsIff(tool, PyDict(entries));
  }

  /** A dictionary with a key that is no parameter fails on that key first. */
  lemma BindKeywordsUnexpected(tool: string, entries: seq<(string, Value)>, key: string)
    requires IsTool(tool)
    requires key !in Parameters(tool)
    requires entries != [] && entries[0].0 == key
    ensures BindKeywords(tool, PyDict(entries))
              == Failure(TypeError(tool + "() got an unexpected keyword argument '" + key + "'"))
  {
  }

  /** An empty dictionary misses all three parameters. */
  lemma BindKeywordsEmpty(tool: string)
    requires IsTool(tool)
    ensures BindKeywords(tool, PyDict([])) == Failure(MissingArgumentsError(tool, Parameters(tool)))
  {
    NothingSuppliedFromEmpty(Parameters(tool));
  }

  lemma {:induction false} NothingSuppliedFromEmpty(names: seq<string>)
    ensures MissingNames([], names) == names
  {
    if names != [] {
      NothingSuppliedFromEmpty(names[1..]);
      assert !HasKey([], names[0]);
      assert [names[0]] + names[1..] == names;
    }
  }

  /** Asking for an outreach message without a score fails, naming the one
      missing argument. */
  lemma MissingScoreMessage(name: Value, messageSection: Value)
    ensures var params := PyDict([("name", name), ("message_section", messageSection)]);
            BindKeywords(GenerateOutreachMessageName, params)
              == Failure(MissingArgumentsError(GenerateOutreachMessageName, ["score"]))
  {
    var entries := [("name", name), ("message_section", messageSection)];
    assert entries[0].0 == "name" && entries[1].0 == "message_section";
    assert HasKey(entries, "name") && HasKey(entries, "message_section");
    assert !HasKey(entries, "score");
    var names := Parameters(GenerateOutreachMessageName);
    assert names[1..] == ["score", "message_section"] && names[2..] == ["message_section"];
    assert MissingNames(entries, names[3..]) == [];
    assert MissingNames(entries, names[2..]) == [];
    assert MissingNames(entries, names[1..]) == ["score"];
    assert MissingNames(entries, names) == ["score"];
    assert UnexpectedKeyword(entries, names) == None;
  }

  // ---------------------------------------------------------------------------
  // function_caller
  // ---------------------------------------------------------------------------

  /** What a call through `function_caller` did: its value or exception, how
      many generator calls it made, and what it set out to deliver. */
  datatype ToolOutcome = ToolOutcome(result: Result<Value, PyError>, generatorCalls: nat, sent: seq<Delivery>)

  function NotFound(name: string): string {
    "Function " + name + " not found"
  }

  /** The value `calculate_profile_score` returns: a 4-tuple. */
  function ReportValue(report: ScoreReport): Value {
    PyTuple([PyInt(report.score), PyStr(report.reasoning), PyStr(report.analysis), PyStr(report.message)])
  }

  /** `function_caller(name, params)`; a scoring call reads `gen(calls)`. */
  function FunctionCaller(name: string, params: Value, gen: nat -> string, calls: nat): (r: ToolOutcome)
    ensures !IsTool(name) ==> r == ToolOutcome(Success(PyStr(NotFound(name))), 0, [])
    ensures IsTool(name) && BindKeywords(name, params).Failure? ==>
              r == ToolOutcome(Failure(BindKeywords(name, params).error), 0, [])
    ensures r.generatorCalls <= 1
    ensures r.generatorCalls == 1 ==> name == CalculateProfileScoreName
    ensures r.sent != [] ==> name == SendNotificationsName && r.result == Success(PyNone)
    ensures name == CalculateProfileScoreName && BindKeywords(name, params).Success? ==>
              var profileData := BindKeywords(name, params).value[2];
              var outcome := CalculateProfileScore(profileData, gen(calls));
              && (outcome.Failure? ==> r.result == Failure(outcome.error))
              && (outcome.Success? ==> r.result == Success(ReportValue(outcome.value)))
              && r.generatorCalls == (if ScorePromptError(profileData).None? then 1 else 0)
              && r.sent == []
    ensures name == GenerateOutreachMessageName && BindKeywords(name, params).Success? ==>
              var args := BindKeywords(name, params).value;
              r == ToolOutcome(Success(PyStr(GenerateOutreachMessage(args[0], args[1], args[2]))), 0, [])
    ensures name == SendNotificationsName && BindKeywords(name, params).Success? ==>
              var args := BindKeywords(name, params).value;
              var outcome := SendNotifications(args[0], args[1], args[2]);
              && (outcome.Failure? ==> r == ToolOutcome(Failure(outcome.error), 0, []))
              && (outcome.Success? ==> r == ToolOutcome(Success(PyNone), 0, outcome.value))
  {
    if !IsTool(name) then ToolOutcome(Success(PyStr(NotFound(name))), 0, [])
    else
      match BindKeywords(name, params)
      case Failure(e) => ToolOutcome(Failure(e), 0, [])
      case Success(args) =>
        if name == CalculateProfileScoreName then
          var profileData := args[2];
          if ScorePromptError(profileData).Some? then
            ToolOutcome(Failure(ScorePromptError(profileData).value), 0, [])
          else
            match CalculateProfileScore(profileData, gen(calls))
            case Failure(e) => ToolOutcome(Failure(e), 1, [])
            case Success(report) => ToolOutcome(Success(ReportValue(report)), 1, [])
        else if name == GenerateOutreachMessageName then
          ToolOutcome(Success(PyStr(GenerateOutreachMessage(args[0], args[1], args[2]))), 0, [])
        else
          match SendNotifications(args[0], args[1], args[2])
          case Failure(e) => ToolOutcome(Failure(e), 0, [])
          case Success(deliveries) => ToolOutcome(Success(PyNone), 0, deliveries)
  }

  /** `send_notifications` returns None whenever it returns. */
  lemma SendNotificationsReturnsNone(params: Value, gen: nat -> string, calls: nat)
    requires FunctionCaller(SendNotificationsName, params, gen, calls).result.Success?
    ensures FunctionCaller(SendNotificationsName, params, gen, calls).result.value == PyNone
  {
  }

  /** A scoring call returns the clamped score of the generator's answer
      first in its tuple. */
  lemma ScoringToolScore(params: Value, gen: nat -> string, calls: nat)
    requires FunctionCaller(CalculateProfileScoreName, params, gen, calls).result.Success?
    ensures var v := FunctionCaller(CalculateProfileScoreName, params, gen, calls).result.value;
            && v.PyTuple? && |v.items| == 4
            && v.items[0] == PyInt(Clamp(ExtractScore(gen(calls))))
            && 0 <= v.items[0].i <= 100
  {
  }

  /** How the loop reaches the tools: name, parameters and the number of
      generator calls made so far, to what the call did. */
  type Dispatcher = (string, Value, nat) -> ToolOutcome

  /** `function_caller`, with the generator the scoring tool reads. */
  function Tools(gen: nat -> string): Dispatcher {
    (name: string, params: Value, calls: nat) => FunctionCaller(name, params, gen, calls)
  }

  // ---------------------------------------------------------------------------
  // The loop, one iteration at a time
  // ---------------------------------------------------------------------------

  /** The loop's variables, together with what it asked and heard so far. */
  datatype Session = Session(
    iteration: nat,
    lastResponse: Value,
    currentQuery: string,
    transcript: seq<string>,
    prompts: seq<string>,
    responses: seq<string>,
    generatorCalls: nat,
    sent: seq<Delivery>)

  const InitialSession := Session(0, PyNone, "", [], [], [], 0, [])

  function InitialQuery(profile: string, jobDescription: string): string {
    "Analyze profile:\nProfile: " + profile + "\nJob: " + jobDescription
  }

  function FollowUpQuery(currentQuery: string, transcript: seq<string>): string {
    currentQuery + "\n\n" + JoinWith(transcript, " ") + "\nWhat should I do next?"
  }

  /** The query of the coming iteration. */
  function NextQuery(profile: string, jobDescription: string, s: Session): string {
    if s.lastResponse == PyNone then InitialQuery(profile, jobDescription)
    else FollowUpQuery(s.currentQuery, s.transcript)
  }

  function Prompt(query: string): string {
    SystemPrompt + "\n\nQuery: " + query
  }

  /** The transcript entry for one tool call. */
  function CallSummary(name: string, params: Value, result: Value): string {
    "Called " + name + " with " + Str(params) + ", got result: " + Str(result)
  }

  /** A prefix holding a colon makes the text hold one. */
  lemma ColonOfPrefix(s: string, prefix: string, i: nat)
    requires StartsWith(s, prefix) && i < |prefix| && prefix[i] == ':'
    ensures ':' in s
  {
    assert s[i] == s[..|prefix|][i];
  }

  /** `s.split(":", 1)[1]`. */
  function AfterFirstColon(s: string): string
    requires ':' in s
  {
    SplitFirst(s, ':')[1]
  }

  /** The payload of a prefixed response is everything after the prefix. */
  lemma AfterPrefix(s: string, prefix: string)
    requires StartsWith(s, prefix) && prefix != [] && prefix[|prefix| - 1] == ':'
    requires ':' !in prefix[..|prefix| - 1]
    ensures ':' in s && AfterFirstColon(s) == s[|prefix|..]
  {
    ColonOfPrefix(s, prefix, |prefix| - 1);
    var parts := SplitFirst(s, ':');
    var i := |parts[0]|;
    assert s == parts[0] + [':'] + parts[1];
    if i < |prefix| - 1 {
      assert false;
    }
    if i > |prefix| - 1 {
      assert false;
    }
  }

  lemma FunctionCallPayload(s: string)
    requires StartsWith(s, FunctionCallPrefix)
    ensures ':' in s && AfterFirstColon(s) == s[|FunctionCallPrefix|..]
  {
    AfterPrefix(s, FunctionCallPrefix);
  }

  lemma FinalAnswerPayload(s: string)
    requires StartsWith(s, FinalAnswerPrefix)
    ensures ':' in s && AfterFirstColon(s) == s[|FinalAnswerPrefix|..]
  {
    AfterPrefix(s, FinalAnswerPrefix);
  }

  /** What an iteration leads to: the next session, or the end of the run
      with its result and the session as it stood when it ended. */
  datatype StepOutcome = Continue(next: Session) | Stop(result: Result<Value, PyError>, last: Session)

  /** The stripped text of the generator call the iteration from `s` makes. */
  function Response(s: Session, gen: nat -> string): string {
    Strip(gen(s.generatorCalls))
  }

  /** The session once the iteration from `s` has built its query and heard
      the generator's response. */
  function Asked(profile: string, jobDescription: string, s: Session, gen: nat -> string): Session {
    var query := NextQuery(profile, jobDescription, s);
    s.(currentQuery := query, prompts := s.prompts + [Prompt(query)],
       responses := s.responses + [Response(s, gen)], generatorCalls := s.generatorCalls + 1)
  }

  /** What calling tool `name` with `params` leads to, from session `s`
      once the response has been heard (`asked`). */
  function ToolCallStep(s: Session, asked: Session, name: string, params: Value, tools: Dispatcher): (r: StepOutcome)
    ensures r.Continue? ==> r.next.iteration == s.iteration + 1
  {
    var call := tools(name, params, asked.generatorCalls);
    var called := asked.(generatorCalls := asked.generatorCalls + call.generatorCalls,
                         sent := asked.sent + call.sent);
    if call.result.Failure? then Stop(Failure(call.result.error), called)
    else
      var value := call.result.value;
      Continue(called.(iteration := s.iteration + 1, lastResponse := value,
                       transcript := s.transcript + [CallSummary(name, params, value)]))
  }

  /** What a `FUNCTION_CALL:` response leads to. */
  function FunctionCallStep(s: Session, asked: Session, response: string,
                            eval: string -> Result<Value, PyError>, tools: Dispatcher): (r: StepOutcome)
    requires ':' in response
    ensures r.Continue? ==> r.next.iteration == s.iteration + 1
  {
    var pieces := SplitFirst(AfterFirstColon(response), '|');
    if |pieces| != 2 then Stop(Failure(ValueError(UnpackMessage)), asked)
    else
      var parsed := eval(Strip(pieces[1]));
      if parsed.Failure? then Stop(Failure(parsed.error), asked)
      else ToolCallStep(s, asked, Strip(pieces[0]), parsed.value, tools)
  }

  /** One iteration of the loop. */
  function Step(profile: string, jobDescription: string, s: Session,
                gen: nat -> string, eval: string -> Result<Value, PyError>, tools: Dispatcher): (r: StepOutcome)
    ensures r.Continue? ==> r.next.iteration == s.iteration + 1
  {
    var response := Response(s, gen);
    var asked := Asked(profile, jobDescription, s, gen);
    if StartsWith(response, FunctionCallPrefix) then
      ColonOfPrefix(response, FunctionCallPrefix, 13);
      FunctionCallStep(s, asked, response, eval, tools)
    else if StartsWith(response, FinalAnswerPrefix) then
      ColonOfPrefix(response, FinalAnswerPrefix, 12);
      Stop(eval(AfterFirstColon(response)), asked)
    else
      Continue(asked.(iteration := s.iteration + 1))
  }

  /** What the run answers when no final answer arrives in time. */
  const MaxIterationsResult :=
    PyDict([("success", PyBool(false)), ("matchScore", PyInt(0)), ("message", PyStr(MaxIterationsMessage))])

  datatype Outcome = Outcome(result: Result<Value, PyError>, trace: Session)

  /** The rest of the run from session `s`. */
  function Run(profile: string, jobDescription: string, s: Session,
               gen: nat -> string, eval: string -> Result<Value, PyError>, tools: Dispatcher): Outcome
    decreases MaxIterations - s.iteration
  {
    if s.iteration >= MaxIterations then Outcome(Success(MaxIterationsResult), s)
    else
      match Step(profile, jobDescription, s, gen, eval, tools)
      case Continue(next) => Run(profile, jobDescription, next, gen, eval, tools)
      case Stop(result, last) => Outcome(result, last)
  }

  /** `run_recruitment_agent(profile_data, job_description)`. */
  function Agent(profileData: Value, jobDescription: string,
                 gen: nat -> string, eval: string -> Result<Value, PyError>): Outcome
  {
    match TruncateProfile(profileData)
    case Failure(e) => Outcome(Failure(e), InitialSession)
    case Success(profile) => Run(profile, jobDescription, InitialSession, gen, eval, Tools(gen))
  }

  // ---------------------------------------------------------------------------
  // The loop as the source writes it
  // ---------------------------------------------------------------------------

  /** `function_caller(func_name, params)` and the bookkeeping after it:
      `last_response` becomes the result and the transcript gains one entry. */
  method CallTool(s: Session, asked: Session, funcName: string, params: Value, tools: Dispatcher)
    returns (outcome: StepOutcome)
    ensures outcome == ToolCallStep(s, asked, funcName, params, tools)
  {
    var call := tools(funcName, params, asked.generatorCalls);
    var called := asked.(generatorCalls := asked.generatorCalls + call.generatorCalls,
                         sent := asked.sent + call.sent);
    if call.result.Failure? {
      return Stop(Failure(call.result.error), called);
    }
    var lastResponse := call.result.value;
    var iterationResponses := s.transcript + [CallSummary(funcName, params, lastResponse)];
    return Continue(called.(iteration := s.iteration + 1, lastResponse := lastResponse,
                            transcript := iterationResponses));
  }

  /** The `FUNCTION_CALL:` branch of the loop body: split off the tool name
      and the parameter text, evaluate the parameters, call the tool. */
  method CallFunction(s: Session, asked: Session, responseText: string,
                      eval: string -> Result<Value, PyError>, tools: Dispatcher)
    returns (outcome: StepOutcome)
    requires ':' in responseText
    ensures outcome == FunctionCallStep(s, asked, responseText, eval, tools)
  {
    var pieces := SplitFirst(AfterFirstColon(responseText), '|');
    if |pieces| != 2 {
      return Stop(Failure(ValueError(UnpackMessage)), asked);
    }
    var funcName, paramText := Strip(pieces[0]), Strip(pieces[1]);
    var params := eval(paramText);
    if params.Failure? {
      return Stop(Failure(params.error), asked);
    }
    outcome := CallTool(s, asked, funcName, params.value, tools);
  }

  /** The body of the `while` loop: rebuild the query, ask the generator,
      and act on the response's prefix. */
  method Iterate(profile: string, jobDescription: string, s: Session,
                 gen: nat -> string, eval: string -> Result<Value, PyError>, tools: Dispatcher)
    returns (outcome: StepOutcome)
    ensures outcome == Step(profile, jobDescription, s, gen, eval, tools)
  {
    var currentQuery;
    if s.lastResponse == PyNone {
      currentQuery := InitialQuery(profile, jobDescription);
    } else {
      currentQuery := FollowUpQuery(s.currentQuery, s.transcript);
    }
    var prompt := Prompt(currentQuery);
    var responseText := Strip(gen(s.generatorCalls));
    var asked := s.(currentQuery := currentQuery, prompts := s.prompts + [prompt],
                    responses := s.responses + [responseText], generatorCalls := s.generatorCalls + 1);

    if StartsWith(responseText, FunctionCallPrefix) {
      ColonOfPrefix(responseText, FunctionCallPrefix, 13);
      outcome := CallFunction(s, asked, responseText, eval, tools);
    } else if StartsWith(responseText, FinalAnswerPrefix) {
      ColonOfPrefix(responseText, FinalAnswerPrefix, 12);
      var finalResult := eval(AfterFirstColon(responseText));
      outcome := Stop(finalResult, asked);
    } else {
      outcome := Continue(asked.(iteration := s.iteration + 1));
    }
  }

  /** `run_recruitment_agent`: truncate the profile, then loop while the
      iteration counter is below `MaxIterations`; the run's result and its
      trace. */
  method RunRecruitmentAgent(profileData: Value, jobDescription: string,
                             gen: nat -> string, eval: string -> Result<Value, PyError>)
    returns (result: Result<Value, PyError>, trace: Session)
    ensures Outcome(result, trace) == Agent(profileData, jobDescription, gen, eval)
  {
    var truncated := TruncateProfile(profileData);
    if truncated.Failure? {
      return Failure(truncated.error), InitialSession;
    }
    var profile := truncated.value;
    var session := InitialSession;
    while session.iteration < MaxIterations
      invariant Run(profile, jobDescription, session, gen, eval, Tools(gen)) == Agent(profileData, jobDescription, gen, eval)
      decreases MaxIterations - session.iteration
    {
      var outcome := Iterate(profile, jobDescription, session, gen, eval, Tools(gen));
      if outcome.Stop? {
        return outcome.result, outcome.last;
      }
      session := outcome.next;
    }
    return Success(MaxIterationsResult), session;
  }

  // ---------------------------------------------------------------------------
  // Properties of the query, the tools and one iteration
  // ---------------------------------------------------------------------------

  /** Before any tool has answered, and after a tool answered None, the query
      is the initial one. Otherwise it extends the previous query and quotes
      every transcript entry, so it grows with each iteration. */
  lemma NextQueryCases(profile: string, jobDescription: string, s: Session)
    ensures s.lastResponse == PyNone ==> NextQuery(profile, jobDescription, s) == InitialQuery(profile, jobDescription)
    ensures s.lastResponse != PyNone ==>
              StartsWith(NextQuery(profile, jobDescription, s), s.currentQuery + "\n\n")
    ensures s.lastResponse != PyNone ==>
              forall k :: 0 <= k < |s.transcript| ==> Contains(NextQuery(profile, jobDescription, s), s.transcript[k])
  {
    if s.lastResponse != PyNone {
      var joined := JoinWith(s.transcript, " ");
      var q := NextQuery(profile, jobDescription, s);
      var head := s.currentQuery + "\n\n";
      assert q == head + (joined + "\nWhat should I do next?");
      assert q[..|head|] == head;
      forall k | 0 <= k < |s.transcript| ensures Contains(q, s.transcript[k]) {
        JoinContainsParts(s.transcript, " ", k);
        ContainsInConcat(joined, "\nWhat should I do next?", s.transcript[k]);
        ContainsInConcat(head, joined + "\nWhat should I do next?", s.transcript[k]);
      }
    }
  }

  /** Through `function_caller`, a tool makes at most one generator call. */
  lemma ToolsCallGeneratorAtMostOnce(gen: nat -> string)
    ensures forall name, params, calls :: Tools(gen)(name, params, calls).generatorCalls <= 1
  {
  }

  /** `send_notifications` answers None, so the query after it is the
      initial query again, however many calls came before. */
  lemma SendNotificationsResetsQuery(profile: string, jobDescription: string, s: Session, asked: Session,
                                     params: Value, gen: nat -> string)
    requires ToolCallStep(s, asked, SendNotificationsName, params, Tools(gen)).Continue?
    ensures var next := ToolCallStep(s, asked, SendNotificationsName, params, Tools(gen)).next;
            && next.lastResponse == PyNone
            && NextQuery(profile, jobDescription, next) == InitialQuery(profile, jobDescription)
  {
    SendNotificationsReturnsNone(params, gen, asked.generatorCalls);
  }

  /** `b` begins with `a`. */
  predicate Extends<T(==)>(b: seq<T>, a: seq<T>) {
    |a| <= |b| && b[..|a|] == a
  }

  /** The session an iteration leaves behind, whether the run goes on or not. */
  function After(r: StepOutcome): Session {
    if r.Continue? then r.next else r.last
  }

  /** `asked` is `s` with the query, prompt and response of one more
      iteration recorded, and nothing else changed. */
  predicate AskedFrom(s: Session, asked: Session) {
    && asked.iteration == s.iteration
    && asked.transcript == s.transcript
    && asked.sent == s.sent
    && asked.generatorCalls == s.generatorCalls + 1
  }

  /** What any iteration from `s` that heard `asked` leaves behind: the
      query, prompts and responses as asked; the generator calls, deliveries
      and transcript only grow, the transcript by at most one entry; and an
      iteration that stops neither counts itself nor adds to the transcript. */
  predicate Follows(s: Session, asked: Session, r: StepOutcome) {
    var t := After(r);
    && t.currentQuery == asked.currentQuery
    && t.prompts == asked.prompts
    && t.responses == asked.responses
    && asked.generatorCalls <= t.generatorCalls
    && Extends(t.sent, s.sent)
    && Extends(t.transcript, s.transcript) && |t.transcript| <= |s.transcript| + 1
    && (r.Stop? ==> t.iteration == s.iteration && t.transcript == s.transcript)
  }

  lemma ToolCallStepFollows(s: Session, asked: Session, name: string, params: Value, tools: Dispatcher)
    requires AskedFrom(s, asked)
    ensures Follows(s, asked, ToolCallStep(s, asked, name, params, tools))
    ensures (forall name', params', calls :: tools(name', params', calls).generatorCalls <= 1) ==>
              After(ToolCallStep(s, asked, name, params, tools)).generatorCalls <= asked.generatorCalls + 1
  {
    var call := tools(name, params, asked.generatorCalls);
    assert (s.sent + call.sent)[..|s.sent|] == s.sent;
    if call.result.Success? {
      assert (s.transcript + [CallSummary(name, params, call.result.value)])[..|s.transcript|] == s.transcript;
    }
  }

  lemma FunctionCallStepFollows(s: Session, asked: Session, response: string,
                                eval: string -> Result<Value, PyError>, tools: Dispatcher)
    requires ':' in response && AskedFrom(s, asked)
    ensures Follows(s, asked, FunctionCallStep(s, asked, response, eval, tools))
    ensures (forall name', params', calls :: tools(name', params', calls).generatorCalls <= 1) ==>
              After(FunctionCallStep(s, asked, response, eval, tools)).generatorCalls <= asked.generatorCalls + 1
  {
    var pieces := SplitFirst(AfterFirstColon(response), '|');
    if |pieces| == 2 && eval(Strip(pieces[1])).Success? {
      ToolCallStepFollows(s, asked, Strip(pieces[0]), eval(Strip(pieces[1])).value, tools);
    }
  }

  /** No response starts with both prefixes. */
  lemma PrefixesExclusive(response: string)
    ensures !(StartsWith(response, FunctionCallPrefix) && StartsWith(response, FinalAnswerPrefix))
  {
    if StartsWith(response, FunctionCallPrefix) {
      assert response[1] == response[..|FunctionCallPrefix|][1] == 'U';
      assert response[..|FinalAnswerPrefix|][1] != FinalAnswerPrefix[1];
    }
  }

  /** Every iteration builds one prompt from the query and hears one
      response; the transcript and the deliveries only ever grow, the
      transcript by at most one entry. */
  lemma StepRecords(profile: string, jobDescription: string, s: Session,
                    gen: nat -> string, eval: string -> Result<Value, PyError>, tools: Dispatcher)
    ensures var asked := Asked(profile, jobDescription, s, gen);
            && asked.currentQuery == NextQuery(profile, jobDescription, s)
            && asked.prompts == s.prompts + [Prompt(NextQuery(profile, jobDescription, s))]
            && asked.responses == s.responses + [Response(s, gen)]
            && Follows(s, asked, Step(profile, jobDescription, s, gen, eval, tools))
    ensures (forall name', params', calls :: tools(name', params', calls).generatorCalls <= 1) ==>
              After(Step(profile, jobDescription, s, gen, eval, tools)).generatorCalls <= s.generatorCalls + 2
  {
    var response := Response(s, gen);
    var asked := Asked(profile, jobDescription, s, gen);
    assert AskedFrom(s, asked);
    if StartsWith(response, FunctionCallPrefix) {
      ColonOfPrefix(response, FunctionCallPrefix, 13);
      FunctionCallStepFollows(s, asked, response, eval, tools);
    } else if !StartsWith(response, FinalAnswerPrefix) {
      assert After(Step(profile, jobDescription, s, gen, eval, tools)).transcript == s.transcript;
      assert After(Step(profile, jobDescription, s, gen, eval, tools)).sent == s.sent;
    }
  }

  /** A response that starts with neither prefix calls no tool: the
      transcript, the last tool result and the deliveries stay as they were,
      and only the counter (and the record of what was asked) moves on. */
  lemma StepSkipsOtherResponses(profile: string, jobDescription: string, s: Session,
                                gen: nat -> string, eval: string -> Result<Value, PyError>, tools: Dispatcher)
    requires !StartsWith(Response(s, gen), FunctionCallPrefix) && !StartsWith(Response(s, gen), FinalAnswerPrefix)
    ensures var r := Step(profile, jobDescription, s, gen, eval, tools);
            && r.Continue?
            && r.next.iteration == s.iteration + 1
            && r.next.transcript == s.transcript
            && r.next.lastResponse == s.lastResponse
            && r.next.sent == s.sent
            && r.next.generatorCalls == s.generatorCalls + 1
  {
  }

  /** A `FINAL_ANSWER:` response ends the run with the evaluation of
      everything after the prefix, as it is. */
  lemma StepFinalAnswer(profile: string, jobDescription: string, s: Session,
                        gen: nat -> string, eval: string -> Result<Value, PyError>, tools: Dispatcher)
    requires StartsWith(Response(s, gen), FinalAnswerPrefix)
    ensures var r := Step(profile, jobDescription, s, gen, eval, tools);
            && r.Stop?
            && r.result == eval(Response(s, gen)[|FinalAnswerPrefix|..])
            && r.last.transcript == s.transcript
  {
    PrefixesExclusive(Response(s, gen));
    FinalAnswerPayload(Response(s, gen));
  }

  /** The final answer does not depend on what the tools returned earlier:
      two sessions that have made the same number of generator calls end
      with the same result. This rests on `eval` reading only its text;
      Python's `eval` could also read the loop's locals. */
  lemma FinalAnswerIgnoresHistory(profile: string, jobDescription: string, s: Session, t: Session,
                                  gen: nat -> string, eval: string -> Result<Value, PyError>, tools: Dispatcher)
    requires s.generatorCalls == t.generatorCalls
    requires StartsWith(Response(s, gen), FinalAnswerPrefix)
    ensures var r := Step(profile, jobDescription, s, gen, eval, tools);
            var r' := Step(profile, jobDescription, t, gen, eval, tools);
            r.Stop? && r'.Stop? && r.result == r'.result
  {
    StepFinalAnswer(profile, jobDescription, s, gen, eval, tools);
    StepFinalAnswer(profile, jobDescription, t, gen, eval, tools);
  }

  /** A `FUNCTION_CALL:` response without `|` after the prefix cannot be
      unpacked into a name and parameters: the run raises `ValueError`. */
  lemma StepMissingSeparator(profile: string, jobDescription: string, s: Session,
                             gen: nat -> string, eval: string -> Result<Value, PyError>, tools: Dispatcher)
    requires StartsWith(Response(s, gen), FunctionCallPrefix)
    requires '|' !in Response(s, gen)[|FunctionCallPrefix|..]
    ensures var r := Step(profile, jobDescription, s, gen, eval, tools);
            r.Stop? && r.result == Failure(ValueError(UnpackMessage))
  {
    FunctionCallPayload(Response(s, gen));
  }

  /** The tool name of a `FUNCTION_CALL:` response: the stripped text
      between the prefix and the first `|`. */
  function ToolName(response: string): string
    requires StartsWith(response, FunctionCallPrefix) && '|' in response[|FunctionCallPrefix|..]
  {
    var payload := response[|FunctionCallPrefix|..];
    Strip(payload[..IndexOf(payload, '|')])
  }

  /** The parameter text of a `FUNCTION_CALL:` response: the stripped text
      after the first `|`. */
  function ParameterText(response: string): string
    requires StartsWith(response, FunctionCallPrefix) && '|' in response[|FunctionCallPrefix|..]
  {
    var payload := response[|FunctionCallPrefix|..];
    Strip(payload[IndexOf(payload, '|') + 1..])
  }

  /** A `FUNCTION_CALL:` response whose parameter text does not evaluate
      ends the run with the exception `eval` raised. */
  lemma StepUnparsableParameters(profile: string, jobDescription: string, s: Session,
                                 gen: nat -> string, eval: string -> Result<Value, PyError>, tools: Dispatcher)
    requires StartsWith(Response(s, gen), FunctionCallPrefix)
    requires '|' in Response(s, gen)[|FunctionCallPrefix|..]
    requires eval(ParameterText(Response(s, gen))).Failure?
    ensures Step(profile, jobDescription, s, gen, eval, tools)
              == Stop(Failure(eval(ParameterText(Response(s, gen))).error), Asked(profile, jobDescription, s, gen))
  {
    StepFunctionCallParts(profile, jobDescription, s, gen, eval, tools);
  }

  /** A tool that raises ends the run with its exception. */
  lemma StepToolRaises(profile: string, jobDescription: string, s: Session,
                       gen: nat -> string, eval: string -> Result<Value, PyError>, tools: Dispatcher)
    requires StartsWith(Response(s, gen), FunctionCallPrefix)
    requires '|' in Response(s, gen)[|FunctionCallPrefix|..]
    requires eval(ParameterText(Response(s, gen))).Success?
    requires tools(ToolName(Response(s, gen)), eval(ParameterText(Response(s, gen))).value,
                   s.generatorCalls + 1).result.Failure?
    ensures var r := Step(profile, jobDescription, s, gen, eval, tools);
            && r.Stop?
            && r.result == Failure(tools(ToolName(Response(s, gen)), eval(ParameterText(Response(s, gen))).value,
                                         s.generatorCalls + 1).result.error)
  {
    StepFunctionCallParts(profile, jobDescription, s, gen, eval, tools);
    var asked := Asked(profile, jobDescription, s, gen);
    assert asked.generatorCalls == s.generatorCalls + 1;
    ToolCallStepResult(s, asked, ToolName(Response(s, gen)), eval(ParameterText(Response(s, gen))).value, tools);
  }

  /** A tool that returns adds exactly one transcript entry, naming the tool,
      its parameters and its value, and its value becomes the last tool
      result. */
  lemma StepToolReturns(profile: string, jobDescription: string, s: Session,
                        gen: nat -> string, eval: string -> Result<Value, PyError>, tools: Dispatcher)
    requires StartsWith(Response(s, gen), FunctionCallPrefix)
    requires '|' in Response(s, gen)[|FunctionCallPrefix|..]
    requires eval(ParameterText(Response(s, gen))).Success?
    requires tools(ToolName(Response(s, gen)), eval(ParameterText(Response(s, gen))).value,
                   s.generatorCalls + 1).result.Success?
    ensures var name := ToolName(Response(s, gen));
            var params := eval(ParameterText(Response(s, gen))).value;
            var value := tools(name, params, s.generatorCalls + 1).result.value;
            var r := Step(profile, jobDescription, s, gen, eval, tools);
            && r.Continue?
            && r.next.lastResponse == value
            && r.next.transcript == s.transcript + [CallSummary(name, params, value)]
  {
    StepFunctionCallParts(profile, jobDescription, s, gen, eval, tools);
    var asked := Asked(profile, jobDescription, s, gen);
    assert asked.generatorCalls == s.generatorCalls + 1;
    ToolCallStepResult(s, asked, ToolName(Response(s, gen)), eval(ParameterText(Response(s, gen))).value, tools);
  }

  /** The step of a `FUNCTION_CALL:` response with a `|`, in terms of its
      tool name and parameter text. */
  lemma ToolCallStepResult(s: Session, asked: Session, name: string, params: Value, tools: Dispatcher)
    ensures var call := tools(name, params, asked.generatorCalls);
            var r := ToolCallStep(s, asked, name, params, tools);
            && (call.result.Failure? ==> r.Stop? && r.result == Failure(call.result.error))
            && (call.result.Success? ==>
                  && r.Continue?
                  && r.next.lastResponse == call.result.value
                  && r.next.transcript == s.transcript + [CallSummary(name, params, call.result.value)])
  {
  }

  lemma StepFunctionCallParts(profile: string, jobDescription: string, s: Session,
                              gen: nat -> string, eval: string -> Result<Value, PyError>, tools: Dispatcher)
    requires StartsWith(Response(s, gen), FunctionCallPrefix)
    requires '|' in Response(s, gen)[|FunctionCallPrefix|..]
    ensures var parsed := eval(ParameterText(Response(s, gen)));
            var asked := Asked(profile, jobDescription, s, gen);
            Step(profile, jobDescription, s, gen, eval, tools)
              == if parsed.Failure? then Stop(Failure(parsed.error), asked)
                 else ToolCallStep(s, asked, ToolName(Response(s, gen)), parsed.value, tools)
  {
    var response := Response(s, gen);
    FunctionCallPayload(response);
    StepOfFunctionCall(profile, jobDescription, s, gen, eval, tools);
    SplitFirstAt(response[|FunctionCallPrefix|..], '|');
  }

  lemma StepOfFunctionCall(profile: string, jobDescription: string, s: Session,
                           gen: nat -> string, eval: string -> Result<Value, PyError>, tools: Dispatcher)
    requires StartsWith(Response(s, gen), FunctionCallPrefix)
    ensures ':' in Response(s, gen)
    ensures Step(profile, jobDescription, s, gen, eval, tools)
              == FunctionCallStep(s, Asked(profile, jobDescription, s, gen), Response(s, gen), eval, tools)
  {
    ColonOfPrefix(Response(s, gen), FunctionCallPrefix, 13);
  }

  // ---------------------------------------------------------------------------
  // Properties of a whole run
  // ---------------------------------------------------------------------------

  /** The loop asks the generator once per iteration, so at most
      `MaxIterations` times; the transcript and the deliveries only grow. */
  lemma {:induction false} RunBounds(profile: string, jobDescription: string, s: Session,
                                     gen: nat -> string, eval: string -> Result<Value, PyError>, tools: Dispatcher)
    requires |s.prompts| == s.iteration <= MaxIterations
    ensures var o := Run(profile, jobDescription, s, gen, eval, tools);
            && |o.trace.prompts| <= MaxIterations
            && |o.trace.responses| - |o.trace.prompts| == |s.responses| - |s.prompts|
            && Extends(o.trace.prompts, s.prompts)
            && Extends(o.trace.transcript, s.transcript)
            && Extends(o.trace.sent, s.sent)
    decreases MaxIterations - s.iteration
  {
    if s.iteration < MaxIterations {
      StepRecords(profile, jobDescription, s, gen, eval, tools);
      var r := Step(profile, jobDescription, s, gen, eval, tools);
      if r.Continue? {
        RunBounds(profile, jobDescription, r.next, gen, eval, tools);
        var o := Run(profile, jobDescription, r.next, gen, eval, tools);
        assert o.trace.prompts[..|s.prompts|] == o.trace.prompts[..|r.next.prompts|][..|s.prompts|];
        assert o.trace.transcript[..|s.transcript|] == o.trace.transcript[..|r.next.transcript|][..|s.transcript|];
        assert o.trace.sent[..|s.sent|] == o.trace.sent[..|r.next.sent|][..|s.sent|];
      }
    }
  }

  /** A run that answers at all answers either the max-iterations dictionary
      or the evaluation of its last response, which was a final answer. */
  lemma {:induction false} RunResultOrigin(profile: string, jobDescription: string, s: Session,
                                           gen: nat -> string, eval: string -> Result<Value, PyError>, tools: Dispatcher)
    ensures var o := Run(profile, jobDescription, s, gen, eval, tools);
            o.result.Success? ==>
              || o.result.value == MaxIterationsResult
              || (&& o.trace.responses != []
                  && var last := o.trace.responses[|o.trace.responses| - 1];
                  && StartsWith(last, FinalAnswerPrefix)
                  && o.result == eval(last[|FinalAnswerPrefix|..]))
    decreases MaxIterations - s.iteration
  {
    if s.iteration < MaxIterations {
      StepRecords(profile, jobDescription, s, gen, eval, tools);
      var r := Step(profile, jobDescription, s, gen, eval, tools);
      if r.Continue? {
        RunResultOrigin(profile, jobDescription, r.next, gen, eval, tools);
      } else {
        StepStopOrigin(profile, jobDescription, s, gen, eval, tools);
      }
    }
  }

  /** An iteration ends the run with a value only on a final answer, whose
      evaluation that value is. */
  lemma StepStopOrigin(profile: string, jobDescription: string, s: Session,
                       gen: nat -> string, eval: string -> Result<Value, PyError>, tools: Dispatcher)
    ensures var r := Step(profile, jobDescription, s, gen, eval, tools);
            r.Stop? && r.result.Success? ==>
              && StartsWith(Response(s, gen), FinalAnswerPrefix)
              && r.result == eval(Response(s, gen)[|FinalAnswerPrefix|..])
  {
    var response := Response(s, gen);
    if StartsWith(response, FunctionCallPrefix) {
      StepOfFunctionCall(profile, jobDescription, s, gen, eval, tools);
      FunctionCallStepRaises(s, Asked(profile, jobDescription, s, gen), response, eval, tools);
    } else if StartsWith(response, FinalAnswerPrefix) {
      StepFinalAnswer(profile, jobDescription, s, gen, eval, tools);
    }
  }

  /** A `FUNCTION_CALL:` response ends the run only with an exception. */
  lemma FunctionCallStepRaises(s: Session, asked: Session, response: string,
                               eval: string -> Result<Value, PyError>, tools: Dispatcher)
    requires ':' in response
    ensures var r := FunctionCallStep(s, asked, response, eval, tools);
            r.Stop? ==> r.result.Failure?
  {
  }

  /** Iterations whose responses start with neither prefix, from a session in
      which no tool has answered, keep asking with the initial query and end
      with the max-iterations dictionary. */
  lemma {:induction false} RunWithoutAnswers(profile: string, jobDescription: string, s: Session,
                                             gen: nat -> string, eval: string -> Result<Value, PyError>, tools: Dispatcher)
    requires s.lastResponse == PyNone && s.transcript == [] && s.generatorCalls == s.iteration <= MaxIterations
    requires forall k :: 0 <= k < |s.prompts| ==> s.prompts[k] == Prompt(InitialQuery(profile, jobDescription))
    requires |s.prompts| == s.iteration
    requires forall k :: s.iteration <= k < MaxIterations ==>
               !StartsWith(Strip(gen(k)), FunctionCallPrefix) && !StartsWith(Strip(gen(k)), FinalAnswerPrefix)
    ensures var o := Run(profile, jobDescription, s, gen, eval, tools);
            && o.result == Success(MaxIterationsResult)
            && o.trace.transcript == []
            && |o.trace.prompts| == MaxIterations
            && forall k :: 0 <= k < MaxIterations ==> o.trace.prompts[k] == Prompt(InitialQuery(profile, jobDescription))
    decreases MaxIterations - s.iteration
  {
    if s.iteration < MaxIterations {
      StepSkipsOtherResponses(profile, jobDescription, s, gen, eval, tools);
      StepRecords(profile, jobDescription, s, gen, eval, tools);
      var next := Step(profile, jobDescription, s, gen, eval, tools).next;
      assert next.prompts == s.prompts + [Prompt(InitialQuery(profile, jobDescription))];
      RunWithoutAnswers(profile, jobDescription, next, gen, eval, tools);
    }
  }

  /** When none of the three responses starts with `FUNCTION_CALL:` or
      `FINAL_ANSWER:`, the agent asks three times with the initial query and
      answers the max-iterations dictionary. */
  lemma AgentWithoutAnswers(profileData: Value, jobDescription: string,
                            gen: nat -> string, eval: string -> Result<Value, PyError>)
    requires profileData.PyStr? || profileData.PyDict?
    requires forall k :: 0 <= k < MaxIterations ==>
               !StartsWith(Strip(gen(k)), FunctionCallPrefix) && !StartsWith(Strip(gen(k)), FinalAnswerPrefix)
    ensures var o := Agent(profileData, jobDescription, gen, eval);
            var profile := TruncateProfile(profileData).value;
            && o.result == Success(MaxIterationsResult)
            && o.trace.transcript == []
            && |o.trace.prompts| == MaxIterations
            && forall k :: 0 <= k < MaxIterations ==> o.trace.prompts[k] == Prompt(InitialQuery(profile, jobDescription))
  {
    var profile := TruncateProfile(profileData).value;
    RunWithoutAnswers(profile, jobDescription, InitialSession, gen, eval, Tools(gen));
  }

  /** The agent asks the generator itself at most `MaxIterations` times, and
      with the scoring tool's calls at most twice that. */
  lemma AgentGeneratorCalls(profileData: Value, jobDescription: string,
                            gen: nat -> string, eval: string -> Result<Value, PyError>)
    ensures var o := Agent(profileData, jobDescription, gen, eval);
            && |o.trace.prompts| <= MaxIterations
            && |o.trace.responses| == |o.trace.prompts|
            && o.trace.generatorCalls <= 2 * |o.trace.prompts|
  {
    if TruncateProfile(profileData).Success? {
      var profile := TruncateProfile(profileData).value;
      RunBounds(profile, jobDescription, InitialSession, gen, eval, Tools(gen));
      ToolsCallGeneratorAtMostOnce(gen);
      RunGeneratorCalls(profile, jobDescription, InitialSession, gen, eval, Tools(gen));
    }
  }

  /** With tools that call the generator at most once, a run makes at most
      two generator calls per prompt. */
  lemma {:induction false} RunGeneratorCalls(profile: string, jobDescription: string, s: Session,
                                             gen: nat -> string, eval: string -> Result<Value, PyError>, tools: Dispatcher)
    requires forall name, params, calls :: tools(name, params, calls).generatorCalls <= 1
    requires s.generatorCalls <= 2 * |s.prompts|
    ensures var o := Run(profile, jobDescription, s, gen, eval, tools);
            o.trace.generatorCalls <= 2 * |o.trace.prompts|
    decreases MaxIterations - s.iteration
  {
    if s.iteration < MaxIterations {
      var r := Step(profile, jobDescription, s, gen, eval, tools);
      var t := if r.Continue? then r.next else r.last;
      assert t.generatorCalls <= s.generatorCalls + 2 && |t.prompts| == |s.prompts| + 1 by {
        StepRecords(profile, jobDescription, s, gen, eval, tools);
      }
      if r.Continue? {
        RunGeneratorCalls(profile, jobDescription, r.next, gen, eval, tools);
      }
    }
  }
}
