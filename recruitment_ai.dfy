/**
 * `backend/recruitment_ai.py`: the score and reasoning extraction
 * `extract_score_from_text`, the failure shape of `analyze_profile`, and the
 * placeholder extractors that always answer a constant.
 */
module RecruitmentAi {
  import opened Wrappers
  import opened Text
  import opened PyValues
  import opened RecruitmentUtils
  import opened RecruitmentAgent

  const ScoreNotFoundMessage := "Score not found in response"
  const InvalidScoreMessage := "Invalid score format"
  const ReasoningNotFoundMessage := "Reasoning section not found"
  const AnalysisFailedMessage := "Analysis failed"

  // ---------------------------------------------------------------------------
  // extract_score_from_text
  // ---------------------------------------------------------------------------

  /** The reasoning of `extract_score_from_text`: with both headers present,
      the text between them with every `### Match Analysis` removed, then
      stripped; otherwise a fixed message. */
  function ExtractReasoning(text: string): string {
    var a, b := Find(text, MatchAnalysisHeader), Find(text, QualificationsHeader);
    if a != -1 && b != -1 then Strip(RemoveAll(PySlice(text, a, b), MatchAnalysisHeader))
    else ReasoningNotFoundMessage
  }

  /** `extract_score_from_text(text)`: the score and the reasoning. */
  function ExtractScoreFromText(text: string): (int, string) {
    var line := ScoreLine(text);
    if line == [] then (0, ScoreNotFoundMessage)
    else
      var digits := Digits(line);
      if digits == [] then (0, InvalidScoreMessage)
      else (ParseDecimal(digits), ExtractReasoning(text))
  }

  /** The score agrees with `extract_score` on every text, so it is never
      negative; unlike `calculate_profile_score` it is not clamped. */
  lemma ScoreFromTextAgrees(text: string)
    ensures ExtractScoreFromText(text).0 == ExtractScore(text)
    ensures ExtractScoreFromText(text).0 >= 0
  {
  }

  /** Without the score marker the answer is `(0, "Score not found in
      response")`; with it, the score line has no digits exactly when the
      answer is `(0, "Invalid score format")`, and otherwise the reasoning is
      extracted. */
  lemma ScoreFromTextCases(text: string)
    ensures !Contains(text, ScoreMarker) ==> ExtractScoreFromText(text) == (0, ScoreNotFoundMessage)
    ensures Contains(text, ScoreMarker) && Digits(ScoreLine(text)) == [] ==>
              ExtractScoreFromText(text) == (0, InvalidScoreMessage)
    ensures Contains(text, ScoreMarker) && Digits(ScoreLine(text)) != [] ==>
              ExtractScoreFromText(text) == (ExtractScore(text), ExtractReasoning(text))
  {
    ScoreLineFound(text);
  }

  /** Every digit of the score line counts: a score written `8/10` reads as
      810. */
  lemma ScoreOutOfTen()
    ensures ExtractScoreFromText(ScoreMarker + " 8/10").0 == 810
  {
    var line := ScoreMarker + " 8/10";
    SingleScoreLine(line);
    DigitsOfEightOutOfTen();
    assert ParseDecimal("810") == 810 by {
      assert "810"[..2] == "81" && "81"[..1] == "8" && "8"[..0] == [];
    }
  }

  lemma SingleScoreLine(line: string)
    requires line == ScoreMarker + " 8/10"
    ensures ScoreLine(line) == line
  {
    assert '\n' !in line;
    assert OccursAt(line, ScoreMarker, 0);
    ScoreLineOfLines([], line, []);
    assert [] + [line] + [] == [line];
  }

  /** A proof step, stated on its own to keep the queries that use it small. */
  lemma MarkerHasNoDigits()
    ensures Digits(ScoreMarker) == []
  {
  }

  lemma DigitsOfEightOutOfTen()
    ensures Digits(ScoreMarker + " 8/10") == "810"
  {
    DigitsAppend(ScoreMarker, " 8/10");
    MarkerHasNoDigits();
    assert " 8/10"[1..] == "8/10" && "8/10"[1..] == "/10" && "/10"[1..] == "10" && "10"[1..] == "0";
    assert Digits("0") == "0";
    assert Digits("10") == "10";
    assert Digits("/10") == "10";
    assert Digits("8/10") == "810";
  }

  /** With both headers present, the reasoning is the stripped text after the
      `### Match Analysis` header up to `### Qualifications Analysis`, with
      any further copy of the header removed; when the qualifications header
      comes first the reasoning is empty. */
  lemma ReasoningBetweenHeaders(text: string)
    requires Contains(text, MatchAnalysisHeader) && Contains(text, QualificationsHeader)
    ensures var a, b := Find(text, MatchAnalysisHeader), Find(text, QualificationsHeader);
            && (a < b ==> a + |MatchAnalysisHeader| <= b
                          && ExtractReasoning(text)
                               == Strip(RemoveAll(text[a + |MatchAnalysisHeader|..b], MatchAnalysisHeader)))
            && (b < a ==> ExtractReasoning(text) == [])
  {
    var a, b := Find(text, MatchAnalysisHeader), Find(text, QualificationsHeader);
    if a < b {
      MatchBeforeQualifications();
      OccurrencesApart(text, MatchAnalysisHeader, QualificationsHeader, a, b);
      var slice := text[a..b];
      assert PySlice(text, a, b) == slice;
      SliceFromOccurrence(text, MatchAnalysisHeader, a, b);
      assert slice[|MatchAnalysisHeader|..] == text[a + |MatchAnalysisHeader|..b];
      RemoveAllLeading(slice, MatchAnalysisHeader);
    } else if b < a {
      assert PySlice(text, a, b) == [];
      StripEmptyIff([], IsPySpace);
    }
  }

  /** Removing every copy of `p` from text that begins with `p` removes that
      first copy and goes on after it. */
  lemma RemoveAllLeading(s: string, p: string)
    requires p != [] && StartsWith(s, p)
    ensures RemoveAll(s, p) == RemoveAll(s[|p|..], p)
  {
  }

  /** A missing header gives the fixed message, not a slice: `find`'s -1 is
      tested before slicing here, unlike in `calculate_profile_score`. */
  lemma ReasoningWithoutHeader(text: string)
    requires !Contains(text, MatchAnalysisHeader) || !Contains(text, QualificationsHeader)
    ensures ExtractReasoning(text) == ReasoningNotFoundMessage
  {
  }

  // ---------------------------------------------------------------------------
  // analyze_profile
  // ---------------------------------------------------------------------------

  /** The dictionary `analyze_profile` answers when the agent raised `e`. */
  function AnalysisFailure(e: PyError): Value {
    PyDict([("success", PyBool(false)), ("error", PyStr(e.message)), ("matchScore", PyInt(0)),
            ("scoreReasoning", PyStr(AnalysisFailedMessage)), ("analysis", PyStr("")), ("message", PyStr(""))])
  }

  /** `analyze_profile(profile_data, job_description)`: what the agent
      answers, or the failure dictionary when it raised. */
  function AnalyzeProfile(profileData: Value, jobDescription: string,
                          gen: nat -> string, eval: string -> Result<Value, PyError>): Value
  {
    var outcome := Agent(profileData, jobDescription, gen, eval);
    if outcome.result.Failure? then AnalysisFailure(outcome.result.error) else outcome.result.value
  }

  /** The failure dictionary reports failure, a zero score and the
      exception's text. */
  lemma AnalysisFailureShape(e: PyError)
    ensures var d := AnalysisFailure(e);
            && d.PyDict?
            && Get(d.entries, "success", PyNone) == PyBool(false)
            && Get(d.entries, "matchScore", PyNone) == PyInt(0)
            && Get(d.entries, "error", PyNone) == PyStr(e.message)
            && Get(d.entries, "scoreReasoning", PyNone) == PyStr(AnalysisFailedMessage)
            && !Truthy(Get(d.entries, "success", PyNone))
  {
    var es := AnalysisFailure(e).entries;
    var es1 := es[1..];
    var es2 := es1[1..];
    var es3 := es2[1..];
    assert es1[0].0 == "error" && es2[0].0 == "matchScore" && es3[0].0 == "scoreReasoning";
    GetSkip(es, "error");
    GetSkip(es, "matchScore");
    GetSkip(es1, "matchScore");
    GetSkip(es, "scoreReasoning");
    GetSkip(es1, "scoreReasoning");
    GetSkip(es2, "scoreReasoning");
  }

  /** `analyze_profile` never raises: it answers the max-iterations
      dictionary, the evaluation of the last response as a final answer, or
      the failure dictionary of the exception the agent raised. */
  lemma AnalyzeProfileOutcomes(profileData: Value, jobDescription: string,
                               gen: nat -> string, eval: string -> Result<Value, PyError>)
    ensures var r := AnalyzeProfile(profileData, jobDescription, gen, eval);
            var o := Agent(profileData, jobDescription, gen, eval);
            || r == MaxIterationsResult
            || (&& o.trace.responses != []
                && StartsWith(o.trace.responses[|o.trace.responses| - 1], FinalAnswerPrefix)
                && Success(r) == eval(o.trace.responses[|o.trace.responses| - 1][|FinalAnswerPrefix|..]))
            || (o.result.Failure? && r == AnalysisFailure(o.result.error))
  {
    if TruncateProfile(profileData).Success? {
      RunResultOrigin(TruncateProfile(profileData).value, jobDescription, InitialSession, gen, eval, Tools(gen));
    }
  }

  /** A profile that is neither a string nor a dictionary is reported as a
      failed analysis carrying the invalid-format message. */
  lemma AnalyzeInvalidProfile(profileData: Value, jobDescription: string,
                              gen: nat -> string, eval: string -> Result<Value, PyError>)
    requires !profileData.PyStr? && !profileData.PyDict?
    ensures AnalyzeProfile(profileData, jobDescription, gen, eval)
              == AnalysisFailure(ValueError(InvalidProfileMessage))
  {
  }

  // ---------------------------------------------------------------------------
  // Placeholder extractors
  // ---------------------------------------------------------------------------

  /** `extract_skills(text)`: no skill extraction is implemented. */
  function ExtractSkills(text: string): seq<string> {
    []
  }

  /** `extract_years_required(text)`: not implemented, always 0. */
  function ExtractYearsRequired(text: string): nat {
    0
  }

  /** `extract_years_from_experience(text)`: not implemented, always 0. */
  function ExtractYearsFromExperience(text: string): nat {
    0
  }

  /** The placeholder extractors ignore their text: any two texts give the
      same answer, no skills and zero years. */
  lemma PlaceholdersIgnoreText(text: string, other: string)
    ensures ExtractSkills(text) == ExtractSkills(other) == []
    ensures ExtractYearsRequired(text) == ExtractYearsRequired(other) == 0
    ensures ExtractYearsFromExperience(text) == ExtractYearsFromExperience(other) == 0
  {
  }
}
