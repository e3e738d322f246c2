/**
 * The tools of `backend/recruitment_utils.py`: the profile score and the
 * three sections cut out of the model's Markdown answer, the outreach
 * template, and the notification threshold.
 *
 * The text generator is not modelled: `CalculateProfileScore` receives the
 * text the generator answered with.
 */
module RecruitmentUtils {
  import opened Wrappers
  import opened Text
  import opened PyValues

  const ScoreMarker := "**Score:**"
  const MatchAnalysisHeader := "### Match Analysis"
  const QualificationsHeader := "### Qualifications Analysis"
  const MessageHeader := "### Personalized Message"
  const EmptyResponseMessage := "Empty response from Gemini"

  // ---------------------------------------------------------------------------
  // extract_score
  // ---------------------------------------------------------------------------

  /** The first of `lines` that contains `marker`, or "" when none does. */
  function FirstLineWith(lines: seq<string>, marker: string): string {
    if lines == [] then ""
    else if Contains(lines[0], marker) then lines[0]
    else FirstLineWith(lines[1..], marker)
  }

  /** The line of `text` that `extract_score` reads the score from. */
  function ScoreLine(text: string): string {
    FirstLineWith(Split(text, '\n'), ScoreMarker)
  }

  /** `extract_score(text)`: the digits of the score line read as one
      number, or 0 when there is no score line or it has no digits. */
  function ExtractScore(text: string): nat {
    var digits := Digits(ScoreLine(text));
    if digits == [] then 0 else ParseDecimal(digits)
  }

  lemma {:induction false} FirstLineWithSpec(lines: seq<string>, marker: string)
    requires marker != []
    ensures FirstLineWith(lines, marker) == [] <==> !SomePieceContains(lines, marker)
    ensures FirstLineWith(lines, marker) != [] ==>
              && Contains(FirstLineWith(lines, marker), marker)
              && FirstLineWith(lines, marker) in lines
  {
    if lines != [] {
      FirstLineWithSpec(lines[1..], marker);
      SomePieceCons(lines[0], lines[1..], marker);
      assert lines == [lines[0]] + lines[1..];
      if Contains(lines[0], marker) {
        var i :| 0 <= i <= |lines[0]| && OccursAt(lines[0], marker, i);
        assert lines[0][i] == marker[0];
      }
    }
  }

  /** Lines free of the marker are skipped. */
  lemma {:induction false} FirstLineWithSkips(before: seq<string>, rest: seq<string>, marker: string)
    requires forall k :: 0 <= k < |before| ==> !Contains(before[k], marker)
    ensures FirstLineWith(before + rest, marker) == FirstLineWith(rest, marker)
  {
    if before == [] {
      assert before + rest == rest;
    } else {
      assert (before + rest)[0] == before[0];
      assert (before + rest)[1..] == before[1..] + rest;
      FirstLineWithSkips(before[1..], rest, marker);
    }
  }

  /** There is a score line exactly when the text contains the score marker
      somewhere; the score line is a single line holding the marker. */
  lemma ScoreLineFound(text: string)
    ensures ScoreLine(text) == [] <==> !Contains(text, ScoreMarker)
    ensures ScoreLine(text) != [] ==>
              Contains(ScoreLine(text), ScoreMarker) && '\n' !in ScoreLine(text)
  {
    FirstLineWithSpec(Split(text, '\n'), ScoreMarker);
    ContainsSomePiece(text, '\n', ScoreMarker);
  }

  /** Without the score marker the score is 0. */
  lemma ExtractScoreWithoutMarker(text: string)
    requires !Contains(text, ScoreMarker)
    ensures ExtractScore(text) == 0
  {
    ScoreLineFound(text);
  }

  /** The digits of a score line are those of its numeral. */
  lemma DigitsOfScoreLine(gap: string, n: nat, tail: string)
    requires Digits(gap) == [] && Digits(tail) == []
    ensures Digits(ScoreMarker + gap + NatToDecimal(n) + tail) == NatToDecimal(n)
  {
    var numeral := NatToDecimal(n);
    DigitsAppend(ScoreMarker, gap);
    DigitsAppend(ScoreMarker + gap, numeral);
    DigitsAppend(ScoreMarker + gap + numeral, tail);
    DigitsOfDigits(numeral);
    assert Digits(ScoreMarker) == [];
  }

  /** The lines of `before + [line] + after` are free of newlines when each part is. */
  lemma NoNewlineInLines(before: seq<string>, line: string, after: seq<string>)
    requires forall k :: 0 <= k < |before| ==> '\n' !in before[k]
    requires forall k :: 0 <= k < |after| ==> '\n' !in after[k]
    requires '\n' !in line
    ensures forall k :: 0 <= k < |before + [line] + after| ==> '\n' !in (before + [line] + after)[k]
  {
    var lines := before + [line] + after;
    forall k | 0 <= k < |lines| ensures '\n' !in lines[k] {
      if k < |before| {
        assert lines[k] == before[k];
      } else if k > |before| {
        assert lines[k] == after[k - |before| - 1];
      }
    }
  }

  /** The score line of text laid out as lines is the first line with the marker. */
  lemma ScoreLineOfLines(before: seq<string>, line: string, after: seq<string>)
    requires forall k :: 0 <= k < |before + [line] + after| ==> '\n' !in (before + [line] + after)[k]
    requires forall k :: 0 <= k < |before| ==> !Contains(before[k], ScoreMarker)
    requires Contains(line, ScoreMarker)
    ensures ScoreLine(JoinWith(before + [line] + after, "\n")) == line
  {
    var lines := before + [line] + after;
    SplitJoin(lines, '\n');
    FirstMarkedLine(before, line, after);
  }

  /** The first line with the marker follows the lines without it. */
  lemma FirstMarkedLine(before: seq<string>, line: string, after: seq<string>)
    requires forall k :: 0 <= k < |before| ==> !Contains(before[k], ScoreMarker)
    requires Contains(line, ScoreMarker)
    ensures FirstLineWith(before + [line] + after, ScoreMarker) == line
  {
    assert before + [line] + after == before + ([line] + after);
    FirstLineWithSkips(before, [line] + after, ScoreMarker);
    assert ([line] + after)[0] == line;
  }

  /** A score line holds the marker and no newline. */
  lemma ScoreLineShape(gap: string, n: nat, tail: string)
    requires '\n' !in gap && '\n' !in tail
    ensures var line := ScoreMarker + gap + NatToDecimal(n) + tail;
            '\n' !in line && Contains(line, ScoreMarker)
  {
    var numeral := NatToDecimal(n);
    var line := ScoreMarker + gap + numeral + tail;
    assert '\n' !in numeral by {
      assert AllDigits(numeral);
    }
    assert line == ScoreMarker + (gap + numeral + tail);
    assert OccursAt(line, ScoreMarker, 0);
  }

  /** A response laid out as the scoring prompt asks (some lines, then a line
      `**Score:** <n>` possibly with non-digit decoration such as a minus
      sign or a percent sign, then more lines) scores exactly `n`. In
      particular the score is never negative: a minus sign is not a digit. */
  lemma ScoreOfFormattedResponse(before: seq<string>, gap: string, n: nat, tail: string, after: seq<string>)
    requires forall k :: 0 <= k < |before| ==> '\n' !in before[k] && !Contains(before[k], ScoreMarker)
    requires forall k :: 0 <= k < |after| ==> '\n' !in after[k]
    requires '\n' !in gap && '\n' !in tail
    requires Digits(gap) == [] && Digits(tail) == []
    ensures ExtractScore(JoinWith(before + [ScoreMarker + gap + NatToDecimal(n) + tail] + after, "\n")) == n
  {
    var line := ScoreMarker + gap + NatToDecimal(n) + tail;
    ScoreLineShape(gap, n, tail);
    NoNewlineInLines(before, line, after);
    ScoreLineOfLines(before, line, after);
    DigitsOfScoreLine(gap, n, tail);
    ParsePrinted(n);
  }

  // ---------------------------------------------------------------------------
  // calculate_profile_score
  // ---------------------------------------------------------------------------

  /** `max(0, min(100, x))`. */
  function Clamp(x: int): (r: int)
    ensures 0 <= r <= 100
    ensures 0 <= x <= 100 ==> r == x
    ensures x < 0 ==> r == 0
    ensures x > 100 ==> r == 100
  {
    if x < 0 then 0 else if x > 100 then 100 else x
  }

  /** `text[text.find(start):text.find(end)].strip()`. */
  function Section(text: string, start: string, end: string): string {
    Strip(PySlice(text, Find(text, start), Find(text, end)))
  }

  function ReasoningSection(text: string): string {
    Section(text, MatchAnalysisHeader, QualificationsHeader)
  }

  function AnalysisSection(text: string): string {
    Section(text, QualificationsHeader, MessageHeader)
  }

  /** `text[text.find('### Personalized Message'):]` with every header
      removed, then stripped. */
  function MessageSection(text: string): string {
    Strip(RemoveAll(PySlice(text, Find(text, MessageHeader), |text|), MessageHeader))
  }

  /** What `calculate_profile_score` returns. */
  datatype ScoreReport = ScoreReport(score: int, reasoning: string, analysis: string, message: string)

  /** Building the scoring prompt reads `profile_data.get('intro', {})` and
      then `.get('name', ...)` on the result: each raises unless it is asked
      of a dictionary. None when the prompt can be built and the generator
      is called. */
  function ScorePromptError(profileData: Value): (r: Option<PyError>)
    ensures r.None? <==> profileData.PyDict? && Get(profileData.entries, "intro", PyDict([])).PyDict?
  {
    if !profileData.PyDict? then Some(NoGetAttribute(profileData))
    else
      var intro := Get(profileData.entries, "intro", PyDict([]));
      if !intro.PyDict? then Some(NoGetAttribute(intro)) else None
  }

  /** `calculate_profile_score`, given the text `response` the generator
      answers the scoring prompt with. */
  function CalculateProfileScore(profileData: Value, response: string): (r: Result<ScoreReport, PyError>)
    ensures ScorePromptError(profileData).Some? ==> r == Failure(ScorePromptError(profileData).value)
    ensures ScorePromptError(profileData).None? && response == [] ==>
              r == Failure(Exception(EmptyResponseMessage))
    ensures r.Success? ==> 0 <= r.value.score <= 100
    ensures r.Success? ==> r.value.score == Clamp(ExtractScore(response))
    ensures ScorePromptError(profileData).None? && response != [] ==>
              r == Success(ScoreReport(Clamp(ExtractScore(response)), ReasoningSection(response),
                                       AnalysisSection(response), MessageSection(response)))
  {
    match ScorePromptError(profileData)
    case Some(e) => Failure(e)
    case None =>
      if response == [] then Failure(Exception(EmptyResponseMessage))
      else
        Success(ScoreReport(
          Clamp(ExtractScore(response)),
          ReasoningSection(response),
          AnalysisSection(response),
          MessageSection(response)))
  }

  // ---------------------------------------------------------------------------
  // Section slicing
  // ---------------------------------------------------------------------------

  /** When the start header is missing, `find` gives -1, which Python reads as
      the last character; the end bound is then never past it, so the section
      is empty. */
  lemma SectionWithoutStart(text: string, start: string, end: string)
    requires !Contains(text, start)
    ensures Section(text, start, end) == []
  {
    var b := Find(text, end);
    assert PySlice(text, -1, b) == [];
    StripEmptyIff([], IsPySpace);
  }

  /** When only the end header is missing, the section runs from the start
      header to the end of the text less its last character. */
  lemma SectionWithoutEnd(text: string, start: string, end: string)
    requires Contains(text, start) && !Contains(text, end)
    ensures var a := Find(text, start);
            Section(text, start, end) == if a < |text| - 1 then Strip(text[a..|text| - 1]) else []
  {
    var a := Find(text, start);
    if a >= |text| - 1 {
      StripEmptyIff([], IsPySpace);
    }
  }

  /** With both headers present, the section is the stripped text from the
      start header up to the end header, or empty when the end header comes
      first. */
  lemma SectionBetween(text: string, start: string, end: string)
    requires Contains(text, start) && Contains(text, end)
    ensures var a, b := Find(text, start), Find(text, end);
            Section(text, start, end) == if a < b then Strip(text[a..b]) else []
  {
    var a, b := Find(text, start), Find(text, end);
    if a >= b {
      StripEmptyIff([], IsPySpace);
    }
  }

  /** Were `end` to begin `d` characters into `start`, the two would disagree. */
  predicate DisagreeAtShift(start: string, end: string, d: int) {
    exists j :: 0 <= j < |end| && 0 <= d + j < |start| && start[d + j] != end[j]
  }

  /** `end` cannot begin strictly inside an occurrence of `start`. */
  predicate CannotStartInside(start: string, end: string) {
    forall d :: 1 <= d < |start| ==> DisagreeAtShift(start, end, d)
  }

  /** Two occurrences overlapping at shift `b - a` agree on the overlap. */
  lemma OverlapAgrees(text: string, start: string, end: string, a: int, b: int)
    requires OccursAt(text, start, a) && OccursAt(text, end, b) && a < b < a + |start|
    ensures !DisagreeAtShift(start, end, b - a)
  {
    var d := b - a;
    forall j | 0 <= j < |end| && 0 <= d + j < |start| ensures start[d + j] == end[j] {
      assert text[a..a + |start|][d + j] == text[b + j] == text[b..b + |end|][j];
    }
  }

  lemma OccurrencesApart(text: string, start: string, end: string, a: int, b: int)
    requires CannotStartInside(start, end)
    requires OccursAt(text, start, a) && OccursAt(text, end, b) && a < b
    ensures a + |start| <= b
  {
    if b < a + |start| {
      OverlapAgrees(text, start, end, a, b);
      assert false;
    }
  }

  lemma MatchBeforeQualifications()
    ensures CannotStartInside(MatchAnalysisHeader, QualificationsHeader)
  {
    var s, e := MatchAnalysisHeader, QualificationsHeader;
    forall d | 1 <= d < |s| ensures DisagreeAtShift(s, e, d) {
      if d == 1 {
        assert s[3] != e[2];
      } else if d == 2 {
        assert s[3] != e[1];
      } else {
        assert s[d] != e[0];
      }
    }
  }

  lemma QualificationsBeforeMessage()
    ensures CannotStartInside(QualificationsHeader, MessageHeader)
  {
    var s, e := QualificationsHeader, MessageHeader;
    forall d | 1 <= d < |s| ensures DisagreeAtShift(s, e, d) {
      if d == 1 {
        assert s[3] != e[2];
      } else if d == 2 {
        assert s[3] != e[1];
      } else {
        assert s[d] != e[0];
      }
    }
  }

  /** A slice that begins with an occurrence of `p` starts with `p`. */
  lemma SliceFromOccurrence(text: string, p: string, a: int, b: int)
    requires OccursAt(text, p, a) && a + |p| <= b <= |text|
    ensures StartsWith(text[a..b], p)
  {
    assert text[a..b][..|p|] == text[a..a + |p|];
  }

  /** A section found between its two headers still begins with its own header. */
  lemma SectionKeepsHeader(text: string, start: string, end: string)
    requires CannotStartInside(start, end)
    requires start != [] && !IsPySpace(start[0]) && !IsPySpace(start[|start| - 1])
    requires Contains(text, start) && Contains(text, end)
    requires Find(text, start) < Find(text, end)
    ensures StartsWith(Section(text, start, end), start)
  {
    var a, b := Find(text, start), Find(text, end);
    OccurrencesApart(text, start, end, a, b);
    SectionBetween(text, start, end);
    SliceFromOccurrence(text, start, a, b);
    StripKeepsPrefix(text[a..b], start, IsPySpace);
  }

  /** The reasoning section keeps its `### Match Analysis` header. */
  lemma ReasoningKeepsHeader(text: string)
    requires Contains(text, MatchAnalysisHeader) && Contains(text, QualificationsHeader)
    requires Find(text, MatchAnalysisHeader) < Find(text, QualificationsHeader)
    ensures StartsWith(ReasoningSection(text), MatchAnalysisHeader)
  {
    MatchBeforeQualifications();
    SectionKeepsHeader(text, MatchAnalysisHeader, QualificationsHeader);
  }

  /** The analysis section keeps its `### Qualifications Analysis` header. */
  lemma AnalysisKeepsHeader(text: string)
    requires Contains(text, QualificationsHeader) && Contains(text, MessageHeader)
    requires Find(text, QualificationsHeader) < Find(text, MessageHeader)
    ensures StartsWith(AnalysisSection(text), QualificationsHeader)
  {
    QualificationsBeforeMessage();
    SectionKeepsHeader(text, QualificationsHeader, MessageHeader);
  }

  /** With the header present, the message is the stripped text after the
      header's first occurrence, with every later occurrence removed. */
  lemma MessageSectionWithHeader(text: string)
    requires Contains(text, MessageHeader)
    ensures var p := Find(text, MessageHeader);
            MessageSection(text) == Strip(RemoveAll(text[p + |MessageHeader|..], MessageHeader))
  {
    var p := Find(text, MessageHeader);
    var tail := text[p..];
    assert PySlice(text, p, |text|) == tail;
    assert tail[..|MessageHeader|] == MessageHeader;
    assert tail[|MessageHeader|..] == text[p + |MessageHeader|..];
  }

  /** Without the header, `find` gives -1 and the message is the last
      character of the text, stripped. */
  lemma MessageSectionWithoutHeader(text: string)
    requires !Contains(text, MessageHeader)
    ensures MessageSection(text) == if text == [] then [] else Strip([text[|text| - 1]])
  {
    if text != [] {
      assert PySlice(text, -1, |text|) == [text[|text| - 1]];
    }
  }

  // ---------------------------------------------------------------------------
  // generate_outreach_message
  // ---------------------------------------------------------------------------

  const OutreachGreeting := "\n    Hi "
  const OutreachScoreIntro := ",\n    \n    Great news! Based on our analysis, your profile is an excellent match ("
  const OutreachScoreOutro := "%) for the position.\n    \n    "
  const OutreachClosing := "\n    \n    Best regards,\n    Recruitment Team\n    "

  /** `generate_outreach_message`: the f-string template, each argument
      embedded with `str()`. */
  function GenerateOutreachMessage(name: Value, score: Value, messageSection: Value): string {
    OutreachGreeting + Str(name) + OutreachScoreIntro + Str(score) + OutreachScoreOutro
      + Str(messageSection) + OutreachClosing
  }

  /** The parts of a seven-part concatenation in which the fifth begins with
      `%` occur in order: the second, the fourth followed by `%`, the sixth. */
  lemma PartsInOrder(g: string, n: string, i: string, s: string, o: string, m: string, c: string)
    requires o != [] && o[0] == '%'
    ensures var r := g + n + i + s + o + m + c;
            && OccursAt(r, n, |g|)
            && OccursAt(r, s + "%", |g + n + i|)
            && OccursAt(r, m, |g + n + i + s + o|)
  {
    var r := g + n + i + s + o + m + c;
    assert r == g + n + (i + s + o + m + c);
    assert r[|g|..|g| + |n|] == n;
    assert r == (g + n + i) + (s + [o[0]]) + (o[1..] + m + c);
    assert r[|g + n + i|..|g + n + i| + |s| + 1] == s + "%";
    assert r == (g + n + i + s + o) + m + c;
    assert r[|g + n + i + s + o|..|g + n + i + s + o| + |m|] == m;
  }

  /** The message names the candidate, then gives the score followed by `%`,
      then quotes the message section, in that order. */
  lemma OutreachMentionsInOrder(name: Value, score: Value, messageSection: Value)
    ensures var r := GenerateOutreachMessage(name, score, messageSection);
            exists i, j, k ::
              && OccursAt(r, Str(name), i)
              && OccursAt(r, Str(score) + "%", j)
              && OccursAt(r, Str(messageSection), k)
              && i + |Str(name)| <= j && j + |Str(score)| + 1 <= k
  {
    var n, s, m := Str(name), Str(score), Str(messageSection);
    var g, o := OutreachGreeting, OutreachScoreOutro;
    assert o[0] == '%';
    PartsInOrder(g, n, OutreachScoreIntro, s, o, m, OutreachClosing);
    var r := GenerateOutreachMessage(name, score, messageSection);
    var i, j, k := |g|, |g + n + OutreachScoreIntro|, |g + n + OutreachScoreIntro + s + o|;
    assert OccursAt(r, n, i) && OccursAt(r, s + "%", j) && OccursAt(r, m, k);
    assert i + |n| <= j && j + |s| + 1 <= k;
  }

  // ---------------------------------------------------------------------------
  // send_notifications
  // ---------------------------------------------------------------------------

  /** A notification `send_notifications` sets out to deliver. */
  datatype Delivery = Email(to: string, body: string) | Sms(to: string, body: string)

  /** `score >= 90` for a score Python can compare with an int. */
  predicate Comparable(score: Value) {
    score.PyInt? || score.PyBool?
  }

  function NumericValue(score: Value): int
    requires Comparable(score)
  {
    if score.PyInt? then score.i else if score.b then 1 else 0
  }

  /** `send_notifications`: returns None (so only its failures and its
      deliveries are modelled). Nothing is sent below a score of 90; from 90
      on, an email when the profile has a truthy `email`, an SMS when it has a
      truthy `phone`, each carrying the outreach message. */
  function SendNotifications(profileData: Value, score: Value, messageSection: Value): (r: Result<seq<Delivery>, PyError>)
    ensures !profileData.PyDict? ==> r == Failure(NoGetAttribute(profileData))
    ensures profileData.PyDict? ==> (r.Success? <==> Comparable(score))
    ensures r.Success? && r.value != [] ==> NumericValue(score) >= 90
    ensures r.Success? && profileData.PyDict? ==>
              var name := Get(profileData.entries, "name", PyStr("Candidate"));
              forall d :: d in r.value ==> d.body == GenerateOutreachMessage(name, score, messageSection)
  {
    if !profileData.PyDict? then Failure(NoGetAttribute(profileData))
    else
      var email := Get(profileData.entries, "email", PyNone);
      var phone := Get(profileData.entries, "phone", PyNone);
      var name := Get(profileData.entries, "name", PyStr("Candidate"));
      if !Comparable(score) then
        Failure(TypeError("'>=' not supported between instances of '" + TypeName(score) + "' and 'int'"))
      else if NumericValue(score) < 90 then Success([])
      else Success(Deliveries(email, phone, GenerateOutreachMessage(name, score, messageSection)))
  }

  /** An email when `email` is truthy, then an SMS when `phone` is, each
      carrying `body`. */
  function Deliveries(email: Value, phone: Value, body: string): (r: seq<Delivery>)
    ensures forall d :: d in r ==> d.body == body
    ensures (exists d :: d in r && d.Email?) <==> Truthy(email)
    ensures (exists d :: d in r && d.Sms?) <==> Truthy(phone)
    ensures forall d :: d in r ==> d.to == Str(if d.Email? then email else phone)
    ensures |r| == (if Truthy(email) then 1 else 0) + (if Truthy(phone) then 1 else 0)
    ensures |r| == 2 ==> r[0].Email? && r[1].Sms?
  {
    var emails := if Truthy(email) then [Email(Str(email), body)] else [];
    var texts := if Truthy(phone) then [Sms(Str(phone), body)] else [];
    assert Truthy(email) ==> emails[0] in emails + texts;
    assert Truthy(phone) ==> texts[0] in emails + texts;
    emails + texts
  }

  /** An email goes out exactly when the score reaches 90 and the profile has
      a truthy `email`, to that address; likewise an SMS for `phone`. */
  lemma NotificationChannels(profileData: Value, score: Value, messageSection: Value)
    requires SendNotifications(profileData, score, messageSection).Success?
    ensures var r := SendNotifications(profileData, score, messageSection).value;
            var email := Get(profileData.entries, "email", PyNone);
            (exists d :: d in r && d.Email?) <==> NumericValue(score) >= 90 && Truthy(email)
    ensures var r := SendNotifications(profileData, score, messageSection).value;
            var phone := Get(profileData.entries, "phone", PyNone);
            (exists d :: d in r && d.Sms?) <==> NumericValue(score) >= 90 && Truthy(phone)
    ensures var r := SendNotifications(profileData, score, messageSection).value;
            forall d :: d in r ==> d.to == Str(Get(profileData.entries, if d.Email? then "email" else "phone", PyNone))
  {
  }
}
