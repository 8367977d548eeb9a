/**
 * The scoring client (groq_client.py): the prompt for one category, and
 * the chain that recovers a JSON document from the model's free text and
 * turns it into a score record or a decision record. The HTTP round trip
 * is a parameter (`Service`), and so are `json.loads` and Python's parser
 * of float literals (`Runtime`).
 */
module GroqClient {
  import opened Wrappers
  import opened PyStr
  import Json

  /** The opening of a fenced block tagged as JSON. */
  const Tag := "```json"
  /** A fence, tagged or not. */
  const Fence := "```"

  /** What the HTTP round trip yields: the completion's text, or the message of what it raised. */
  datatype Completion = Content(text: string) | Raised(message: string)

  /** The library behaviour the client relies on: `json.loads` and `float(str)`. */
  datatype Runtime = Runtime(
    loads: string -> Result<Json.Value, string>,
    parseFloat: string -> Result<real, string>)

  /** The remote model: its reply to a scoring prompt, and its reply to the decision call. */
  datatype Service = Service(
    scoreReply: string -> Completion,
    decisionReply: (map<string, real>, map<string, Json.Value>) -> Completion)

  /**
   * What the parsing chain makes of a completion: a decoded document, no
   * fence to look in, or a fenced candidate whose decoding raised (with the
   * decoder's message).
   */
  datatype Recovery = Parsed(value: Json.Value) | Unfenced | Undecodable(message: string)

  /** `score` and `notes` as `generate_score` returns them. */
  datatype Score = Score(score: real, notes: Json.Value)

  const ErrorPrefix := "Error during evaluation: "

  // ---------------------------------------------------------------- prompt

  // Long literals are written in short pieces so that the verifier can inspect their characters.
  const PromptIntro := "You are a VC " + "analyst evaluating " + "startup pitch decks."

  /** The optional context line of the scoring prompt. */
  function ContextLine(context: string): string {
    if context != "" then "Context: " + context else ""
  }

  /** The lines of the scoring prompt template, in order. */
  function PromptLines(category: string, text: string, context: string): seq<string> {
    [ PromptIntro,
      "",
      "Category: " + category,
      ContextLine(context),
      "",
      "Analyze the following pitch deck content and provide:",
      "1. A score from 1-10 (decimals allowed)",
      "2. Brief evaluation notes (2-3 sentences)",
      "",
      "Pitch deck content:",
      text,
      "",
      "Respond in JSON format:",
      "{",
      "    \"score\": <number between 1-10>,",
      "    \"notes\": \"<brief evaluation>\"",
      "}",
      "" ]
  }

  /** The user prompt `generate_score` sends for one category. */
  function ScorePrompt(category: string, text: string, context: string): string {
    Join(PromptLines(category, text, context), "\n")
  }

  lemma NoCharNoOccurrence(s: string, c: char)
    requires c !in s
    ensures !Contains(s, [c])
  {
    forall i | 0 <= i <= |s|
      ensures !OccursAt(s, [c], i)
    {
      if i + 1 <= |s| {
        assert s[i..i + 1] == [s[i]];
        assert s[i] in s;
      }
    }
  }

  /**
   * The fourth line of the scoring prompt is "Context: <context>" when a
   * context is given and empty otherwise (for a one-line category and context).
   */
  lemma ContextLineIsFourthLine(category: string, text: string, context: string)
    requires '\n' !in category && '\n' !in context
    ensures |Split(ScorePrompt(category, text, context), "\n")| > 3
    ensures Split(ScorePrompt(category, text, context), "\n")[3] == (if context == "" then "" else "Context: " + context)
  {
    var lines := PromptLines(category, text, context);
    IntroIsOneLine();
    NoCharNoOccurrence("", '\n');
    NoCharNoOccurrence("Category: " + category, '\n');
    NoCharNoOccurrence(ContextLine(context), '\n');
    assert lines[0] == PromptIntro && lines[1] == "" && lines[2] == "Category: " + category && lines[3] == ContextLine(context);
    forall j | 0 <= j <= 3
      ensures !Contains(lines[j], "\n")
    {
    }
    SplitJoinedLines(lines, "\n", 3);
  }

  lemma IntroIsOneLine()
    ensures !Contains(PromptIntro, "\n")
  {
    NoCharNoOccurrence(PromptIntro, '\n');
  }

  // ------------------------------------------------------- JSON recovery

  lemma TagHoldsFence(s: string)
    ensures Contains(s, Tag) ==> Contains(s, Fence)
  {
    if Contains(s, Tag) {
      var i :| 0 <= i <= |s| && OccursAt(s, Tag, i);
      assert s[i..i + 3] == s[i..i + 7][..3];
      assert OccursAt(s, Fence, i);
    }
  }

  /** `content.split(open)[1].split("```")[0].strip()` */
  function FencedCandidate(content: string, open: string): string
    requires open != [] && Contains(content, open)
  {
    Strip(Split(Split(content, open)[1], Fence)[0])
  }

  /** `json.loads(candidate)` inside the fallback branch. */
  function ParseCandidate(candidate: string, rt: Runtime): Recovery {
    match rt.loads(candidate)
    case Success(v) => Parsed(v)
    case Failure(m) => Undecodable(m)
  }

  /**
   * The recovery chain shared by both calls: decode the whole text; failing
   * that, the tagged fence if the text has one, else the first plain fence,
   * else nothing. The plain fence is never tried once a tagged one exists,
   * and the fallback is reached exactly when the text neither decodes nor
   * holds any fence.
   */
  function Recover(content: string, rt: Runtime): (r: Recovery)
    ensures rt.loads(content).Success? ==> r == Parsed(rt.loads(content).value)
    ensures r.Unfenced? <==> rt.loads(content).Failure? && !Contains(content, Fence)
  {
    TagHoldsFence(content);
    match rt.loads(content)
    case Success(v) => Parsed(v)
    case Failure(_) =>
      if Contains(content, Tag) then ParseCandidate(FencedCandidate(content, Tag), rt)
      else if Contains(content, Fence) then ParseCandidate(FencedCandidate(content, Fence), rt)
      else Unfenced
  }

  /**
   * When the whole text decodes, nothing else is decoded: the result does
   * not depend on what the decoder would say about any other string.
   */
  lemma DirectParseIgnoresFences(content: string, rt: Runtime, rt': Runtime)
    requires rt.loads(content).Success? && rt'.loads(content) == rt.loads(content)
    ensures Recover(content, rt') == Recover(content, rt) == Parsed(rt.loads(content).value)
  {
  }

  /**
   * A tagged fence: the candidate is the text after the first "```json", cut
   * at the next "```json" and then at the first "```" inside that piece.
   */
  lemma TaggedCandidate(content: string)
    requires Contains(content, Tag)
    ensures FencedCandidate(content, Tag) == Strip(UpTo(UpTo(AfterFirst(content, Tag), Tag), Fence))
  {
    SplitSecond(content, Tag);
    SplitFirst(Split(content, Tag)[1], Fence);
  }

  lemma FenceBeforeTag(r: string)
    requires Contains(r, Tag)
    ensures Contains(r, Fence) && Find(r, Fence).value <= Find(r, Tag).value
  {
    var o := Find(r, Tag).value;
    TagHoldsFence(r);
    assert r[o..o + 3] == r[o..o + 7][..3];
    assert OccursAt(r, Fence, o);
  }

  /** A fence wholly before the cut point is where the cut piece ends. */
  lemma CutAtEarlierFence(r: string, o: nat, c: nat)
    requires c + 3 <= o <= |r| && OccursAt(r, Fence, c)
    requires forall j :: 0 <= j < c ==> !OccursAt(r, Fence, j)
    ensures UpTo(r[..o], Fence) == r[..c]
  {
    var piece := r[..o];
    assert piece[c..c + 3] == r[c..c + 3];
    assert OccursAt(piece, Fence, c);
    var c' := Find(piece, Fence).value;
    assert piece[c'..c' + 3] == r[c'..c' + 3];
    assert OccursAt(r, Fence, c');
  }

  /** A fence starting one or two characters before a tag makes four backticks in a row. */
  lemma OverlapMakesFourBackticks(r: string, o: nat, c: nat)
    requires OccursAt(r, Tag, o) && OccursAt(r, Fence, c) && c < o < c + 3
    ensures OccursAt(r, "````", c)
  {
    assert r[c + 3] == r[o..o + 7][c + 3 - o];
    assert r[c..c + 4] == r[c..c + 3] + [r[c + 3]];
  }

  /**
   * Unless the text after the tag holds a run of four backticks, the
   * candidate is simply the text after the first "```json" up to the next
   * "```" (or the end), stripped.
   */
  lemma TaggedCandidateUpToFence(content: string)
    requires Contains(content, Tag)
    requires !Contains(AfterFirst(content, Tag), "````")
    ensures FencedCandidate(content, Tag) == Strip(UpTo(AfterFirst(content, Tag), Fence))
  {
    TaggedCandidate(content);
    var r := AfterFirst(content, Tag);
    if Contains(r, Tag) {
      var o := Find(r, Tag).value;
      FenceBeforeTag(r);
      var c := Find(r, Fence).value;
      assert UpTo(r, Tag) == r[..o];
      assert UpTo(r, Fence) == r[..c];
      if c + 3 <= o {
        CutAtEarlierFence(r, o, c);
      } else if c == o {
        NoOccurrenceInPrefix(r, Fence, o);
      } else {
        OverlapMakesFourBackticks(r, o, c);
        assert false;
      }
    }
  }

  /** The exception above is real: after "```json````json" the cut stops at the second tag, not at the first fence. */
  lemma TaggedCutCanStopLate()
    ensures UpTo(UpTo("`" + Tag, Tag), Fence) == "`"
    ensures UpTo("`" + Tag, Fence) == ""
  {
    var r := "`" + Tag;
    assert OccursAt(r, Fence, 0);
    assert OccursAt(r, Tag, 1);
    assert r[3] != Tag[3];
    assert !OccursAt(r, Tag, 0);
    assert Find(r, Tag) == Some(1);
    assert UpTo(r, Tag) == "`";
    assert !Contains("`", Fence);
  }

  /**
   * No tagged fence but a plain one: the candidate is the text between the
   * first and the second "```" (or to the end), stripped.
   */
  lemma PlainCandidate(content: string)
    requires Contains(content, Fence)
    ensures FencedCandidate(content, Fence) == Strip(UpTo(AfterFirst(content, Fence), Fence))
  {
    SplitSecond(content, Fence);
    var piece := Split(content, Fence)[1];
    SplitWithoutSeparator(piece, Fence);
  }

  /**
   * When the direct decode fails, the chain decodes exactly one fenced
   * candidate: the tagged one if a tag is present (the plain fence is then
   * never consulted), otherwise the plain one.
   */
  lemma OneFencedAttempt(content: string, rt: Runtime)
    requires rt.loads(content).Failure? && Contains(content, Fence)
    ensures Contains(content, Tag) ==> Recover(content, rt) == ParseCandidate(FencedCandidate(content, Tag), rt)
    ensures !Contains(content, Tag) ==> Recover(content, rt) == ParseCandidate(Strip(UpTo(AfterFirst(content, Fence), Fence)), rt)
    ensures !Recover(content, rt).Unfenced?
  {
    if !Contains(content, Tag) {
      PlainCandidate(content);
    }
  }

  // ------------------------------------------------------------- scoring

  /** The record `generate_score` returns from its `except` clause. */
  function ErrorScore(message: string): Score {
    Score(0.0, Json.Str(ErrorPrefix + message))
  }

  /** The dictionary built when the text holds no fence at all. */
  function FallbackData(content: string): Json.Value {
    Json.Object(map["score" := Json.Float(5.0), "notes" := Json.Str(Take(content, 200))])
  }

  /** `{"score": float(data.get("score", 5.0)), "notes": data.get("notes", "")}`, or what it raises. */
  function ScoreFields(data: Json.Value, rt: Runtime): Result<Score, string> {
    match Json.Get(data, "score", Json.Float(5.0))
    case Failure(m) => Failure(m)
    case Success(s) =>
      match Json.ToFloat(s, rt.parseFloat)
      case Failure(m) => Failure(m)
      case Success(x) =>
        match Json.Get(data, "notes", Json.Str(""))
        case Failure(m) => Failure(m)
        case Success(n) => Success(Score(x, n))
  }

  /** How `generate_score` turns the round trip's outcome into its result. */
  function ScoreFromCompletion(reply: Completion, rt: Runtime): Score {
    match reply
    case Raised(m) => ErrorScore(m)
    case Content(c) =>
      var data := match Recover(c, rt)
        case Parsed(v) => Success(v)
        case Unfenced => Success(FallbackData(c))
        case Undecodable(m) => Failure(m);
      match data
      case Failure(m) => ErrorScore(m)
      case Success(d) =>
        match ScoreFields(d, rt)
        case Failure(m) => ErrorScore(m)
        case Success(s) => s
  }

  /** `GroqClient.generate_score(category, text, context)` against a given service. */
  function GenerateScore(category: string, text: string, context: string, service: Service, rt: Runtime): Score {
    ScoreFromCompletion(service.scoreReply(ScorePrompt(category, text, context)), rt)
  }

  /** Only text with no fence at all, and no direct decode, gets the 5.0 default with its first 200 characters as notes. */
  lemma UnfencedScoresDefault(c: string, rt: Runtime)
    requires rt.loads(c).Failure? && !Contains(c, Fence)
    ensures ScoreFromCompletion(Content(c), rt) == Score(5.0, Json.Str(Take(c, 200)))
  {
  }

  /** A fenced candidate that does not decode gives the 0.0 error record, not the 5.0 default. */
  lemma UndecodableFenceScoresZero(c: string, rt: Runtime)
    requires rt.loads(c).Failure? && Contains(c, Fence)
    requires Recover(c, rt).Undecodable?
    ensures ScoreFromCompletion(Content(c), rt) == ErrorScore(Recover(c, rt).message)
    ensures ScoreFromCompletion(Content(c), rt).score == 0.0
  {
  }

  /**
   * A decoded dict gives `float()` of its "score" (default 5.0) with its
   * "notes" (default "") unchanged, and nothing else reaches the record;
   * a score that `float()` rejects ("high", null, a list, a dict) gives
   * the 0.0 error record with the conversion's message.
   */
  lemma DecodedObjectScore(c: string, rt: Runtime, fields: map<string, Json.Value>)
    requires Recover(c, rt) == Parsed(Json.Object(fields))
    ensures var s := if "score" in fields then fields["score"] else Json.Float(5.0);
      var n := if "notes" in fields then fields["notes"] else Json.Str("");
      match Json.ToFloat(s, rt.parseFloat)
      case Success(x) => ScoreFromCompletion(Content(c), rt) == Score(x, n)
      case Failure(m) => ScoreFromCompletion(Content(c), rt) == ErrorScore(m)
  {
  }

  /** A decoded document that is not a dict makes `.get` raise: the error record with the AttributeError's message. */
  lemma DecodedNonObjectIsError(c: string, rt: Runtime)
    requires Recover(c, rt).Parsed? && !Recover(c, rt).value.Object?
    ensures ScoreFromCompletion(Content(c), rt) == ErrorScore(Json.NoGetMessage(Recover(c, rt).value))
  {
  }

  /** Any failure of the round trip is absorbed into score 0.0 with notes "Error during evaluation: <message>". */
  lemma TransportErrorScoresZero(message: string, rt: Runtime)
    ensures ScoreFromCompletion(Raised(message), rt).score == 0.0
    ensures ScoreFromCompletion(Raised(message), rt).notes == Json.Str(ErrorPrefix + message)
  {
  }

  // ------------------------------------------------------------ decision

  function StrArray(items: seq<string>): Json.Value {
    Json.Array(seq(|items|, k requires 0 <= k < |items| => Json.Str(items[k])))
  }

  function DecisionRecord(investible: string, summary: string, strengths: seq<string>, concerns: seq<string>): Json.Value {
    Json.Object(map[
      "investible" := Json.Str(investible),
      "summary" := Json.Str(summary),
      "key_strengths" := StrArray(strengths),
      "key_concerns" := StrArray(concerns)])
  }

  /** The record used when the reply neither decodes nor holds a fence. */
  const UnableDecision := DecisionRecord("No", "Unable to generate decision", [], ["Evaluation error"])

  /** The record returned from the `except` clause of the decision call. */
  function ErrorDecision(message: string): Json.Value {
    DecisionRecord("No", ErrorPrefix + message, [], ["API error"])
  }

  /** How `generate_investibility_decision` turns the round trip's outcome into its result. */
  function DecisionFromCompletion(reply: Completion, rt: Runtime): Json.Value {
    match reply
    case Raised(m) => ErrorDecision(m)
    case Content(c) =>
      match Recover(c, rt)
      case Parsed(v) => v
      case Unfenced => UnableDecision
      case Undecodable(m) => ErrorDecision(m)
  }

  /** `GroqClient.generate_investibility_decision(scores, notes)` against a given service. */
  function GenerateDecision(scores: map<string, real>, notes: map<string, Json.Value>, service: Service, rt: Runtime): Json.Value {
    DecisionFromCompletion(service.decisionReply(scores, notes), rt)
  }

  /**
   * The decision call's outcomes: a decoded document is returned unchanged
   * (whatever its shape and keys), unfenced undecodable text gives the
   * "Unable to generate decision" record, and a failed round trip or an
   * undecodable fenced candidate gives the "API error" record.
   */
  lemma DecisionOutcomes(reply: Completion, rt: Runtime)
    ensures reply.Raised? ==> DecisionFromCompletion(reply, rt) == ErrorDecision(reply.message)
    ensures reply.Content? && Recover(reply.text, rt).Parsed? ==>
      DecisionFromCompletion(reply, rt) == Recover(reply.text, rt).value
    ensures reply.Content? && rt.loads(reply.text).Failure? && !Contains(reply.text, Fence) ==>
      DecisionFromCompletion(reply, rt) == UnableDecision
    ensures reply.Content? && Recover(reply.text, rt).Undecodable? ==>
      DecisionFromCompletion(reply, rt) == ErrorDecision(Recover(reply.text, rt).message)
  {
  }

  /** The fallback decision, field by field. */
  lemma UnableDecisionFields()
    ensures UnableDecision.Object? && UnableDecision.fields.Keys == {"investible", "summary", "key_strengths", "key_concerns"}
    ensures UnableDecision.fields["investible"] == Json.Str("No")
    ensures UnableDecision.fields["summary"] == Json.Str("Unable to generate decision")
    ensures UnableDecision.fields["key_strengths"] == Json.Array([])
    ensures UnableDecision.fields["key_concerns"] == Json.Array([Json.Str("Evaluation error")])
  {
  }
}
