/**
 * The evaluation orchestrator (crew_agents.py): five category scores from
 * the scorer, their mean, one decision call, and the assembled result. The
 * two client calls are oracles given as parameters, and so is Python's
 * `round(x, 2)` on floats.
 */
module Crew {
  import opened Wrappers
  import Json
  import GroqClient

  /** The five evaluation categories. */
  datatype Category = MarketSize | Team | Product | Traction | Financials

  /** The categories in the order they are scored. */
  const Categories: seq<Category> := [MarketSize, Team, Product, Traction, Financials]

  /** `generate_score(category, text, context)` */
  type Scorer = (string, string, string) -> GroqClient.Score

  /** `generate_investibility_decision(scores, notes)` */
  type Decider = (map<string, real>, map<string, Json.Value>) -> Json.Value

  /** One call made to the client, as the orchestrator issues it. */
  datatype Call =
    | ScoreCall(category: string, text: string, context: string)
    | DecisionCall(scores: map<string, real>, notes: map<string, Json.Value>)

  /** The deck fields the orchestrator reads. */
  datatype Deck = Deck(companyName: string, sector: string, stage: string, content: string, fundingAsk: string)

  /** `data.get(key, default)` */
  function Field(data: map<string, string>, key: string, default: string): string {
    if key in data then data[key] else default
  }

  /** The deck fields, with "Unknown" for a missing name, sector or stage and "" for missing content or funding ask. */
  function DeckOf(data: map<string, string>): (d: Deck)
    ensures d.companyName == (if "company_name" in data then data["company_name"] else "Unknown")
    ensures d.sector == (if "sector" in data then data["sector"] else "Unknown")
    ensures d.stage == (if "stage" in data then data["stage"] else "Unknown")
    ensures d.content == (if "content" in data then data["content"] else "")
    ensures d.fundingAsk == (if "funding_ask" in data then data["funding_ask"] else "")
  {
    Deck(
      Field(data, "company_name", "Unknown"),
      Field(data, "sector", "Unknown"),
      Field(data, "stage", "Unknown"),
      Field(data, "content", ""),
      Field(data, "funding_ask", ""))
  }

  /** The key of a category in the score and notes dictionaries. */
  function Key(c: Category): string {
    match c
    case MarketSize => "market_size"
    case Team => "team"
    case Product => "product"
    case Traction => "traction"
    case Financials => "financials"
  }

  /** The category name the scorer receives. */
  function Name(c: Category): string {
    match c
    case MarketSize => "Market Size and Opportunity"
    case Team => "Team Quality and Experience"
    case Product => "Product Differentiation and Innovation"
    case Traction => "Traction and Growth Metrics"
    case Financials => "Financials and Runway"
  }

  /** The context string the scorer receives. */
  function Context(c: Category, deck: Deck): string {
    match c
    case MarketSize => "Sector: " + deck.sector + ", Stage: " + deck.stage
    case Team => "Company: " + deck.companyName + ", Stage: " + deck.stage
    case Product => "Sector: " + deck.sector
    case Traction => "Stage: " + deck.stage
    case Financials => "Funding Ask: " + deck.fundingAsk
  }

  /** The scoring call for one category. */
  function Request(c: Category, deck: Deck): Call {
    ScoreCall(Name(c), deck.content, Context(c, deck))
  }

  /** The scorer's answer for one category. */
  function ScoreFor(c: Category, deck: Deck, scorer: Scorer): GroqClient.Score {
    scorer(Name(c), deck.content, Context(c, deck))
  }

  /** The scoring calls, one per category in order. */
  function ScoreCalls(deck: Deck): seq<Call> {
    seq(|Categories|, i requires 0 <= i < |Categories| => Request(Categories[i], deck))
  }

  /** A dictionary with one entry per category, under the category's key. */
  function PerCategory<V>(f: Category -> V): (m: map<string, V>)
    ensures forall c :: Key(c) in m && m[Key(c)] == f(c)
  {
    map[
      Key(MarketSize) := f(MarketSize),
      Key(Team) := f(Team),
      Key(Product) := f(Product),
      Key(Traction) := f(Traction),
      Key(Financials) := f(Financials)]
  }

  /** The score the scorer gives each category. */
  function ScoreOf(deck: Deck, scorer: Scorer): Category -> real {
    c => ScoreFor(c, deck, scorer).score
  }

  /** The notes the scorer gives each category. */
  function NotesOf(deck: Deck, scorer: Scorer): Category -> Json.Value {
    c => ScoreFor(c, deck, scorer).notes
  }

  /** A category's score in `scores`, rounded by `round2`. */
  function RoundedOf(scores: map<string, real>, round2: real -> real): Category -> real {
    c => if Key(c) in scores then round2(scores[Key(c)]) else 0.0
  }

  /** The unrounded score of each category. */
  function RawScores(deck: Deck, scorer: Scorer): map<string, real> {
    PerCategory(ScoreOf(deck, scorer))
  }

  /** The notes of each category. */
  function RawNotes(deck: Deck, scorer: Scorer): map<string, Json.Value> {
    PerCategory(NotesOf(deck, scorer))
  }

  /** The sum of the scores stored under the given categories' keys. */
  function Sum(cs: seq<Category>, scores: map<string, real>): real
    requires forall c :: c in cs ==> Key(c) in scores
  {
    if cs == [] then 0.0 else scores[Key(cs[0])] + Sum(cs[1..], scores)
  }

  /** The arithmetic mean of the five category scores, over the reals. */
  function Mean(scores: map<string, real>): real
    requires forall c: Category :: Key(c) in scores
  {
    Sum(Categories, scores) / (|Categories| as real)
  }

  /** The record `evaluate_pitch_deck` returns. */
  datatype Evaluation = Evaluation(
    companyName: string,
    sector: string,
    stage: string,
    fundingAsk: string,
    scores: map<string, real>,
    investible: Json.Value,
    evaluationNotes: map<string, Json.Value>,
    summary: Json.Value,
    keyStrengths: Json.Value,
    keyConcerns: Json.Value)

  /** `fields.get(key, default)` on the decision dictionary. */
  function FieldOr(fields: map<string, Json.Value>, key: string, default: Json.Value): Json.Value {
    if key in fields then fields[key] else default
  }

  /**
   * What `evaluate_pitch_deck` computes: every category scored once, the
   * rounded scores plus the rounded mean as "overall", the notes, and the
   * decision fields with their defaults. A decision that is not a dict
   * makes the first `.get` raise, and nothing is returned.
   */
  function Evaluate(data: map<string, string>, scorer: Scorer, decide: Decider, round2: real -> real): Result<Evaluation, string> {
    var deck := DeckOf(data);
    var raw := RawScores(deck, scorer);
    var notes := RawNotes(deck, scorer);
    var decision := decide(raw, notes);
    if !decision.Object? then Failure(Json.NoGetMessage(decision))
    else
      var fields := decision.fields;
      Success(Evaluation(
        deck.companyName, deck.sector, deck.stage, deck.fundingAsk,
        PerCategory(RoundedOf(raw, round2))["overall" := round2(Mean(raw))],
        FieldOr(fields, "investible", Json.Str("No")),
        notes,
        FieldOr(fields, "summary", Json.Str("")),
        FieldOr(fields, "key_strengths", Json.Array([])),
        FieldOr(fields, "key_concerns", Json.Array([]))))
  }

  /**
   * The scoring half of `evaluate_pitch_deck`: the five scorer calls in
   * their fixed order, each result stored under its category's key.
   */
  method ScoreCategories(deck: Deck, scorer: Scorer)
    returns (scores: map<string, real>, notes: map<string, Json.Value>, calls: seq<Call>)
    ensures scores == RawScores(deck, scorer)
    ensures notes == RawNotes(deck, scorer)
    ensures calls == ScoreCalls(deck)
  {
    scores := map[];
    notes := map[];
    calls := [];

    var category := "Market Size and Opportunity";
    var context := "Sector: " + deck.sector + ", Stage: " + deck.stage;
    var marketResult := scorer(category, deck.content, context);
    calls := calls + [ScoreCall(category, deck.content, context)];
    scores := scores["market_size" := marketResult.score];
    notes := notes["market_size" := marketResult.notes];

    category := "Team Quality and Experience";
    context := "Company: " + deck.companyName + ", Stage: " + deck.stage;
    var teamResult := scorer(category, deck.content, context);
    calls := calls + [ScoreCall(category, deck.content, context)];
    scores := scores["team" := teamResult.score];
    notes := notes["team" := teamResult.notes];

    category := "Product Differentiation and Innovation";
    context := "Sector: " + deck.sector;
    var productResult := scorer(category, deck.content, context);
    calls := calls + [ScoreCall(category, deck.content, context)];
    scores := scores["product" := productResult.score];
    notes := notes["product" := productResult.notes];

    category := "Traction and Growth Metrics";
    context := "Stage: " + deck.stage;
    var tractionResult := scorer(category, deck.content, context);
    calls := calls + [ScoreCall(category, deck.content, context)];
    scores := scores["traction" := tractionResult.score];
    notes := notes["traction" := tractionResult.notes];

    category := "Financials and Runway";
    context := "Funding Ask: " + deck.fundingAsk;
    var financialResult := scorer(category, deck.content, context);
    calls := calls + [ScoreCall(category, deck.content, context)];
    scores := scores["financials" := financialResult.score];
    notes := notes["financials" := financialResult.notes];

    SpelledOut(ScoreOf(deck, scorer));
    SpelledOut(NotesOf(deck, scorer));
    ScoreCallsSpelledOut(deck);
  }

  /** `sum(scores.values()) / len(scores)` over the five category scores: their mean. */
  method OverallScore(scores: map<string, real>) returns (overall: real)
    requires scores.Keys == {"market_size", "team", "product", "traction", "financials"}
    ensures overall == Mean(scores)
  {
    assert |scores| == 5 by {
      assert |scores| == |scores.Keys|;
    }
    overall := (scores["market_size"] + scores["team"] + scores["product"]
      + scores["traction"] + scores["financials"]) / (|scores| as real);
    MeanOfFive(scores);
  }

  /**
   * `PitchDeckEvaluationCrew.evaluate_pitch_deck`: five scoring calls in
   * the fixed order, then the decision call on the unrounded scores and the
   * notes. `calls` lists the calls in the order they are made.
   */
  method EvaluatePitchDeck(data: map<string, string>, scorer: Scorer, decide: Decider, round2: real -> real)
    returns (result: Result<Evaluation, string>, calls: seq<Call>)
    ensures calls == ScoreCalls(DeckOf(data)) + [DecisionCall(RawScores(DeckOf(data), scorer), RawNotes(DeckOf(data), scorer))]
    ensures result == Evaluate(data, scorer, decide, round2)
  {
    var deck := Deck(
      Field(data, "company_name", "Unknown"),
      Field(data, "sector", "Unknown"),
      Field(data, "stage", "Unknown"),
      Field(data, "content", ""),
      Field(data, "funding_ask", ""));

    assert deck == DeckOf(data);
    var scores, notes;
    scores, notes, calls := ScoreCategories(deck, scorer);

    PerCategoryKeys(ScoreOf(deck, scorer));
    var overallScore := OverallScore(scores);

    var decision := decide(scores, notes);
    calls := calls + [DecisionCall(scores, notes)];

    if !decision.Object? {
      result := Failure(Json.NoGetMessage(decision));
    } else {
      var fields := decision.fields;
      var rounded := map[
        "market_size" := round2(scores["market_size"]),
        "team" := round2(scores["team"]),
        "product" := round2(scores["product"]),
        "traction" := round2(scores["traction"]),
        "financials" := round2(scores["financials"]),
        "overall" := round2(overallScore)];
      var evaluationNotes := map[
        "market_size" := notes["market_size"],
        "team" := notes["team"],
        "product" := notes["product"],
        "traction" := notes["traction"],
        "financials" := notes["financials"]];
      assert evaluationNotes == notes by {
        SpelledOut(NotesOf(deck, scorer));
      }
      assert rounded == PerCategory(RoundedOf(scores, round2))["overall" := round2(Mean(scores))] by {
        SpelledOut(RoundedOf(scores, round2));
      }
      result := Success(Evaluation(
        deck.companyName, deck.sector, deck.stage, deck.fundingAsk,
        rounded,
        FieldOr(fields, "investible", Json.Str("No")),
        evaluationNotes,
        FieldOr(fields, "summary", Json.Str("")),
        FieldOr(fields, "key_strengths", Json.Array([])),
        FieldOr(fields, "key_concerns", Json.Array([]))));
    }
  }

  // ---------------------------------------------------------------- lemmas

  /** A per-category dictionary has exactly the five category keys. */
  lemma PerCategoryKeys<V>(f: Category -> V)
    ensures PerCategory(f).Keys == {"market_size", "team", "product", "traction", "financials"}
  {
    assert Key(MarketSize) == "market_size";
  }

  /** A per-category dictionary written as five updates, in the order the orchestrator makes them. */
  lemma SpelledOut<V>(f: Category -> V)
    ensures PerCategory(f) == map[
      "market_size" := f(MarketSize),
      "team" := f(Team),
      "product" := f(Product),
      "traction" := f(Traction),
      "financials" := f(Financials)]
  {
    PerCategoryKeys(f);
  }

  /** The five scoring calls, spelled out: their order, category names, texts and contexts. */
  lemma ScoreCallsSpelledOut(deck: Deck)
    ensures ScoreCalls(deck) == [
      ScoreCall("Market Size and Opportunity", deck.content, "Sector: " + deck.sector + ", Stage: " + deck.stage),
      ScoreCall("Team Quality and Experience", deck.content, "Company: " + deck.companyName + ", Stage: " + deck.stage),
      ScoreCall("Product Differentiation and Innovation", deck.content, "Sector: " + deck.sector),
      ScoreCall("Traction and Growth Metrics", deck.content, "Stage: " + deck.stage),
      ScoreCall("Financials and Runway", deck.content, "Funding Ask: " + deck.fundingAsk)]
  {
  }

  /** The decision oracle sees exactly the five category keys, with the scorer's unrounded scores and its notes. */
  lemma DecisionInputs(deck: Deck, scorer: Scorer)
    ensures RawScores(deck, scorer).Keys == {"market_size", "team", "product", "traction", "financials"}
    ensures RawNotes(deck, scorer).Keys == RawScores(deck, scorer).Keys
    ensures forall c :: RawScores(deck, scorer)[Key(c)] == ScoreFor(c, deck, scorer).score
    ensures forall c :: RawNotes(deck, scorer)[Key(c)] == ScoreFor(c, deck, scorer).notes
  {
    PerCategoryKeys(ScoreOf(deck, scorer));
    PerCategoryKeys(NotesOf(deck, scorer));
  }

  /** The mean is the sum of the five scores divided by five. */
  lemma MeanOfFive(scores: map<string, real>)
    requires "market_size" in scores && "team" in scores && "product" in scores
    requires "traction" in scores && "financials" in scores
    ensures forall c: Category :: Key(c) in scores
    ensures Mean(scores) == (scores["market_size"] + scores["team"] + scores["product"]
      + scores["traction"] + scores["financials"]) / 5.0
  {
    forall c: Category
      ensures Key(c) in scores
    {
    }
    var cs := Categories;
    assert cs[1..] == [Team, Product, Traction, Financials];
    assert cs[1..][1..] == [Product, Traction, Financials];
    assert cs[1..][1..][1..] == [Traction, Financials];
    assert cs[1..][1..][1..][1..] == [Financials];
    assert Sum([Financials], scores) == scores["financials"];
    assert Sum([Traction, Financials], scores) == scores["traction"] + scores["financials"];
    assert Sum([Product, Traction, Financials], scores) == scores["product"] + scores["traction"] + scores["financials"];
    assert Sum([Team, Product, Traction, Financials], scores)
      == scores["team"] + scores["product"] + scores["traction"] + scores["financials"];
  }

  /** The result's score map has the five category keys plus "overall"; the notes map has the five keys. */
  lemma ResultKeys(data: map<string, string>, scorer: Scorer, decide: Decider, round2: real -> real)
    requires Evaluate(data, scorer, decide, round2).Success?
    ensures Evaluate(data, scorer, decide, round2).value.scores.Keys ==
      {"market_size", "team", "product", "traction", "financials", "overall"}
    ensures Evaluate(data, scorer, decide, round2).value.evaluationNotes.Keys ==
      {"market_size", "team", "product", "traction", "financials"}
    ensures Evaluate(data, scorer, decide, round2).value.evaluationNotes == RawNotes(DeckOf(data), scorer)
  {
    var deck := DeckOf(data);
    PerCategoryKeys(RoundedOf(RawScores(deck, scorer), round2));
    PerCategoryKeys(NotesOf(deck, scorer));
  }

  /**
   * The overall score is the rounded mean of the five raw scores, and each
   * category's score is its own raw score rounded.
   */
  lemma OverallIsRoundedMean(data: map<string, string>, scorer: Scorer, decide: Decider, round2: real -> real)
    requires Evaluate(data, scorer, decide, round2).Success?
    ensures var deck := DeckOf(data);
      var raw := RawScores(deck, scorer);
      var scores := Evaluate(data, scorer, decide, round2).value.scores;
      && scores["overall"] == round2((raw["market_size"] + raw["team"] + raw["product"] + raw["traction"] + raw["financials"]) / 5.0)
      && forall c :: scores[Key(c)] == round2(ScoreFor(c, deck, scorer).score)
  {
    var deck := DeckOf(data);
    var raw := RawScores(deck, scorer);
    DecisionInputs(deck, scorer);
    MeanOfFive(raw);
  }

  /** Five equal scores have that score as their mean. */
  lemma UniformScoresMean(deck: Deck, scorer: Scorer, s: real)
    requires forall c :: ScoreFor(c, deck, scorer).score == s
    ensures Mean(RawScores(deck, scorer)) == s
  {
    DecisionInputs(deck, scorer);
    MeanOfFive(RawScores(deck, scorer));
  }

  /** Missing decision fields default to "No", "", [] and []; present ones are taken as they are. */
  lemma DecisionDefaults(data: map<string, string>, scorer: Scorer, decide: Decider, round2: real -> real)
    requires decide(RawScores(DeckOf(data), scorer), RawNotes(DeckOf(data), scorer)).Object?
    ensures var fields := decide(RawScores(DeckOf(data), scorer), RawNotes(DeckOf(data), scorer)).fields;
      var e := Evaluate(data, scorer, decide, round2);
      && e.Success?
      && e.value.investible == (if "investible" in fields then fields["investible"] else Json.Str("No"))
      && e.value.summary == (if "summary" in fields then fields["summary"] else Json.Str(""))
      && e.value.keyStrengths == (if "key_strengths" in fields then fields["key_strengths"] else Json.Array([]))
      && e.value.keyConcerns == (if "key_concerns" in fields then fields["key_concerns"] else Json.Array([]))
  {
  }

  /** A decision that is not a dict makes the evaluation raise the AttributeError of `.get`. */
  lemma NonObjectDecisionRaises(data: map<string, string>, scorer: Scorer, decide: Decider, round2: real -> real)
    requires !decide(RawScores(DeckOf(data), scorer), RawNotes(DeckOf(data), scorer)).Object?
    ensures Evaluate(data, scorer, decide, round2) ==
      Failure(Json.NoGetMessage(decide(RawScores(DeckOf(data), scorer), RawNotes(DeckOf(data), scorer))))
  {
  }

  // ---------------------------------------------- wired to the real client

  /** The scorer the crew's client provides. */
  function GroqScorer(service: GroqClient.Service, rt: GroqClient.Runtime): Scorer {
    (category, text, context) => GroqClient.GenerateScore(category, text, context, service, rt)
  }

  /** The decider the crew's client provides. */
  function GroqDecider(service: GroqClient.Service, rt: GroqClient.Runtime): Decider {
    (scores, notes) => GroqClient.GenerateDecision(scores, notes, service, rt)
  }

  /**
   * When every round trip to the model fails, each category scores 0.0,
   * the mean is 0.0, and the decision call returns its "API error" dict,
   * so the evaluation still completes: an outage reads as a very low score
   * and no exception escapes.
   */
  lemma OutageScoresZero(data: map<string, string>, service: GroqClient.Service, rt: GroqClient.Runtime,
                         round2: real -> real)
    requires forall p :: service.scoreReply(p).Raised?
    requires forall scores, notes :: service.decisionReply(scores, notes).Raised?
    ensures Evaluate(data, GroqScorer(service, rt), GroqDecider(service, rt), round2).Success?
    ensures Evaluate(data, GroqScorer(service, rt), GroqDecider(service, rt), round2).value.scores["overall"] == round2(0.0)
    ensures Evaluate(data, GroqScorer(service, rt), GroqDecider(service, rt), round2).value.investible == Json.Str("No")
  {
    OutageDecisionIsDict(RawScores(DeckOf(data), GroqScorer(service, rt)),
      RawNotes(DeckOf(data), GroqScorer(service, rt)), service, rt);
    DecisionDefaults(data, GroqScorer(service, rt), GroqDecider(service, rt), round2);
    OutageScoresEachZero(DeckOf(data), service, rt);
    UniformScoresMean(DeckOf(data), GroqScorer(service, rt), 0.0);
  }

  /** A failed decision round trip gives a dict whose "investible" is "No". */
  lemma OutageDecisionIsDict(scores: map<string, real>, notes: map<string, Json.Value>,
                             service: GroqClient.Service, rt: GroqClient.Runtime)
    requires service.decisionReply(scores, notes).Raised?
    ensures GroqDecider(service, rt)(scores, notes).Object?
    ensures "investible" in GroqDecider(service, rt)(scores, notes).fields
    ensures GroqDecider(service, rt)(scores, notes).fields["investible"] == Json.Str("No")
  {
    GroqClient.DecisionOutcomes(service.decisionReply(scores, notes), rt);
  }

  /** With every score request failing in transport, each category scores 0.0. */
  lemma OutageScoresEachZero(deck: Deck, service: GroqClient.Service, rt: GroqClient.Runtime)
    requires forall p :: service.scoreReply(p).Raised?
    ensures forall c :: ScoreFor(c, deck, GroqScorer(service, rt)).score == 0.0
  {
    forall c
      ensures ScoreFor(c, deck, GroqScorer(service, rt)).score == 0.0
    {
      GroqClient.TransportErrorScoresZero(
        service.scoreReply(GroqClient.ScorePrompt(Name(c), deck.content, Context(c, deck))).message, rt);
    }
  }
}
