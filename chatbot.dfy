/** The chat bot's conversation coordinator: a dictionary of conversations, each holding the
    preferences gathered so far and a stage. Every message is stripped, its preferences are
    extracted and merged into the conversation's, and the bot then greets, recommends, or
    asks for what is missing. Message history with timestamps is not part of this model. */
module Chatbot {
  import opened Wrappers
  import opened Text
  import opened Models
  import opened Patterns
  import opened Ranking
  import opened RecommendationEngine
  import opened Extraction

  // ------------------------------------------------------------ merging

  /** `preferences.update(extracted)`: every key of `extracted` overwrites, every other key of
      `preferences` stays. */
  function Merge(preferences: Prefs, extracted: Prefs): (r: Prefs)
    ensures r.budget == (if extracted.budget.Some? then extracted.budget else preferences.budget)
    ensures r.usageType == (if extracted.usageType.Some? then extracted.usageType else preferences.usageType)
    ensures r.brandPreference == (if extracted.brandPreference.Some? then extracted.brandPreference else preferences.brandPreference)
    ensures r.minRam == (if extracted.minRam.Some? then extracted.minRam else preferences.minRam)
    ensures r.minStorage == (if extracted.minStorage.Some? then extracted.minStorage else preferences.minStorage)
    ensures r.preferGpu == (if extracted.preferGpu.Some? then extracted.preferGpu else preferences.preferGpu)
  {
    Prefs(
      if extracted.budget.Some? then extracted.budget else preferences.budget,
      if extracted.usageType.Some? then extracted.usageType else preferences.usageType,
      if extracted.brandPreference.Some? then extracted.brandPreference else preferences.brandPreference,
      if extracted.minRam.Some? then extracted.minRam else preferences.minRam,
      if extracted.minStorage.Some? then extracted.minStorage else preferences.minStorage,
      if extracted.preferGpu.Some? then extracted.preferGpu else preferences.preferGpu)
  }

  /** The keys of the preference dictionary. */
  datatype Key = BudgetKey | UsageTypeKey | BrandPreferenceKey | MinRamKey | MinStorageKey | PreferGpuKey

  /** The dictionary holds key `k`. */
  predicate Has(p: Prefs, k: Key) {
    match k
    case BudgetKey => p.budget.Some?
    case UsageTypeKey => p.usageType.Some?
    case BrandPreferenceKey => p.brandPreference.Some?
    case MinRamKey => p.minRam.Some?
    case MinStorageKey => p.minStorage.Some?
    case PreferGpuKey => p.preferGpu.Some?
  }

  /** The set of keys a preference dictionary holds. */
  function Keys(p: Prefs): (ks: set<Key>)
    ensures BudgetKey in ks <==> p.budget.Some?
    ensures UsageTypeKey in ks <==> p.usageType.Some?
  {
    set k | k in {BudgetKey, UsageTypeKey, BrandPreferenceKey, MinRamKey, MinStorageKey, PreferGpuKey} && Has(p, k)
  }

  /** Merging never removes a key and adds exactly the keys extracted. */
  lemma MergeKeys(preferences: Prefs, extracted: Prefs)
    ensures Keys(Merge(preferences, extracted)) == Keys(preferences) + Keys(extracted)
  {
    var m := Merge(preferences, extracted);
    forall k ensures Has(m, k) <==> Has(preferences, k) || Has(extracted, k) {
    }
  }

  /** Merging is last-write-wins: merging the same extraction twice changes nothing more,
      merging in two steps is merging the combined update once, and merging into an empty
      dictionary gives the extraction itself. */
  lemma MergeLaws(a: Prefs, b: Prefs, c: Prefs)
    ensures Merge(Merge(a, b), b) == Merge(a, b)
    ensures Merge(Merge(a, b), c) == Merge(a, Merge(b, c))
    ensures Merge(NoPrefs, b) == b
    ensures Merge(a, NoPrefs) == a
  {
  }

  // ------------------------------------------------------------ gating and prompts

  /** `_has_sufficient_preferences`: both a budget and a usage type are known. */
  predicate Sufficient(p: Prefs)
    ensures Sufficient(p) <==> p.budget.Some? && p.usageType.Some?
  {
    BudgetKey in Keys(p) && UsageTypeKey in Keys(p)
  }

  /** Once a conversation has a budget and a usage type, no later merge loses them. */
  lemma SufficientPersists(p: Prefs, extracted: Prefs)
    requires Sufficient(p)
    ensures Sufficient(Merge(p, extracted))
  {
    MergeKeys(p, extracted);
  }

  /** The replies of the bot; `AskUsage` quotes the budget. */
  datatype Reply = Welcome | Recommending | NoMatch | AskBudget | AskUsage(budget: real) | AskBrand | AskMore

  /** `_ask_for_missing_preferences`: the first missing item in the order budget, usage type,
      brand; a generic question when none is missing. */
  function AskForMissing(p: Prefs): (r: Reply)
    ensures r == AskBudget <==> p.budget.None?
    ensures r.AskUsage? <==> p.budget.Some? && p.usageType.None?
    ensures r.AskUsage? ==> r.budget == p.budget.value
    ensures r == AskBrand <==> Sufficient(p) && p.brandPreference.None?
    ensures r == AskMore <==> Sufficient(p) && p.brandPreference.Some?
  {
    if p.budget.None? then AskBudget
    else if p.usageType.None? then AskUsage(p.budget.value)
    else if p.brandPreference.None? then AskBrand
    else AskMore
  }

  // ------------------------------------------------------------ greetings

  const GreetingWords: seq<string> := ["hi", "hello", "hey", "greetings", "howdy"]
  const Commands: seq<string> := ["start", "begin", "help"]
  const TimesOfDay: seq<string> := ["morning", "afternoon", "evening"]

  /** `\b(?:hi|hello|hey|greetings|howdy)\b`, `\b(?:good\s+(?:morning|afternoon|evening))\b`
      and `^(?:start|begin|help)$`. */
  const GreetingPatterns: seq<seq<Seg>> := [
    [Boundary, Lit(GreetingWords), Boundary],
    [Boundary, Lit(["good"]), Spaces1, Lit(TimesOfDay), Boundary],
    [TextStart, Lit(Commands), TextEnd]
  ]

  /** `_is_greeting`: some greeting pattern is found, ignoring case. */
  predicate IsGreeting(message: string) {
    exists k :: 0 <= k < |GreetingPatterns| && Found(GreetingPatterns[k], Lower(message))
  }

  /** A greeting word standing as a whole word anywhere makes the message a greeting. */
  lemma GreetingWordGreets(message: string, i: nat, w: nat)
    requires w < |GreetingWords|
    requires i + |GreetingWords[w]| <= |message|
    requires StartsAt(Lower(message), i, GreetingWords[w])
    requires AtBoundary(Lower(message), i) && AtBoundary(Lower(message), i + |GreetingWords[w]|)
    ensures IsGreeting(message)
  {
    WordMatch(GreetingWords, w, Lower(message), i);
    assert Found(GreetingPatterns[0], Lower(message));
  }

  /** A message that is exactly "start", "begin" or "help", in any case, is a greeting. */
  lemma CommandGreets(message: string, w: nat)
    requires w < |Commands| && Lower(message) == Commands[w]
    ensures IsGreeting(message)
  {
    WholeTextMatch(Commands, w, Lower(message));
    assert Found(GreetingPatterns[2], Lower(message));
  }

  /** "good", white space, then a time of day ending a word, with "good" starting one. */
  predicate GoodTimeAt(s: string, i: int) {
    PhraseAt(s, ["good"], TimesOfDay, i)
  }

  /** A greeting word stands somewhere in `s` as a whole word. */
  predicate HasGreetingWord(s: string) {
    exists i :: 0 <= i <= |s| && WordAt(s, GreetingWords, i)
  }

  /** "good morning", "good afternoon" or "good evening" (any white space between) stands
      somewhere in `s`. */
  predicate HasGoodTime(s: string) {
    exists i :: 0 <= i <= |s| && GoodTimeAt(s, i)
  }

  /** `s` is "start", "begin" or "help", optionally followed by one line feed. */
  predicate IsCommand(s: string) {
    exists w :: 0 <= w < |Commands| && (s == Commands[w] || s == Commands[w] + "\n")
  }

  /** A message is a greeting exactly when, ignoring case, it holds a greeting word, or a
      "good <time of day>", or is a command. */
  lemma GreetingForms(message: string)
    ensures IsGreeting(message) <==>
            HasGreetingWord(Lower(message)) || HasGoodTime(Lower(message)) || IsCommand(Lower(message))
  {
    var s := Lower(message);
    GreetingWordFound(s);
    GoodTimeFound(s);
    CommandFound(s);
    assert IsGreeting(message) <==>
           Found(GreetingPatterns[0], s) || Found(GreetingPatterns[1], s) || Found(GreetingPatterns[2], s);
  }

  /** The first greeting pattern is found exactly when a greeting word stands as a whole word. */
  lemma GreetingWordFound(s: string)
    ensures Found(GreetingPatterns[0], s) <==> HasGreetingWord(s)
  {
    WordFoundIff(GreetingWords, s);
  }

  /** The second greeting pattern is found exactly when a "good <time of day>" stands. */
  lemma GoodTimeFound(s: string)
    ensures Found(GreetingPatterns[1], s) <==> HasGoodTime(s)
  {
    PhraseFoundIff(["good"], TimesOfDay, s);
    if exists i :: PhraseAt(s, ["good"], TimesOfDay, i) {
      var i :| PhraseAt(s, ["good"], TimesOfDay, i);
      assert GoodTimeAt(s, i);
    }
  }

  /** The third greeting pattern is found exactly when the whole text is a command. */
  lemma CommandFound(s: string)
    ensures Found(GreetingPatterns[2], s) <==> IsCommand(s)
  {
    WholeTextIff(Commands, s);
  }

  // ------------------------------------------------------------ asking the engine

  /** The arguments `_get_recommendations` passes to the engine. */
  datatype Query = Query(budget: real, usage: UsageType, brandPreference: Option<string>,
                         minRam: Option<int>, minStorage: Option<int>, preferGpu: bool)

  /** The defaults of `_get_recommendations`: budget 1000, the general usage type, no GPU
      preference; the other keys are passed as they are, a missing one as `None`. */
  function QueryFor(p: Prefs): (q: Query)
    ensures q.budget == (if p.budget.Some? then p.budget.value else 1000.0)
    ensures q.usage == (if p.usageType.Some? then p.usageType.value else General)
    ensures q.brandPreference == p.brandPreference
    ensures q.minRam.Some? <==> p.minRam.Some?
    ensures p.minRam.Some? ==> q.minRam.value == p.minRam.value
    ensures q.minStorage.Some? <==> p.minStorage.Some?
    ensures p.minStorage.Some? ==> q.minStorage.value == p.minStorage.value
    ensures q.preferGpu <==> p.preferGpu == Some(true)
  {
    Query(p.budget.GetOr(1000.0), p.usageType.GetOr(General), p.brandPreference,
          if p.minRam.Some? then Some(p.minRam.value as int) else None,
          if p.minStorage.Some? then Some(p.minStorage.value as int) else None,
          p.preferGpu.GetOr(false))
  }

  function QueryCandidates(catalog: seq<Laptop>, q: Query): seq<Laptop> {
    Candidates(catalog, q.budget, q.usage, q.brandPreference, q.minRam, q.minStorage, q.preferGpu)
  }

  /** A failure that ends a turn: the engine's division by a zero budget, or a recommended
      laptop that the response model rejects. */
  datatype ChatError = DivisionByZero | InvalidLaptop(reason: ValidationError)

  /** `_get_recommendations`: the engine's top five for the query, or a division by zero when
      the budget is zero and some laptop is left to score. */
  function RecommendationsFor(catalog: seq<Laptop>, p: Prefs): (r: Result<seq<Laptop>, ChatError>)
  {
    var q := QueryFor(p);
    if q.budget == 0.0 && QueryCandidates(catalog, q) != [] then Err(DivisionByZero)
    else Ok(Recommend(catalog, q.budget, q.usage, q.brandPreference, q.minRam, q.minStorage, q.preferGpu, 5))
  }

  /** What the engine returns to the bot: at most five laptops, best first; the division
      fails only on a zero budget. */
  lemma RecommendationsForShape(catalog: seq<Laptop>, p: Prefs)
    ensures RecommendationsFor(catalog, p).Err? ==> QueryFor(p).budget == 0.0
    ensures var r := RecommendationsFor(catalog, p);
            r.Ok? ==> |r.value| <= 5 && SortedDesc(r.value, ScoreKey)
  {
    var q := QueryFor(p);
    if RecommendationsFor(catalog, p).Ok? {
      RecommendShape(catalog, q.budget, q.usage, q.brandPreference, q.minRam, q.minStorage, q.preferGpu, 5);
    }
  }

  /** Each laptop the engine returns to the bot is a catalog laptop with its score, within the
      budget or within 110% of it when nothing was within it, and has a GPU when one was asked
      for. */
  lemma RecommendedByEngine(catalog: seq<Laptop>, p: Prefs, x: Laptop)
    requires RecommendationsFor(catalog, p).Ok? && x in RecommendationsFor(catalog, p).value
    ensures exists c :: c in catalog && x == WithScore(c, QueryFor(p).usage, QueryFor(p).budget)
    ensures QueryFor(p).budget >= 0.0 ==> x.price <= QueryFor(p).budget * 1.1
    ensures p.preferGpu == Some(true) ==> HasGpu(x)
  {
    var q := QueryFor(p);
    RecommendationsWithinBudget(catalog, q.budget, q.usage, q.brandPreference, q.minRam,
                                q.minStorage, q.preferGpu, 5, x);
  }

  /** `[Laptop(**laptop) for laptop in laptops]`: fails at the first laptop without an id. */
  function ValidateAll(laptops: seq<Laptop>): (r: Result<seq<Laptop>, ValidationError>)
    ensures r.Ok? <==> forall k :: 0 <= k < |laptops| ==> laptops[k].id.Some?
    ensures r.Ok? ==> r.value == laptops
    ensures r.Err? ==> r.error == MissingId
  {
    if laptops == [] then Ok([])
    else match ValidateLaptop(laptops[0])
      case Err(e) => Err(e)
      case Ok(l) =>
        match ValidateAll(laptops[1..])
        case Err(e) => Err(e)
        case Ok(rest) => assert laptops == [l] + rest; Ok([l] + rest)
  }

  // ------------------------------------------------------------ one turn

  datatype Stage = Greeting | GettingPreferences | Recommendations

  datatype Conversation = Conversation(preferences: Prefs, stage: Stage)

  const NewConversation := Conversation(NoPrefs, Greeting)

  datatype ChatResponse = ChatResponse(reply: Reply, recommendations: Option<seq<Laptop>>,
                                       conversationId: string, extractedPreferences: Prefs)

  /** `request.conversation_id or str(uuid.uuid4())`: a missing or empty id takes the fresh one. */
  function ConversationId(request: ChatRequest, freshId: string): (id: string)
    ensures request.conversationId.Some? && request.conversationId.value != "" ==> id == request.conversationId.value
    ensures request.conversationId.None? || request.conversationId.value == "" ==> id == freshId
  {
    if request.conversationId.Some? && request.conversationId.value != "" then request.conversationId.value
    else freshId
  }

  /** The reply and the recommendations of one turn, before the id is attached. */
  datatype Outcome = Outcome(reply: Reply, recommendations: Option<seq<Laptop>>)

  /** The decision of one turn from the stage, the merged preferences, whether the message is
      a greeting, and what the engine returns for those preferences (consulted only past the
      greeting and when the budget and the usage type are known): the new stage and the
      outcome. */
  function Decide(stage: Stage, preferences: Prefs, greeting: bool, found: Result<seq<Laptop>, ChatError>)
    : (Stage, Result<Outcome, ChatError>)
  {
    if stage == Greeting || greeting then (GettingPreferences, Ok(Outcome(Welcome, None)))
    else if !Sufficient(preferences) then (stage, Ok(Outcome(AskForMissing(preferences), None)))
    else match found
      case Err(e) => (stage, Err(e))
      case Ok(recommendations) =>
        if recommendations == [] then (stage, Ok(Outcome(NoMatch, None)))
        else match ValidateAll(Prefix(recommendations, 3))
          case Err(e) => (Recommendations, Err(InvalidLaptop(e)))
          case Ok(top) => (Recommendations, Ok(Outcome(Recommending, Some(top))))
  }

  /** One turn on one conversation for the stripped message: the merge always happens, then
      the decision. */
  function Respond(conversation: Conversation, catalog: seq<Laptop>, message: string)
    : (r: (Conversation, Result<Outcome, ChatError>))
    ensures r.0.preferences == Merge(conversation.preferences, Extract(message))
  {
    var preferences := Merge(conversation.preferences, Extract(message));
    var (stage, outcome) := Decide(conversation.stage, preferences, IsGreeting(message),
                                   RecommendationsFor(catalog, preferences));
    (Conversation(preferences, stage), outcome)
  }

  /** The response of a turn: its outcome with the conversation id and the preferences. */
  function Answered(outcome: Result<Outcome, ChatError>, id: string, preferences: Prefs): (r: Result<ChatResponse, ChatError>)
    ensures r.Ok? <==> outcome.Ok?
    ensures r.Ok? ==> r.value == ChatResponse(outcome.value.reply, outcome.value.recommendations, id, preferences)
    ensures r.Err? ==> r.error == outcome.error
  {
    match outcome
    case Err(e) => Err(e)
    case Ok(o) => Ok(ChatResponse(o.reply, o.recommendations, id, preferences))
  }

  /** The conversation under `id`, or a new one in the greeting stage. */
  function Opened(conversations: map<string, Conversation>, id: string): (c: Conversation)
    ensures id !in conversations ==> c == NewConversation
    ensures id in conversations ==> c == conversations[id]
  {
    if id in conversations then conversations[id] else NewConversation
  }

  /** `process_message` on the whole dictionary: the conversation under the request's id (a
      new one in the greeting stage when the id is unknown) takes one turn; no other
      conversation changes. */
  function Step(conversations: map<string, Conversation>, catalog: seq<Laptop>,
                request: ChatRequest, freshId: string)
    : (map<string, Conversation>, Result<ChatResponse, ChatError>)
  {
    var id := ConversationId(request, freshId);
    var turn := Respond(Opened(conversations, id), catalog, Strip(request.message));
    (conversations[id := turn.0], Answered(turn.1, id, turn.0.preferences))
  }

  /** A step is one turn on the conversation under the request's id. */
  lemma StepOfTurn(conversations: map<string, Conversation>, catalog: seq<Laptop>, request: ChatRequest,
                   freshId: string, next: Conversation, outcome: Result<Outcome, ChatError>)
    requires (next, outcome) == Respond(Opened(conversations, ConversationId(request, freshId)), catalog, Strip(request.message))
    ensures Step(conversations, catalog, request, freshId)
            == (conversations[ConversationId(request, freshId) := next],
                Answered(outcome, ConversationId(request, freshId), next.preferences))
  {
  }

  /** Giving an id a new conversation first does not change what updating it leaves. */
  lemma UpdateAfterOpen(conversations: map<string, Conversation>, id: string, next: Conversation)
    ensures (if id in conversations then conversations else conversations[id := NewConversation])[id := next]
            == conversations[id := next]
  {
  }

  // ------------------------------------------------------------ properties of a turn

  /** A message touches only the conversation under its id, which it creates when it is
      new; the response carries that id and all the preferences gathered so far. */
  lemma StepTouchesOneConversation(conversations: map<string, Conversation>, catalog: seq<Laptop>,
                                   request: ChatRequest, freshId: string)
    ensures var r := Step(conversations, catalog, request, freshId);
            var id := ConversationId(request, freshId);
            && r.0.Keys == conversations.Keys + {id}
            && (forall other :: other in conversations && other != id ==> r.0[other] == conversations[other])
            && (r.1.Ok? ==> r.1.value.conversationId == id && r.1.value.extractedPreferences == r.0[id].preferences)
  {
  }

  /** The first turn of a conversation, and any turn on a greeting, is answered with the
      greeting (even when the same message completes the preferences) and moves the stage on
      to gathering preferences. */
  lemma GreetingTurn(stage: Stage, preferences: Prefs, greeting: bool, found: Result<seq<Laptop>, ChatError>)
    requires stage == Greeting || greeting
    ensures Decide(stage, preferences, greeting, found) == (GettingPreferences, Ok(Outcome(Welcome, None)))
  {
  }

  /** The stage never goes back to greeting, and it becomes the recommendations stage only
      on a turn whose engine call found laptops. */
  lemma StageProgress(stage: Stage, preferences: Prefs, greeting: bool, found: Result<seq<Laptop>, ChatError>)
    ensures Decide(stage, preferences, greeting, found).0 != Greeting
    ensures Decide(stage, preferences, greeting, found).0 == Recommendations && stage != Recommendations
            ==> Sufficient(preferences) && found.Ok? && found.value != []
  {
  }

  /** Recommendations come only from a turn past the greeting, on a non-greeting message,
      with the budget and the usage type known; they are the first three the engine found
      (all of them when it found fewer), all with an id; and the stage is then the
      recommendations stage. */
  lemma RecommendationsOnlyWhenSufficient(stage: Stage, preferences: Prefs, greeting: bool,
                                          found: Result<seq<Laptop>, ChatError>)
    requires Decide(stage, preferences, greeting, found).1.Ok?
    requires Decide(stage, preferences, greeting, found).1.value.recommendations.Some?
    ensures stage != Greeting && !greeting && Sufficient(preferences)
    ensures Decide(stage, preferences, greeting, found).0 == Recommendations
    ensures found.Ok? && found.value != []
    ensures var top := Decide(stage, preferences, greeting, found).1.value.recommendations.value;
            && 1 <= |top| <= 3
            && top == found.value[..|top|]
            && (|top| < 3 ==> top == found.value)
            && forall x :: x in top ==> x.id.Some?
  {
    var top := Decide(stage, preferences, greeting, found).1.value.recommendations.value;
    assert top == Prefix(found.value, 3);
    forall x | x in top ensures x.id.Some? {
      var k :| 0 <= k < |top| && top[k] == x;
    }
  }

  /** When the bot asks, only the first two questions can come up: the one for the budget
      exactly when it is missing, the one for the usage type when only that is missing. The
      brand question and the generic one are never reached from a turn. */
  lemma OnlyFirstTwoQuestions(stage: Stage, preferences: Prefs, greeting: bool,
                              found: Result<seq<Laptop>, ChatError>)
    requires Decide(stage, preferences, greeting, found).1.Ok?
    ensures var reply := Decide(stage, preferences, greeting, found).1.value.reply;
            && reply != AskBrand && reply != AskMore
            && (reply == AskBudget ==> preferences.budget.None?)
            && (reply.AskUsage? ==> preferences.budget.Some? && preferences.usageType.None?)
  {
  }

  /** The first message of a new conversation gets the greeting and leaves exactly the
      preferences extracted from it. */
  lemma FirstTurnGreets(catalog: seq<Laptop>, message: string)
    ensures Respond(NewConversation, catalog, message)
            == (Conversation(Extract(message), GettingPreferences), Ok(Outcome(Welcome, None)))
  {
    MergeLaws(NoPrefs, Extract(message), NoPrefs);
  }

  /** The laptops a turn recommends are best first, each a catalog laptop with its score,
      priced within 110% of a non-negative budget, and with a GPU when one was asked for. */
  lemma RecommendedLaptops(conversation: Conversation, catalog: seq<Laptop>, message: string, x: Laptop)
    requires Respond(conversation, catalog, message).1.Ok?
    requires Respond(conversation, catalog, message).1.value.recommendations.Some?
    ensures SortedDesc(Respond(conversation, catalog, message).1.value.recommendations.value, ScoreKey)
    ensures x in Respond(conversation, catalog, message).1.value.recommendations.value ==>
              var q := QueryFor(Respond(conversation, catalog, message).0.preferences);
              && (exists c :: c in catalog && x == WithScore(c, q.usage, q.budget))
              && (q.budget >= 0.0 ==> x.price <= q.budget * 1.1)
              && (Respond(conversation, catalog, message).0.preferences.preferGpu == Some(true) ==> HasGpu(x))
  {
    var preferences := Merge(conversation.preferences, Extract(message));
    var found := RecommendationsFor(catalog, preferences);
    var d := Decide(conversation.stage, preferences, IsGreeting(message), found);
    RecommendationsOnlyWhenSufficient(conversation.stage, preferences, IsGreeting(message), found);
    RecommendationsForShape(catalog, preferences);
    var top := d.1.value.recommendations.value;
    assert SortedDesc(top, ScoreKey) by {
      forall i, j | 0 <= i < j < |top| ensures ScoreKey(top[i]) >= ScoreKey(top[j]) {
        assert top[i] == found.value[i] && top[j] == found.value[j];
      }
    }
    if x in top {
      assert x in found.value;
      RecommendedByEngine(catalog, preferences, x);
    }
  }

  /** A turn fails with a division by zero only when the merged budget is zero, and only a
      turn that consults the engine can fail: past the greeting, on a message that is not a
      greeting, with both budget and usage type known. */
  lemma DivisionOnlyOnZeroBudget(conversation: Conversation, catalog: seq<Laptop>, message: string)
    requires Respond(conversation, catalog, message).1 == Err(DivisionByZero)
    ensures Respond(conversation, catalog, message).0.preferences.budget == Some(0.0)
    ensures Sufficient(Respond(conversation, catalog, message).0.preferences)
    ensures conversation.stage != Greeting && !IsGreeting(message)
  {
    var preferences := Merge(conversation.preferences, Extract(message));
    RecommendationsForShape(catalog, preferences);
  }

  // ------------------------------------------------------------ the bot

  /** `ChatBot`: the engine's catalog and the conversations by id. */
  class ChatBot {
    const catalog: seq<Laptop>
    var conversations: map<string, Conversation>

    constructor(catalog: seq<Laptop>)
      ensures this.catalog == catalog && conversations == map[]
    {
      this.catalog := catalog;
      conversations := map[];
    }

    /** `process_message`. The fresh id stands for `str(uuid.uuid4())`. On a failure the
        changes made before it stay, as they do in the dictionary the bot mutates. */
    method ProcessMessage(request: ChatRequest, freshId: string) returns (r: Result<ChatResponse, ChatError>)
      modifies this
      ensures (conversations, r) == Step(old(conversations), catalog, request, freshId)
    {
      ghost var before := conversations;
      var message := Strip(request.message);
      var conversationId := ConversationId(request, freshId);
      if conversationId !in conversations {
        conversations := conversations[conversationId := NewConversation];
      }
      assert conversations[conversationId] == Opened(before, conversationId);
      var conversation, outcome := Turn(conversations[conversationId], message);
      StepOfTurn(before, catalog, request, freshId, conversation, outcome);
      UpdateAfterOpen(before, conversationId, conversation);
      conversations := conversations[conversationId := conversation];
      r := Answered(outcome, conversationId, conversation.preferences);
    }

    /** The body of `process_message` on one conversation: extract, merge, then answer. */
    method Turn(conversation: Conversation, message: string) returns (next: Conversation, outcome: Result<Outcome, ChatError>)
      ensures (next, outcome) == Respond(conversation, catalog, message)
    {
      var extractedPreferences := ExtractPreferences(message);
      var preferences := Merge(conversation.preferences, extractedPreferences);
      var greeting := IsGreeting(message);
      var stage;
      stage, outcome := Answer(conversation.stage, preferences, greeting);
      next := Conversation(preferences, stage);
    }

    /** The `if`/`elif`/`else` of `process_message`: greet, recommend, or ask. */
    method Answer(stage: Stage, preferences: Prefs, greeting: bool) returns (newStage: Stage, outcome: Result<Outcome, ChatError>)
      ensures (newStage, outcome) == Decide(stage, preferences, greeting, RecommendationsFor(catalog, preferences))
    {
      newStage := stage;
      if stage == Greeting || greeting {
        newStage := GettingPreferences;
        outcome := Ok(Outcome(Welcome, None));
      } else if Sufficient(preferences) {
        var q := QueryFor(preferences);
        if q.budget == 0.0 && QueryCandidates(catalog, q) != [] {
          outcome := Err(DivisionByZero);
          return;
        }
        var recommendations := GetRecommendations(catalog, q.budget, q.usage, q.brandPreference,
                                                  q.minRam, q.minStorage, q.preferGpu, 5);
        if recommendations != [] {
          newStage := Recommendations;
          var top := ValidateAll(Prefix(recommendations, 3));
          if top.Err? {
            outcome := Err(InvalidLaptop(top.error));
            return;
          }
          outcome := Ok(Outcome(Recommending, Some(top.value)));
        } else {
          outcome := Ok(Outcome(NoMatch, None));
        }
      } else {
        outcome := Ok(Outcome(AskForMissing(preferences), None));
      }
    }
  }
}
