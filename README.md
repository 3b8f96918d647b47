# Laptop recommender: a Dafny model

This project models the decision logic of a laptop recommendation system that suggests
laptops through a chat conversation. It has four parts:

- **Recommendation engine** (`engine.dfy`, module `RecommendationEngine`).
  - A fixed requirement profile per usage type: minimum RAM and storage, a GPU flag,
    processor keywords and feature weights.
  - A strict filter pass. When that pass keeps nothing, one relaxed pass runs: 110% of the
    budget, no brand, the profile's own RAM and storage minimums, the same GPU condition.
  - A weighted score per surviving laptop, computed in a loop (`ScoreLaptops`,
    `ScoreLaptop`, `MatchProcessor`).
  - A stable best-first sort (`ranking.dfy`) and a cut to `limit`.
  - `GetRecommendations` is proved equal to the specification function `Recommend`. The
    lemmas beside it state what the recommendations are: their budget bound, GPU, order,
    stability, length and origin.
- **Preference extraction** (`extraction.dfy`, over the regular-expression fragment in
  `patterns.dfy` and the character helpers in `text.dfy`).
  - Six independent extractions from one message: budget, usage type, brand, RAM, storage
    and the GPU flag.
  - Each is written as an imperative method, proved equal to a specification function.
- **Conversation coordinator** (`chatbot.dfy`, class `Chatbot.ChatBot`).
  - A dictionary of conversations, each holding its accumulated preferences and a stage.
  - Each turn merges the extracted preferences, then greets, recommends at most three
    laptops, or asks for what is missing.
  - `ProcessMessage` is proved equal to the pure step `Step`. The lemmas about `Step`,
    `Respond` and `Decide` state the conversation's laws.
- **Data model and catalog** (`models.dfy`, `data_manager.dfy`).
  - The usage types, the laptop record and the request/preference validators.
  - The id backfill applied to a loaded catalog, done in place on an array.
  - The lookup of a laptop by id.

Prices, budgets and scores are exact reals. Python exceptions are values:
- the `ZeroDivisionError` a zero budget raises is `Err(DivisionByZero)`;
- a recommended laptop without an id, which makes `Laptop(**laptop)` fail, is
  `Err(InvalidLaptop(MissingId))`.

Where the code and its documentation disagree, the model follows the code:
- The budget patterns are tried in order, but the first one, an optional dollar sign before
  the amount, matches wherever three digits begin. So it alone decides the budget, whatever
  words stand around the number (`Extraction.FirstBudgetPatternDecides`). The amount starts
  at the first position of the message where three digits follow.
- From there the amount takes the run of digits, cut to its first five ("123456" gives
  12345), and then any `,ddd` groups (`Extraction.AmountValue`). "$1500" gives 1500.
- A storage size can become the budget: a message starting "512GB SSD" gets 512
  (`Extraction.StorageSizeBecomesBudget`). In "under 900, 512GB SSD" the earlier "900"
  wins.
- "$1,500" gets a budget of 500, not 1500: the amount cannot start at the lone "1"
  (`Extraction.ThousandsSeparatorDropsThousands`).

## Model

| member | source | states |
|---|---|---|
| Models.ParseUsageType | src/models.py:6-13 | a string parses to the usage type whose value it is, and to nothing when no usage type has that value |
| Models.UsageTypesAreExactlySix | src/models.py:6-13 | there are exactly six usage types, all distinct, and each one's value parses back to it |
| Models.NewLaptop | src/models.py:16-40 | a laptop built from the required fields has its id and required fields, and gpu, display, battery life, weight, os and score unset |
| Models.ValidateLaptop | src/models.py:34-37 | a laptop record validates exactly when it has an id, and is then returned unchanged; otherwise the error is a missing id |
| Models.DefaultPreference | src/models.py:53-62 | a preference built from budget and usage type has no brand, RAM, storage, weight or os preference and does not prefer a GPU |
| Models.PreferenceErrors | src/models.py:64-80 | the budget error is reported iff budget <= 0, the RAM error iff a given RAM is below 4, the storage error iff a given storage is below 128, and nothing else |
| Models.ValidateUserPreference | src/models.py:53-83 | a preference is accepted iff budget > 0 and any given RAM >= 4 and any given storage >= 128; a rejection lists exactly the failing checks and is never empty |
| Models.ValidateChatRequest | src/models.py:96-105 | a chat request is accepted iff its message is not empty; otherwise the error is the empty message |
| Text.Strip | src/chatbot.py:93 | the stripped message is a slice of the message with only white space cut from both ends, and neither end of it is white space |
| Text.Contains | src/recommendation_engine.py:225 | `w in s` holds iff `w` occurs in `s` at some position |
| Text.Lower | src/recommendation_engine.py:178 | lower-casing keeps the length and lower-cases every character on its own |
| Text.RemoveCommas | src/chatbot.py:191 | removing the commas leaves no comma, leaves a text without commas unchanged, turns a lone comma into the empty text, and turns a text of digits and commas into digits only |
| Text.RemoveCommasConcat | src/chatbot.py:191 | removing the commas distributes over concatenation, so with the two single-character cases it keeps exactly the non-comma characters in order |
| Text.CommaGroupValue | src/chatbot.py:191-193 | after digits and commas, a `,ddd` group multiplies the comma-free value read so far by 1000 and adds the group |
| Text.DecimalValueAppend | src/chatbot.py:191-193 | the number written by digits `a` then digits `b` is `a`'s value times 10 to the length of `b`, plus `b`'s value |
| Ranking.SortDescOrdered | src/recommendation_engine.py:251 | the sort result is ordered by non-increasing key and is a permutation of its input |
| Ranking.SortDescStable | src/recommendation_engine.py:251 | for every key value, the elements with that key come out in input order (the sort is stable) |
| Ranking.WithKeyPrefix | src/recommendation_engine.py:140 | cutting a list keeps, for each key value, a prefix of the elements with that key |
| RecommendationEngine.Requirements | src/recommendation_engine.py:19-90 | a GPU is required exactly for gaming and creative work; every profile asks for at least 4 GB RAM and 128 GB storage; every weight lies in (0, 1] |
| RecommendationEngine.Resolve | src/recommendation_engine.py:158-165 | a missing RAM or storage minimum is taken from the usage profile; the GPU filter applies iff the profile requires a GPU or the caller prefers one |
| RecommendationEngine.Keep | src/recommendation_engine.py:168-182 | a comprehension keeps exactly the elements satisfying its condition and never lengthens the list |
| RecommendationEngine.KeepTwice | src/recommendation_engine.py:168-174 | two comprehensions in a row keep what one comprehension with both conditions keeps |
| RecommendationEngine.ChainIsAdmitted | src/recommendation_engine.py:167-184 | the comprehension chain, with the brand and GPU steps applied only when they apply, keeps exactly the laptops passing every condition |
| RecommendationEngine.FilterLaptops | src/recommendation_engine.py:142-184 | a filter pass returns the catalog laptops meeting budget, RAM, storage, brand (when given) and GPU (when needed) conditions, in catalog order |
| RecommendationEngine.StrictPassAdmits | src/recommendation_engine.py:116-123 | a laptop survives the strict pass iff it is in the catalog, costs at most the budget, meets the caller's or else the profile's RAM and storage minimums, has the requested brand ignoring case when a non-empty brand is given, and has a GPU when one is required or preferred |
| RecommendationEngine.RelaxedPassAdmits | src/recommendation_engine.py:126-134 | a laptop survives the relaxed pass iff it is in the catalog, costs at most 110% of the budget, meets the profile's own minimums and has a GPU when one is required or preferred; the caller's brand, RAM and storage play no part |
| RecommendationEngine.Candidates | src/recommendation_engine.py:115-134 | the laptops left to score: the strict pass, or, when it keeps nothing, the relaxed pass with 110% of the budget, no brand and the profile minimums (properties in `CandidatesWithinBudget`, `NoAffordableGpuMeansNothing`, `CandidatesInCatalogOrder`) |
| RecommendationEngine.CandidatesWithinBudget | src/recommendation_engine.py:115-134 | every candidate is a catalog laptop priced within the budget when the strict pass is non-empty and within 110% of it otherwise, with a GPU when one is required or preferred |
| RecommendationEngine.NoAffordableGpuMeansNothing | src/recommendation_engine.py:125-134 | when a GPU is needed and no GPU laptop is affordable in either pass, nothing is recommended |
| RecommendationEngine.RecommendationsWithinBudget | src/recommendation_engine.py:92-140 | every recommendation is a catalog laptop with its score added, within the budget (strict pass) or 110% of it (relaxed pass), with a GPU when required or preferred |
| RecommendationEngine.KeepIsSubsequence | src/recommendation_engine.py:168 | a comprehension returns a subsequence of its input |
| RecommendationEngine.CandidatesInCatalogOrder | src/recommendation_engine.py:142-184 | the candidates are a subsequence of the catalog |
| RecommendationEngine.TopScoredStable | src/recommendation_engine.py:250-251 | after sorting and cutting, the laptops with any given score are a prefix, in input order, of the scored laptops with that score, and all of them when nothing is cut |
| RecommendationEngine.RecommendStable | src/recommendation_engine.py:136-140 | the candidates keep catalog order, and equal-score recommendations keep candidate order |
| RecommendationEngine.ScoredMembers | src/recommendation_engine.py:245-251 | every sorted scored laptop is an input laptop copied with its own score and nothing else changed |
| RecommendationEngine.Recommend | src/recommendation_engine.py:115-140 | the candidates scored, sorted best first and cut to `limit`; callable when the budget is not zero or nothing is left to score (properties in `RecommendShape`, `RecommendationsWithinBudget`, `RecommendStable`) |
| RecommendationEngine.RecommendShape | src/recommendation_engine.py:92-140 | the recommendations are sorted best first, number exactly min(limit, candidates) for a non-negative limit, and are candidates with their scores added; they are a sub-multiset of the scored candidates, and no scored candidate left out scores above one returned (the top recommendations) |
| RecommendationEngine.TopCut | src/recommendation_engine.py:139-140 | cutting any sorted scored list with `[:limit]` takes no entry twice and leaves out nothing that outscores an entry kept |
| RecommendationEngine.Scored | src/recommendation_engine.py:205-248 | the scored list has one entry per input laptop, at the same position, holding that laptop with its score |
| RecommendationEngine.Prefix | src/recommendation_engine.py:140 | `[:limit]` returns a prefix of length min(limit, n) for a non-negative limit and n + limit (at least 0) for a negative one |
| RecommendationEngine.MatchProcessor | src/recommendation_engine.py:221-228 | the processor score is 1.0 iff some profile keyword occurs in the processor name ignoring case, and 0 otherwise |
| RecommendationEngine.Score | src/recommendation_engine.py:207-243 | the score of one laptop: the sum of the weighted price, RAM, storage, processor, GPU, battery and weight terms (properties in `ScoreGpuChange`, `ScoreCheaper`, `ScoreLighter` and the lemmas after them) |
| RecommendationEngine.ScoreLaptop | src/recommendation_engine.py:207-243 | the loop body accumulates exactly the weighted sum of price, RAM, storage, processor, GPU (when weighted), battery (when known) and weight (when known) terms with the listed defaults |
| RecommendationEngine.ScoreLaptops | src/recommendation_engine.py:186-251 | scoring returns the scored laptops sorted best first, as a permutation of the scored list; an empty input returns before any division by the budget |
| RecommendationEngine.GetRecommendations | src/recommendation_engine.py:92-140 | the method returns exactly the specified recommendations: strict pass, relaxed pass only when the strict pass is empty, scored, sorted and cut to `limit` |
| RecommendationEngine.WeightsPositive | src/recommendation_engine.py:209-243 | under every usage profile the price, RAM, storage, processor, battery and weight terms carry a positive weight |
| RecommendationEngine.ScoreGpuChange | src/recommendation_engine.py:230-233 | changing a laptop's GPU changes its score by the GPU weight times the GPU sub-score change when that weight is positive, and not at all otherwise |
| RecommendationEngine.GpuCountsOnlyForGamingAndCreative | src/recommendation_engine.py:230-233 | for any GPU value, the GPU changes the score only for gaming and creative work, where a present GPU adds the full GPU weight to the score without one |
| RecommendationEngine.PriceTermNegativeOverBudget | src/recommendation_engine.py:209-211 | a price above a positive budget makes the price term negative |
| RecommendationEngine.ScoreCheaper | src/recommendation_engine.py:209-211 | under a profile that weighs price positively, a cheaper otherwise identical laptop scores strictly higher |
| RecommendationEngine.CheaperIsBetter | src/recommendation_engine.py:209-211 | for every usage type, a cheaper otherwise identical laptop scores strictly higher under a positive budget |
| RecommendationEngine.ScoreLighter | src/recommendation_engine.py:240-243 | under a profile that weighs weight positively, a lighter otherwise identical laptop never scores lower, and scores strictly higher below 3 kg |
| RecommendationEngine.LighterIsBetter | src/recommendation_engine.py:240-243 | for every usage type, a lighter otherwise identical laptop never scores lower, and scores strictly higher below 3 kg |
| Patterns.WordMatch | src/chatbot.py:63 | a word-bounded alternation matches wherever one of its alternatives stands between two word boundaries |
| Patterns.WholeTextMatch | src/chatbot.py:65 | an alternation anchored at both ends matches a text that is exactly one of its alternatives |
| Patterns.WordMatchIff | src/chatbot.py:63 | a word-bounded alternation matches at a position exactly when an alternative stands there between two word boundaries |
| Patterns.WordFoundIff | src/chatbot.py:63 | `re.search` of a word-bounded alternation succeeds exactly when an alternative stands somewhere as a whole word |
| Patterns.WholeTextIff | src/chatbot.py:65 | `re.search` of `^(?:...)$` succeeds exactly when the text is one alternative, optionally followed by one line feed (where `$` also matches) |
| Patterns.PhraseFoundIff | src/chatbot.py:64 | `re.search` of `\b(?:a...)\s+(?:b...)\b` succeeds exactly when an alternative of the first list starts a word, then white space, then one of the second list ends a word |
| Patterns.PairFoundIff | src/chatbot.py:236 | `re.search` of `(?:a...)\s+(?:b...)` succeeds exactly when an alternative of the first list, white space and one of the second list stand somewhere, inside words or not |
| Extraction.FirstThreeDigits | src/chatbot.py:28 | finds the leftmost position where three digits start, or none when no position has three digits |
| Extraction.SearchBudget | src/chatbot.py:188-190 | a budget pattern's search result is a position at or after the start where three digits begin |
| Extraction.FirstBudgetPatternFindsFirstRun | src/chatbot.py:28 | the first budget pattern, whose `$` is optional, matches at the leftmost three-digit position |
| Extraction.AmountValue | src/chatbot.py:191-193 | the amount is never negative; it is the value of the amount group's digits with the commas removed; without a `,ddd` group it is the value of the leading digits (the whole run, or its first five); with exactly one group it is those digits as thousands plus the group |
| Extraction.AmountGroupStep | src/chatbot.py:191-193 | each further `,ddd` group multiplies the value read so far by 1000 and adds the group, so together with the leading digits this gives an amount with any number of groups ("100,000,000" reads 100000000) |
| Extraction.BudgetFrom | src/chatbot.py:187-196 | an extracted budget is never negative |
| Extraction.FirstBudgetPatternDecides | src/chatbot.py:187-196 | the budget is none iff the message has no three-digit run, and otherwise the amount at its first three-digit run; the other four patterns never decide |
| Extraction.StorageSizeBecomesBudget | src/chatbot.py:28 | a message starting "512gb" gets a budget of 512 |
| Extraction.ThousandsSeparatorDropsThousands | src/chatbot.py:28 | a message starting "$1,500" and then a space or its end gets a budget of 500, because `\d{3,5}` cannot start at the single "1" |
| Extraction.UsageFrom | src/chatbot.py:198-205 | the extracted usage type is the first category, in declared order, with a keyword in the message; none iff no category has one |
| Extraction.KeywordInsideWord | src/chatbot.py:34-55 | any keyword occurring anywhere, even inside another word, sets a usage type of its own category or an earlier one |
| Extraction.StartMeansCreative | src/chatbot.py:47-48 | a message containing "start" always gets a usage type, and one no later than creative ("art" is found inside "start") |
| Extraction.SearchBrandLeftmost | src/chatbot.py:207-208 | the brand search finds nothing iff the brand pattern matches at no position, and otherwise returns the word captured at the leftmost position where it matches |
| Extraction.BrandOf | src/chatbot.py:207-213 | no brand when the pattern matches nowhere; otherwise the word captured by the leftmost match when it is one of the nine listed brands, and no brand when it is not |
| Extraction.SearchNumberNone | src/chatbot.py:216-217 | the search for a `(\d+)` pattern finds nothing iff no position holds a digit whose run is followed by a match of the rest of the pattern |
| Extraction.SearchNumberLeftmost | src/chatbot.py:216-217 | what the search for a `(\d+)` pattern finds is such a position, and no earlier position is one: the leftmost match |
| Extraction.SearchNumberStartsRun | src/chatbot.py:216-219 | a match found past the search start begins a run of digits, so the captured group is the whole run |
| Extraction.RamOf | src/chatbot.py:216-221 | no RAM iff the RAM pattern matches nowhere; otherwise the value of the digits of its leftmost match |
| Extraction.StorageOf | src/chatbot.py:223-233 | the number of the storage match, times 1000 when its unit is TB (characterised by `StorageOfLeftmost`) |
| Extraction.StorageOfLeftmost | src/chatbot.py:223-233 | no storage iff the storage pattern matches nowhere; otherwise the value of the digits of its leftmost match, times 1000 when the unit taken is TB |
| Extraction.Extract | src/chatbot.py:175-239 | the six extractions on the lower-cased message, each setting its key only when its pattern matches (properties in `ExtractionLimits` and the lemmas of each extraction) |
| Extraction.ExtractionLimits | src/chatbot.py:175-239 | extraction never yields the general usage type, never sets the GPU preference to false, yields only listed brands and never a negative budget |
| Extraction.GpuFlag | src/chatbot.py:235-237 | the GPU preference is set to true exactly when "dedicated", "good" or "gaming", white space, then "gpu" or "graphics" occur in the lower-cased message (no word boundaries); otherwise the key is absent |
| Extraction.ExtractBudget | src/chatbot.py:187-196 | the budget loop returns the specified budget |
| Extraction.SearchKeywords | src/chatbot.py:200-203 | the keyword loop reports a hit iff some keyword occurs in the message |
| Extraction.ExtractUsage | src/chatbot.py:198-205 | the nested usage loops with their breaks return the specified usage type |
| Extraction.ExtractBrand | src/chatbot.py:207-213 | the brand step returns `BrandOf`: the leftmost captured word when it is a listed brand, and otherwise nothing |
| Extraction.ExtractRam | src/chatbot.py:215-221 | the RAM step returns `RamOf`: the number of the leftmost RAM match, or nothing when there is none |
| Extraction.ExtractStorage | src/chatbot.py:223-233 | the storage step returns `StorageOf`: the number of the leftmost storage match in GB, or nothing when there is none |
| Extraction.ExtractPreferences | src/chatbot.py:175-239 | the extracted dictionary holds exactly the keys whose extraction succeeded, with the specified values |
| Chatbot.Merge | src/chatbot.py:116 | `update` takes every key the extracted preferences have and keeps every other existing key |
| Chatbot.Keys | src/chatbot.py:248-259 | the key set holds "budget" and "usage_type" exactly when those preferences are present |
| Chatbot.Sufficient | src/chatbot.py:248-259 | the preferences suffice iff both a budget and a usage type are present |
| Chatbot.MergeKeys | src/chatbot.py:116 | the keys after a merge are the union of the keys before it: no key is ever removed |
| Chatbot.MergeLaws | src/chatbot.py:116 | merging the same values twice is merging once; merging is associative; an empty extraction changes nothing and merging into nothing gives the extraction |
| Chatbot.SufficientPersists | src/chatbot.py:248-259 | once budget and usage type are both known they stay known for the rest of the conversation |
| Chatbot.AskForMissing | src/chatbot.py:261-282 | the budget question iff the budget is missing; the usage question, quoting the budget, iff only the usage is missing; the brand question iff both are known and the brand is not; the fallback otherwise |
| Chatbot.IsGreeting | src/chatbot.py:241-246 | a message is a greeting iff one of the three greeting patterns is found in it, ignoring case (properties in `GreetingForms`, `GreetingWordGreets`, `CommandGreets`) |
| Chatbot.GreetingWordGreets | src/chatbot.py:63 | a greeting word standing as a whole word anywhere makes the message a greeting |
| Chatbot.CommandGreets | src/chatbot.py:65 | a message that is exactly "start", "begin" or "help", ignoring case, is a greeting |
| Chatbot.GreetingForms | src/chatbot.py:61-66 | a message is a greeting exactly when, ignoring case, a greeting word stands as a whole word, or "good" then white space then "morning", "afternoon" or "evening" stands as words, or the whole message is "start", "begin" or "help" with at most a trailing line feed; no other message greets |
| Chatbot.GreetingWordFound | src/chatbot.py:63 | the first greeting pattern is found exactly when a greeting word stands as a whole word |
| Chatbot.GoodTimeFound | src/chatbot.py:64 | the second greeting pattern is found exactly when "good <time of day>" stands as words |
| Chatbot.CommandFound | src/chatbot.py:65 | the third greeting pattern is found exactly when the whole text is a command, with at most a trailing line feed |
| Chatbot.QueryFor | src/chatbot.py:294-300 | the engine gets budget 1000 and the general usage type when those are missing, the brand, RAM and storage as they are, and prefers a GPU iff the preference is true |
| Chatbot.RecommendationsFor | src/chatbot.py:284-310 | the engine asked with the defaults of `QueryFor`; a division by zero when the budget is zero and laptops are left to score (properties in `RecommendationsForShape`, `RecommendedByEngine`) |
| Chatbot.RecommendationsForShape | src/chatbot.py:284-310 | asking the engine fails only on a zero budget, and otherwise returns at most five laptops sorted best first |
| Chatbot.RecommendedByEngine | src/chatbot.py:284-310 | every laptop the engine returns to the bot is a catalog laptop with its score, within 110% of a non-negative budget, with a GPU when one is preferred |
| Chatbot.ValidateAll | src/chatbot.py:147 | converting the top laptops succeeds iff every one has an id, returns them unchanged, and otherwise fails on the missing id |
| Chatbot.ConversationId | src/chatbot.py:94 | a non-empty given conversation id is used; a missing or empty one is replaced by the fresh id |
| Chatbot.Respond | src/chatbot.py:111-117 | every turn merges the extracted preferences into the conversation's, whatever the reply |
| Chatbot.Decide | src/chatbot.py:118-159 | the greeting when in the greeting stage or greeted, otherwise the question for what is missing, otherwise the engine's result: no match, an error, or the top three validated laptops (properties in `GreetingTurn`, `StageProgress`, `RecommendationsOnlyWhenSufficient`, `OnlyFirstTwoQuestions`) |
| Chatbot.Answered | src/chatbot.py:145-173 | a response carries the turn's reply and recommendations with the conversation id and the merged preferences; a failed turn fails with the same error |
| Chatbot.Opened | src/chatbot.py:96-102 | an unknown id opens a new conversation with no preferences in the greeting stage; a known id continues its conversation |
| Chatbot.Step | src/chatbot.py:83-173 | one message: the conversation id, the opened conversation, the turn, and the dictionary with that conversation replaced (properties in `StepTouchesOneConversation`, `FirstTurnGreets`) |
| Chatbot.StepTouchesOneConversation | src/chatbot.py:93-117 | a message adds at most its own conversation id, changes no other conversation, and answers with that id and that conversation's preferences |
| Chatbot.GreetingTurn | src/chatbot.py:120-126 | in the greeting stage or on a greeting message the reply is the greeting with no recommendations and the stage becomes gathering preferences, even when the preferences are complete |
| Chatbot.StageProgress | src/chatbot.py:120-155 | no turn returns to the greeting stage, and a turn enters the recommendations stage only when the preferences suffice and the engine found something |
| Chatbot.RecommendationsOnlyWhenSufficient | src/chatbot.py:129-150 | recommendations are returned only past the greeting, on a non-greeting message, with budget and usage known and a non-empty engine result; they are its first one to three laptops, all with ids, and the stage is then recommendations |
| Chatbot.OnlyFirstTwoQuestions | src/chatbot.py:128-159 | a turn never asks for the brand or gives the fallback; it asks for the budget only when it is missing, and for the usage only when the budget is known and the usage is not |
| Chatbot.FirstTurnGreets | src/chatbot.py:97-126 | the first message of a new conversation gets the greeting and leaves exactly the preferences extracted from it |
| Chatbot.RecommendedLaptops | src/chatbot.py:129-150 | the laptops a turn recommends are sorted best first, and each is a catalog laptop with its score, within 110% of a non-negative budget, with a GPU when one was asked for |
| Chatbot.DivisionOnlyOnZeroBudget | src/chatbot.py:119-130 | a turn fails with a division by zero only when the merged budget is zero, past the greeting stage, on a message that is not a greeting, with budget and usage type both known |
| Chatbot.ChatBot.constructor | src/chatbot.py:15-23 | a new bot has the engine's catalog and no conversations |
| Chatbot.ChatBot.ProcessMessage | src/chatbot.py:83-173 | processing a message updates the dictionary and answers exactly as the step function does |
| Chatbot.ChatBot.Turn | src/chatbot.py:111-159 | one turn on a conversation gives the specified new conversation and outcome |
| Chatbot.ChatBot.Answer | src/chatbot.py:119-159 | the greeting, recommendation and question branches give the specified stage and outcome, with the engine asked only when the preferences suffice |
| DataManager.Backfilled | src/data_manager.py:72-76 | the catalog with a fresh id given to each laptop that has none; the length is kept (properties in `BackfillGivesEveryId`, `BackfillIdempotent`) |
| DataManager.BackfillGivesEveryId | src/data_manager.py:74-76 | after the backfill every laptop has an id; a laptop that had one is unchanged; any other laptop differs only in its id |
| DataManager.BackfillIdempotent | src/data_manager.py:74-76 | backfilling an already backfilled catalog changes nothing |
| DataManager.BackfillIds | src/data_manager.py:73-76 | the in-place loop leaves the array equal to the backfilled catalog |
| DataManager.GetLaptopById | src/data_manager.py:289-303 | the lookup returns the first laptop in catalog order whose id matches, and nothing iff no laptop has that id |

## Left out

- Reading and writing the catalog file, the sample catalog, and the currency conversion are
  not part of this model. The catalog is a parameter. `_create_sample_data` refers to names
  it never defines.
- `uuid.uuid4()` is a parameter: `freshId` for conversation ids, and a function of the
  position for backfilled laptop ids.
- The conversation transcript is not modelled: the message history entries and their
  `datetime.now()` timestamps.
- Reply texts are modelled as reply kinds. `_format_recommendations` is not modelled: it
  formats floats as text.
- Python's `re` is modelled only for the fragment these patterns use. Only ASCII letters,
  digits and white space are classified, and `re.IGNORECASE` is modelled as lower-casing
  ASCII. `str.strip` and `str.lower` are ASCII-only for the same reason.
- The first budget pattern's optional trailing unit (`dollars|USD|bucks`) is not modelled.
  It can neither make a match fail nor change the captured amount.
- RamOf: the captured run of digits is converted with no limit on its length. Python
  3.11 and later (and its security backports) make `int()` raise `ValueError` for more
  than 4300 digits. The source catches that error and leaves `min_ram` unset, while the
  model gives the number.
- StorageOfLeftmost: the same 4300-digit limit on `int()` is not modelled. Past it the
  source leaves `min_storage` unset, while the model gives the number.
- AmountValue: the amount is an exact number. `float()` rounds an amount with more than 15
  to 17 significant digits, and gives `inf` past the largest float. Neither is modelled.
- A laptop record is a typed value. Pydantic coercion, unknown extra keys, and an `id` key
  present with value `None` are not modelled: a missing id is `None`.
- `ProcessMessage` updates the conversation dictionary once per turn. The source mutates the
  conversation's dictionary in several places within a turn. Nothing else can observe these
  intermediate states, since the model is single-threaded and has no locking to model.
- RecommendedByEngine: the 110%-of-budget bound is stated only for a non-negative budget.
  For a negative budget the bound flips direction (`1.1 * budget < budget`).
- RecommendedLaptops: the 110%-of-budget bound is stated only for a non-negative budget,
  for the same reason.
- The web front ends (Flask and FastAPI handlers), the evaluation plots and metrics, and the
  demo script are not part of this model.
