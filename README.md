# MESH conversational core in Dafny

MESH is a rule-based financial assistant bot (Wfinance). This project models
and proves properties of its conversational core:

- **Memory store** (`MeshMemoryManager`, module `MemoryManager`). The store keeps:
  - per-user conversation histories, capped at 50 turns, with user texts cut to 1000 characters and bot texts to 2000;
  - lazily created user profiles;
  - a learning-event table. Its events are grouped by type and folded into the profiles once five events are waiting;
  - a one-week cleanup;
  - a score update that halves the gap between the old score and a new rating.

  It is a class over three insertion-ordered maps (`OrderedMaps.OrderedMap`), with the clock passed in as a `nat`.
- **Learning engine** (`LearningEngine`, module `Learning`):
  - topic and problem bucket counting, proved as loops against counting functions;
  - the communication-style thresholds;
  - feedback categorisation with precedence, and the satisfaction score it implies;
  - the count-weighted running mean of satisfaction;
  - the confidence step function;
  - trend detection;
  - skill preferences and recommendations, ordered by a stable sort proved sorted, a permutation and stable (module `Ranking`).

  Scores are Dafny `real`s, which are exact rationals.
- **Skill dispatch** (`BaseBot`, modules `BaseBot`, `BaseSkill`, `FluxoCaixaSkill`, `ConciliacaoSkill`). Skills are tried in registration order and the first skill that claims the message and answers wins. A skill whose `execute` throws is skipped. After the skills come the language-model service, then a fixed greeting. The two concrete skills are case-insensitive keyword predicates that return constant reports.
- **Completion fallback chain** (`MinimalNaturalLLM`, module `Llm`). Blank text short-circuits. Otherwise Azure is tried, then OpenAI, then a keyword classifier, and the chain never fails. Each provider is represented by its request plus an abstract response from a `Network` parameter.
- **Keyword responders and formatter**:
  - `MeshBotPureNatural` (module `MeshBot`);
  - `MeshPersonalityCore` (module `MeshPersona`);
  - `MeshResponseFormatter` (module `ResponseFormatter`): formality stripping, bolding of money and percentages, and truncation for Teams.

Shared definitions:

- **Module `Text`:**
  - substring containment;
  - lower-casing restricted to ASCII and Latin-1 capitals;
  - JavaScript's `trim`, with the white-space class of ECMAScript;
  - decimal printing.
- **`Results`:** `Option` and `Attempt`. An `Attempt` is a value or a rejection.
- **`OrderedMaps`:** a JavaScript `Map`, with its key insertion order.
- **`Ranking`:** a keyed counter and a descending sort, proved sorted, a permutation of its input and stable (`SortDescStable`).

Skill matching and execution, the language-model service and the providers' network answers are parameters, as are the clock (`now`) and `Math.random()` (`roll`). Most loops of the source are Dafny `method`s with a `while` or `for` loop. Each such method is proved equal to a function, and lemmas state what the source promises about that function. These are:

- skill dispatch (`BaseBot.Bot.ProcessMessage`);
- the learning-event handlers, batch processing and both cleanup loops of the memory store;
- the bucket and style counters and `findLastSkillUsage` of the learning engine;
- the formality table (`ResponseFormatter.AdjustFormality`, a `for` loop).

Two counting passes of the memory store are recursive functions instead: the `forEach` and counting `reduce` of `analyzeTopicPatterns` (`MemoryManager.AnalyzeTopicPatterns`), and the `reduce` of `getMemoryStats` (`MemoryManager.SumTurns`).

## Model

| member | source | states |
|---|---|---|
| MemoryManager.NewTurn | src/core/memory/MemoryManager.js:55-66 | The stored texts are prefixes of the inputs, at most 1000 and 2000 characters and equal to the input when it fits. The metadata keeps the original lengths, the channel (default 'unknown') and the processing time. |
| MemoryManager.Appended | src/core/memory/MemoryManager.js:55-71 | After a push and the splice, the history holds min(n+1, 50) turns and is the suffix of the old history plus the new turn. |
| MemoryManager.AppendedOk | src/core/memory/MemoryManager.js:55-71 | Appending a truncated turn keeps a history well formed: at most 50 turns, each within the text limits. |
| MemoryManager.SuffixOk | src/core/memory/MemoryManager.js:69-71 | A suffix of at most 50 well-formed turns is a well-formed history. |
| MemoryManager.AppendedFull | src/core/memory/MemoryManager.js:69-71 | When the history is full, the oldest turn is dropped and the new turn is last. |
| MemoryManager.AppendAllKeepsLatest | src/core/memory/MemoryManager.js:45-89 | After any number of saves, the history is the last at most 50 turns ever saved, in the order they were saved. |
| MemoryManager.AppendedDrop | src/core/memory/MemoryManager.js:69-71 | One save is a cut of the front of the concatenated turns. |
| MemoryManager.Latest | src/core/memory/MemoryManager.js:69-71 | Holds the last min(n, 50) turns of a sequence, as a suffix. |
| MemoryManager.LatestDrop | src/core/memory/MemoryManager.js:69-71 | Dropping turns that the 50-turn window no longer holds does not change the window. |
| MemoryManager.Recent | src/core/memory/MemoryManager.js:91-99 | `slice(-limit)`: a positive limit keeps the last min(limit, n) turns in stored order, and limit 0 keeps all of them. Each entry copies the timestamp, the texts and the channel of its turn. |
| MemoryManager.RecentZeroIsWhole | src/core/memory/MemoryManager.js:94 | `slice(-0)` is `slice(0)`, so a limit of 0 returns the whole history, each entry copied from its turn. |
| MemoryManager.AddNew | src/core/memory/MemoryManager.js:285-286 | `includes` before `push`: this keeps a list free of duplicates, adds exactly `x`, and keeps the old list as a prefix. |
| MemoryManager.CreateDefaultProfile | src/core/memory/MemoryManager.js:132-169 | A fresh profile for the user: stamped `now`, zero counters, session length and score, channel 'unknown', style 'professional', time zone 'America/Sao_Paulo', role, department and company 'unknown', every list empty. |
| MemoryManager.Assign | src/core/memory/MemoryManager.js:119 | `Object.assign` of an activity or a feedback update sets exactly those fields and keeps a well-formed profile well formed. |
| MemoryManager.MessageTopics | src/core/memory/MemoryManager.js:440-459 | The topics one message counts for are free of duplicates. |
| MemoryManager.TopicNamesApart | src/core/memory/MemoryManager.js:444-458 | The five topic names pushed for one message never repeat. |
| MemoryManager.ApartByLengths | src/core/memory/MemoryManager.js:444-458 | Runs of names with distinct lengths have no duplicates. |
| MemoryManager.AppendApart | src/core/memory/MemoryManager.js:444-458 | Appending a name of a new length keeps a list of names free of duplicates. |
| MemoryManager.NoDupAppend | src/core/memory/MemoryManager.js:444-458 | Two duplicate-free lists with no common element concatenate to a duplicate-free list. |
| MemoryManager.AnalyzeTopicPatternsSpec | src/core/memory/MemoryManager.js:436-470 | The ranking lists each topic that some message mentions, exactly once and no other, ordered by number of mentions. |
| MemoryManager.AnalyzeCommunicationStyle | src/core/memory/MemoryManager.js:472-485 | The result is one of 'detailed', 'concise' and 'professional'. |
| MemoryManager.DivideCompare | src/core/memory/MemoryManager.js:474-480 | Comparing an average with a bound is comparing the total with bound times count. |
| MemoryManager.AnalyzeCommunicationStyleSpec | src/core/memory/MemoryManager.js:472-485 | 'detailed' exactly when there are turns of more than 100 characters per turn on average; 'concise' exactly when below 30. An empty history (NaN average) falls to 'professional'. |
| MemoryManager.AnalyzeUserPatterns | src/core/memory/MemoryManager.js:372-399 | With fewer than 3 recent turns the profile is unchanged. Otherwise only the response style and the first five frequent topics change. Well-formedness is kept. |
| MemoryManager.ExtractTopicFromMessage | src/core/memory/MemoryManager.js:521-531 | The topic is one of the six fixed names. |
| MemoryManager.ExtractTopicSpec | src/core/memory/MemoryManager.js:521-531 | The result is cash flow exactly when topic analysis also counts cash flow. It is 'general' exactly when none of the accented keywords occurs. |
| MemoryManager.ExtractTopicPrecedence | src/core/memory/MemoryManager.js:524 | Any message that has 'fluxo' and then 'caixa' is cash flow, whatever else it names. |
| MemoryManager.EventKey | src/core/memory/MemoryManager.js:182 | The event key starts with the event type and '_'. |
| MemoryManager.UnprocessedOf | src/core/memory/MemoryManager.js:211-212 | The unprocessed events are exactly the events not yet marked processed. |
| MemoryManager.OfTypeEmpty | src/core/memory/MemoryManager.js:240-248 | No events of a type exactly when no event of the table has that type. |
| MemoryManager.Types | src/core/memory/MemoryManager.js:240-248 | The group types, one per group, in order. |
| MemoryManager.AddToGroupsSpec | src/core/memory/MemoryManager.js:241-247 | One reduce step appends the event to its type's group, creating the group last when the type is new. |
| MemoryManager.GroupOfAt | src/core/memory/MemoryManager.js:240-248 | In groups with distinct types, looking up a group's type finds that group. |
| MemoryManager.GroupEventsByTypeSpec | src/core/memory/MemoryManager.js:240-248 | Grouping partitions the events: one group per type that occurs, each holding exactly the events of that type in table order. |
| MemoryManager.NoDupSnoc | src/core/memory/MemoryManager.js:242-243 | Appending a new type keeps the type list duplicate-free. |
| MemoryManager.GroupEventsByTypeAt | src/core/memory/MemoryManager.js:240-248 | Every group is non-empty and holds the events of its type. |
| MemoryManager.SuccessStepOk | src/core/memory/MemoryManager.js:278-290 | One event keeps every profile well formed and the set of users unchanged. |
| MemoryManager.TopicSeenCons | src/core/memory/MemoryManager.js:278-288 | A topic is seen in a batch when it is seen in the first event or in the rest. |
| MemoryManager.SuccessFoldOk | src/core/memory/MemoryManager.js:273-300 | Successful interactions add no user and keep every profile well formed. |
| MemoryManager.SuccessFoldCount | src/core/memory/MemoryManager.js:279-281 | A stored user's count of successful interactions goes up once per event of theirs. |
| MemoryManager.SuccessFoldTopics | src/core/memory/MemoryManager.js:284-287 | A stored user's preferred topics gain exactly the topics their events name, without duplicates. |
| MemoryManager.FailureStepOk | src/core/memory/MemoryManager.js:308-320 | One failure event keeps every profile well formed and the set of users unchanged. |
| MemoryManager.AreaSeenCons | src/core/memory/MemoryManager.js:308-318 | An area is seen in a batch when it is seen in the first event or in the rest. |
| MemoryManager.FailureFoldOk | src/core/memory/MemoryManager.js:302-330 | Failed interactions add no user and keep every profile well formed. |
| MemoryManager.FailureFoldLists | src/core/memory/MemoryManager.js:312-318 | A stored user's problematic topics and improvement areas gain exactly what their events name. |
| MemoryManager.SkillKeysSnoc | src/core/memory/MemoryManager.js:337-344 | A skill key is counted for an event exactly when it has both a user id and a skill name. |
| MemoryManager.CountSkillUsage | src/core/memory/MemoryManager.js:335-345 | The counting loop builds the counter of the `${userId}_${skillName}` keys, in event order. |
| MemoryManager.BeforeSep | src/core/memory/MemoryManager.js:349 | The first field of `split('_')` contains no '_' and is a prefix of the key. |
| MemoryManager.SepOf | src/core/memory/MemoryManager.js:349 | Splitting `a_b`, where `a` has no '_', gives back `a` and `b`. |
| MemoryManager.SplitKeyRoundTrip | src/core/memory/MemoryManager.js:339-349 | A key built from a user id and a skill name without '_' splits back into the two. |
| MemoryManager.BeforeSepWhole | src/core/memory/MemoryManager.js:349 | A text without '_' is its own first field. |
| MemoryManager.SplitKeyTruncates | src/core/memory/MemoryManager.js:349 | A skill name with '_' is truncated: 'fluxo_caixa' is filed as 'fluxo'. |
| MemoryManager.SkillStepOk | src/core/memory/MemoryManager.js:348-356 | One counter entry keeps every profile well formed, so common tasks stay duplicate-free. |
| MemoryManager.SkillFoldOk | src/core/memory/MemoryManager.js:348-356 | The whole counter walk adds no user and keeps every profile well formed. |
| MemoryManager.SkillFoldKeeps | src/core/memory/MemoryManager.js:353-354 | Common tasks are never removed. |
| MemoryManager.SkillFoldAdds | src/core/memory/MemoryManager.js:348-355 | Every entry counted at least 3 times whose user is stored ends up among the user's common tasks. |
| MemoryManager.SkillUsageSpec | src/core/memory/MemoryManager.js:332-366 | A stored user who used a skill at least 3 times in the batch has it among their common tasks afterwards; both names are without '_'. |
| MemoryManager.RunGroupsOk | src/core/memory/MemoryManager.js:220-222 | Running the groups keeps every profile well formed and the set of users unchanged. |
| MemoryManager.GroupEffectOk | src/core/memory/MemoryManager.js:250-267 | Every handler keeps every profile well formed and the set of users unchanged. |
| MemoryManager.RunGroupsAborts | src/core/memory/MemoryManager.js:250-260 | The run ends early exactly when there is a 'user_feedback' group, whose handler is not defined. |
| MemoryManager.MarkAll | src/core/memory/MemoryManager.js:225-228 | Every event ends up processed. Events already processed are untouched; the others are stamped `now`. The keys and their order stay. |
| MemoryManager.PendingInGroups | src/core/memory/MemoryManager.js:211-217 | Every pending event's type gets a group. |
| MemoryManager.GroupsFromPending | src/core/memory/MemoryManager.js:211-217 | Every group type is the type of some pending event: already-processed events form no groups. |
| MemoryManager.ProcessedStateOk | src/core/memory/MemoryManager.js:209-238 | Processing adds no user, keeps profiles well formed and keeps the event keys. |
| MemoryManager.ProcessedStateMarks | src/core/memory/MemoryManager.js:209-238 | Without a pending 'user_feedback' event, every event ends up processed. Those already processed are untouched; the others are stamped `now`. |
| MemoryManager.ProcessedStateStuck | src/core/memory/MemoryManager.js:209-238 | A pending 'user_feedback' event makes every run throw before marking, so the table stays as it was and the next run throws again. |
| MemoryManager.KeepAfter | src/core/memory/MemoryManager.js:552-554 | Keeps exactly the turns strictly newer than the cutoff, and so keeps a history well formed. |
| MemoryManager.KeepAfterWhole | src/core/memory/MemoryManager.js:556 | A filter that drops nothing returns its input, so the map is not set. |
| MemoryManager.ForgetEvents | src/core/memory/MemoryManager.js:543-548 | Keeps exactly the events whose timestamp is not older than the cutoff, unchanged. |
| MemoryManager.ForgetTurns | src/core/memory/MemoryManager.js:551-560 | Every history keeps only its turns strictly newer than the cutoff. No user is added or dropped. |
| MemoryManager.SumTurnsBound | src/core/memory/MemoryManager.js:624-625 | The turn count over well-formed histories is at most 50 per user. |
| MemoryManager.HalvedScore | src/core/memory/MemoryManager.js:612-614 | The new score is the midpoint of the old score and the rating, and so lies between them. |
| MemoryManager.HalvedScoreInRange | src/core/memory/MemoryManager.js:612-614 | A score in [0, 5] stays in [0.5, 5] when a 1-5 rating arrives. |
| MemoryManager.ContextFrom | src/core/memory/MemoryManager.js:496-514 | The context lists one topic per recent turn and copies the profile's role, department, expertise, tasks, style, last interaction, topics and areas. |
| MemoryManager.AfterRecordHolds | src/core/memory/MemoryManager.js:179-207 | A recorded event stays under its key, pending or stamped processed at `now`. Below five events the profiles are untouched. |
| MemoryManager.ScannedStart | src/core/memory/MemoryManager.js:543 | The cleanup scan starts with the whole table unvisited. |
| MemoryManager.ScannedKeep | src/core/memory/MemoryManager.js:543-548 | A kept event moves from the unvisited part to the kept part. |
| MemoryManager.KeepKeys | src/core/memory/MemoryManager.js:543-548 | The key order after keeping one event. |
| MemoryManager.ScannedRemove | src/core/memory/MemoryManager.js:544-546 | Deleting an old event during iteration keeps the scan's state. |
| MemoryManager.ScannedRemoveKeys | src/core/memory/MemoryManager.js:545 | The key order after deleting the visited key. |
| MemoryManager.ScannedAll | src/core/memory/MemoryManager.js:543-548 | At the end of the scan, the table is the table without the old events. |
| MemoryManager.DeleteOldEvents | src/core/memory/MemoryManager.js:543-548 | The loop that deletes entries while iterating leaves exactly the events that are not older than the cutoff. |
| MemoryManager.FilterOldTurns | src/core/memory/MemoryManager.js:551-560 | The loop that sets each shortened history in place gives every history its newer turns only. |
| MemoryManager.FilteredSet | src/core/memory/MemoryManager.js:556-557 | Setting a filtered history advances the loop's state. |
| MemoryManager.FilteredSame | src/core/memory/MemoryManager.js:556 | Skipping a history the filter left whole advances the loop's state. |
| MemoryManager.ForgottenTurnsOk | src/core/memory/MemoryManager.js:551-560 | Forgetting old turns keeps every history well formed. |
| MemoryManager.ForgottenTurns | src/core/memory/MemoryManager.js:551-560 | Each history filtered in place is the filtered table. |
| MemoryManager.MeshMemoryManager.constructor | src/core/memory/MemoryManager.js:9-24 | All three tables start empty. |
| MemoryManager.MeshMemoryManager.GetConversationHistory | src/core/memory/MemoryManager.js:91-104 | An unknown user gets []. A positive limit gives the last min(limit, n) turns, 0 gives all n, and a negative limit drops -limit turns from the front. Each entry carries the timestamp, both texts and the channel of its turn, in stored order. |
| MemoryManager.MeshMemoryManager.GetUserProfile | src/core/memory/MemoryManager.js:171-173 | The stored profile, or a fresh default for an unknown user; the default is not stored. |
| MemoryManager.MeshMemoryManager.UpdateUserProfile | src/core/memory/MemoryManager.js:110-130 | Creates the profile if missing, assigns the updates, stamps it and re-analyses it against the last 20 turns. Only that user's profile changes. |
| MemoryManager.MeshMemoryManager.SaveConversation | src/core/memory/MemoryManager.js:45-89 | The user's history becomes the capped append of the new turn. The user's profile, created if missing, gets the activity assigned, the stamp `now`, and its style and frequent questions re-analysed against the new history; total interactions equal the new history length. No other user changes. |
| MemoryManager.MeshMemoryManager.LearnFromSuccessfulInteractions | src/core/memory/MemoryManager.js:273-300 | The profiles become the fold of the success events. Nothing else changes. |
| MemoryManager.MeshMemoryManager.LearnFromFailedInteractions | src/core/memory/MemoryManager.js:302-330 | The profiles become the fold of the failure events. Nothing else changes. |
| MemoryManager.MeshMemoryManager.LearnFromSkillUsage | src/core/memory/MemoryManager.js:332-366 | The profiles become the walk of the skill-usage counter. Nothing else changes. |
| MemoryManager.MeshMemoryManager.ProcessEventGroup | src/core/memory/MemoryManager.js:250-267 | Dispatches on the type. It throws exactly for 'user_feedback'. |
| MemoryManager.MeshMemoryManager.ProcessLearningData | src/core/memory/MemoryManager.js:209-238 | The profiles and the table become their processed state. The histories are untouched. |
| MemoryManager.MeshMemoryManager.RecordLearningEvent | src/core/memory/MemoryManager.js:179-207 | Files the event under its key, then processes once five events are held. |
| MemoryManager.MeshMemoryManager.RecordSuccessfulInteraction | src/core/memory/MemoryManager.js:578-584 | Records a 'successful_interaction' event with the topic. |
| MemoryManager.MeshMemoryManager.RecordFailedInteraction | src/core/memory/MemoryManager.js:586-593 | Records a 'failed_interaction' event with the topic and no improvement area. |
| MemoryManager.MeshMemoryManager.RecordSkillUsage | src/core/memory/MemoryManager.js:595-602 | Records a 'skill_usage' event with the skill name. |
| MemoryManager.MeshMemoryManager.RecordUserFeedback | src/core/memory/MemoryManager.js:604-615 | Records the event. A stored profile's score then moves halfway to the rating; the change to an unknown user's default profile is lost. |
| MemoryManager.MeshMemoryManager.CleanupOldMemories | src/core/memory/MemoryManager.js:537-572 | Deletes the events older than one week, keeps only turns strictly newer than one week, and leaves the profiles alone. |
| MemoryManager.MeshMemoryManager.GetMemoryStats | src/core/memory/MemoryManager.js:621-630 | Gives the user and event counts and the total turns, which are at most 50 per user. |
| MemoryManager.MeshMemoryManager.GetContextForResponse | src/core/memory/MemoryManager.js:491-519 | One topic per turn of the last five, in order. The role, department, expertise, preferred style, common tasks, last interaction, preferred topics, problematic topics and improvement areas are the profile's. |
| Learning.Matches | src/core/learning/LearningEngine.js:161-172 | The count of messages matching a word list is at most the number of messages. |
| Learning.MatchesExtremes | src/core/learning/LearningEngine.js:161-172 | The count is zero exactly when no message matches, and equal to the number of messages exactly when every message matches. |
| Learning.MatchingOther | src/core/learning/LearningEngine.js:62-66 | Only bucket names are counted for a message. |
| Learning.MatchingOnce | src/core/learning/LearningEngine.js:62-66 | A message counts once for each bucket it matches and not for the others. |
| Learning.HitsCount | src/core/learning/LearningEngine.js:58-69 | A bucket's count is the number of user messages matching it. |
| Learning.HitsOther | src/core/learning/LearningEngine.js:58-69 | Names that are no bucket's are never counted. |
| Learning.HitsSnoc | src/core/learning/LearningEngine.js:58-69 | The hits of one more message extend the hits of the messages before. |
| Learning.CountMessage | src/core/learning/LearningEngine.js:62-66 | One message bumps each bucket it matches, in table order. |
| Learning.CountBuckets | src/core/learning/LearningEngine.js:58-69 | The nested loops count exactly the hits of the user messages. |
| Learning.CountConversation | src/core/learning/LearningEngine.js:59-68 | The inner loop counts the hits of the conversation's user messages. |
| Learning.CountStep | src/core/learning/LearningEngine.js:62-66 | One step of the inner loop extends the counter. |
| Learning.Names | src/core/learning/LearningEngine.js:50-56 | The bucket names in table order. |
| Learning.WordsOfIndex | src/core/learning/LearningEngine.js:50-56 | With distinct names, a bucket's name finds its words. |
| Learning.RankedBuckets | src/core/learning/LearningEngine.js:71-72 | The ranking lists each matched bucket exactly once, with its number of matching messages, by falling count. |
| Learning.TopRanked | src/core/learning/LearningEngine.js:71-73 | The first `n` entries are at most `n`, by falling count, each a matched bucket with its count. |
| Learning.TopRankedCutoff | src/core/learning/LearningEngine.js:71-73 | A matched bucket left out has no more matches than the last entry kept, and then `n` are kept. |
| Learning.RankCutoff | src/core/learning/LearningEngine.js:71-73 | An entry beyond the first `n` of a sorted counter counts no more than the `n`-th. |
| Learning.TakeRanking | src/core/learning/LearningEngine.js:73 | A prefix of a ranking is a ranking. |
| Learning.TakeCutoff | src/core/learning/LearningEngine.js:73 | An entry beyond the first `n` counts no more than the last of them. |
| Learning.Frequency | src/core/learning/LearningEngine.js:74 | The frequency is the count per conversation. |
| Learning.ExtractTopicPatterns | src/core/learning/LearningEngine.js:48-75 | The method computes the five most frequent topics. |
| Learning.TopicNamesDistinct | src/core/learning/LearningEngine.js:50-56 | The topic table has distinct names. |
| Learning.TopicPatternsShape | src/core/learning/LearningEngine.js:71-74 | The patterns pair up with the first five ranked entries. |
| Learning.NoConversations | src/core/learning/LearningEngine.js:58-72 | No conversations, no ranking. |
| Learning.TopicPatternsSpec | src/core/learning/LearningEngine.js:48-75 | At most five topics, each from the table and listed once, by falling count. Each count is the number of user messages naming the topic, and each frequency is count per conversation. |
| Learning.TopicPatternsCutoff | src/core/learning/LearningEngine.js:71-73 | A matched topic missing from the result has no more matches than the fifth, and then there are five. |
| Learning.AnalyzeCommonProblems | src/core/learning/LearningEngine.js:151-177 | The method computes the problem patterns. |
| Learning.ProblemNamesDistinct | src/core/learning/LearningEngine.js:153-159 | The problem table has distinct names. |
| Learning.ProblemPatternsShape | src/core/learning/LearningEngine.js:174-176 | The patterns are the ranked entries. |
| Learning.ProblemPatternsSpec | src/core/learning/LearningEngine.js:151-177 | Each problem type from the table is listed once, with its number of matching user messages, by falling count. |
| Learning.ProblemPatternsComplete | src/core/learning/LearningEngine.js:151-177 | Every problem type that some user message matches is listed. |
| Learning.RankedComplete | src/core/learning/LearningEngine.js:174-175 | Every matched bucket has a row in the ranking. |
| Learning.Questions | src/core/learning/LearningEngine.js:128 | At most all messages are questions. |
| Learning.Ratio | src/core/learning/LearningEngine.js:137-139 | The ratio is 0 without messages. Otherwise it is the exact fraction of the message count, in [0, 1]. |
| Learning.DetermineStyle | src/core/learning/LearningEngine.js:144-149 | A four-way split on `avgLength > 200` and `formality > 0.3`, both false on NaN. |
| Learning.RoundedAverage | src/core/learning/LearningEngine.js:136 | `Math.round` of the average is the nearest integer, halves rounding up. |
| Learning.CountsOf | src/core/learning/LearningEngine.js:122-133 | The counters hold the message count and count no more than all messages. |
| Learning.CountStyle | src/core/learning/LearningEngine.js:123-132 | The inner loop updates the five counters for the conversation's user messages. |
| Learning.MessageContentsSnoc | src/core/learning/LearningEngine.js:124 | Only 'user' messages are counted. |
| Learning.CountedStep | src/core/learning/LearningEngine.js:125-130 | One more message updates each counter by its own test. |
| Learning.AnalyzeCommunicationStyle | src/core/learning/LearningEngine.js:115-142 | The method computes the style figures of the user messages. |
| Learning.CountersSnoc | src/core/learning/LearningEngine.js:125-130 | Each counter over one more message. |
| Learning.StyleOfNothing | src/core/learning/LearningEngine.js:135-141 | With no user messages every figure is 0 and the style is 'casual_concise'. |
| Learning.StyleFromMessages | src/core/learning/LearningEngine.js:134-141 | With messages, the ratios are exact fractions of the count in [0, 1] and the average is rounded. Without division, the style tests are more than 200 characters per message and more than 3 formal messages in 10. |
| Learning.StyleRatios | src/core/learning/LearningEngine.js:137-139 | The three ratios are fractions of the message count. |
| Learning.StyleAverage | src/core/learning/LearningEngine.js:136 | The average length is rounded. |
| Learning.RatioOf | src/core/learning/LearningEngine.js:137-139 | That ratio is a fraction in [0, 1]. |
| Learning.AverageOf | src/core/learning/LearningEngine.js:136 | That average is rounded to the nearest integer. |
| Learning.StyleNaming | src/core/learning/LearningEngine.js:140 | The two tests decide the style's name. |
| Learning.StyleTests | src/core/learning/LearningEngine.js:144-149 | Each test decides one half of the style's name. |
| Learning.LongMessages | src/core/learning/LearningEngine.js:140-145 | More than 200 characters per message, without division. |
| Learning.FormalMessages | src/core/learning/LearningEngine.js:140-145 | More than 3 formal messages in 10, without division. |
| Learning.FirstUsageSpec | src/core/learning/LearningEngine.js:636-643 | The result names the first conversation that used the skill, and is absent exactly when none did. |
| Learning.FindLastSkillUsage | src/core/learning/LearningEngine.js:636-643 | The loop returns at the first conversation that used the skill, despite its name. |
| Learning.SumCountsBound | src/core/learning/LearningEngine.js:79 | Each count is at most the total. |
| Learning.Preference | src/core/learning/LearningEngine.js:85 | `count / total`, 0 for a zero total, and in [0, 1]. |
| Learning.PreferenceEntries | src/core/learning/LearningEngine.js:81-87 | One entry per skill, with its share and first use. |
| Learning.AnalyzeSkillPreferencesSpec | src/core/learning/LearningEngine.js:77-89 | The result is a permutation of the entries, sorted by falling share and so by falling count. Each share is the skill's part of the total. |
| Learning.PreferenceMonotone | src/core/learning/LearningEngine.js:85 | A larger count has a strictly larger share. |
| Learning.TopicRecommendationsSkills | src/core/learning/LearningEngine.js:216-238 | Cash flow is recommended exactly when a topic is cash flow above 30%; reconciliation exactly when one is reconciliation above 20%. |
| Learning.HasSkillConcat | src/core/learning/LearningEngine.js:216-252 | Skill membership of a concatenation. |
| Learning.LastTopic | src/core/learning/LearningEngine.js:217-237 | Existence over a list split at its last element. |
| Learning.TopicRecommendationSkill | src/core/learning/LearningEngine.js:218-236 | One topic recommends a skill exactly past its threshold. |
| Learning.RecommendSkillsSpec | src/core/learning/LearningEngine.js:212-255 | The output is the candidates permuted and sorted by falling confidence, and each skill appears exactly under its condition. |
| Learning.HasSkillSorted | src/core/learning/LearningEngine.js:254 | Sorting keeps which skills are recommended. |
| Learning.ContextRecommendationsSkills | src/core/learning/LearningEngine.js:241-252 | The current message recommends exactly the report skill when it asks for a report. |
| Learning.TopicRecommendationsNames | src/core/learning/LearningEngine.js:216-238 | Topics recommend only cash flow and reconciliation. |
| Learning.RecommendResponseStyle | src/core/learning/LearningEngine.js:257-293 | Exactly one recommendation: formal for 'formal_detailed', casual for 'casual_concise' or a missing style, professional otherwise. |
| Learning.CategorizeFeedback | src/core/learning/LearningEngine.js:408-420 | Positive words win over negative ones, negative over neutral, and otherwise 'unknown'; each case is stated both ways. |
| Learning.CategorizePrecedence | src/core/learning/LearningEngine.js:408-420 | "ótimo, muito bom" and "nada bom, deu erro" are positive. |
| Learning.CategorizeNegative | src/core/learning/LearningEngine.js:408-420 | "deu erro" is negative. |
| Learning.ErrorReportNegative | src/core/learning/LearningEngine.js:410-416 | "deu erro" contains a negative word. |
| Learning.ErrorReportNotPositive | src/core/learning/LearningEngine.js:409-415 | "deu erro" contains no positive word. |
| Learning.SatisfactionScoreSpec | src/core/learning/LearningEngine.js:422-426 | 1 for positive, 0.5 for neutral and 0.3 for both negative and unknown, because 0 is falsy. The score is never 0. |
| Learning.UpdatedScoreRange | src/core/learning/LearningEngine.js:381-385 | A score in [0, 1] stays in [0, 1] for any count. |
| Learning.RunningScoreIsMean | src/core/learning/LearningEngine.js:381-392 | One update per feedback, starting from a fresh profile, gives the mean of all the scores. |
| Learning.CalculateConfidence | src/core/learning/LearningEngine.js:645-651 | The value is one of 0.1, 0.3, 0.5, 0.7 and 0.9. |
| Learning.ConfidenceMonotone | src/core/learning/LearningEngine.js:645-651 | A larger sample never lowers the confidence. |
| Learning.Scores | src/core/learning/LearningEngine.js:673 | One score per feedback. |
| Learning.SatisfactionTrendSpec | src/core/learning/LearningEngine.js:668-699 | Fewer than 3 feedbacks is 'unknown' and exactly 3 is 'stable'. Beyond that, 'improving' or 'declining' exactly when the means differ by more than 0.1. |
| Learning.GenerateFeedbackInsights | src/core/learning/LearningEngine.js:428-465 | One immediate insight exactly for negative or positive feedback. One trend insight exactly with at least 3 recent feedbacks, carrying their trend. |
| Learning.ImmediateInsights | src/core/learning/LearningEngine.js:436-450 | One insight exactly for negative or positive feedback. |
| Learning.LongTermInsights | src/core/learning/LearningEngine.js:453-462 | A trend insight exactly with 3 feedbacks. |
| Learning.LearningEngine.constructor | src/core/learning/LearningEngine.js:7-12 | The engine holds the memory manager. |
| Learning.LearningEngine.ProcessFeedback | src/core/learning/LearningEngine.js:363-406 | Records the feedback event, then stores the user's profile with the score folded into the running mean, the count plus 1, the feedback record as `lastFeedback`, the stamp `now` and the patterns re-analysed; only that user changes. The insights come from the category, with no trend because the recent-feedback source is empty. |
| Learning.LearningEngine.StoreFeedback | src/core/learning/LearningEngine.js:380-394 | The profile half of `processFeedback`: the user's entry becomes the re-analysed profile with the updated score, count and `lastFeedback` and the stamp `now`; no other entry changes. |
| Learning.FeedbackApplied | src/core/learning/LearningEngine.js:385-394 | Re-analysing the patterns after the update leaves the new score, count, last feedback and stamp in place. |
| Learning.FeedbackRecordOf | src/core/learning/LearningEngine.js:365-371 | The record holds the user, the text, the clock and the category of the feedback. |
| BaseSkill.Create | src/skills/BaseSkill.js:5-17 | Stores the name and description, with config `{}` by default. `canHandle` and `execute` always reject. |
| BaseSkill.Validate | src/skills/BaseSkill.js:19-21 | Always `{valid: true, errors: []}`. |
| FluxoCaixaSkill.Execute | src/skills/financial/FluxoCaixaSkill.js:16-31 | Succeeds, tagged 'fluxo_caixa', with the period, inflow, outflow and balance lines. |
| FluxoCaixaSkill.Skill | src/skills/financial/FluxoCaixaSkill.js:5-32 | Named 'fluxo_caixa'. Both behaviours ignore the context and parameters and never reject. |
| FluxoCaixaSkill.CanHandleIff | src/skills/financial/FluxoCaixaSkill.js:9-14 | Claims exactly when the lower-cased intent contains 'fluxo', 'caixa', 'cash flow' or 'relatório'. |
| FluxoCaixaSkill.CaseInsensitive | src/skills/financial/FluxoCaixaSkill.js:10 | A message and its lower-cased form are claimed alike. |
| FluxoCaixaSkill.ClaimsKeyword | src/skills/financial/FluxoCaixaSkill.js:9-14 | A keyword anywhere is claimed, so every report request is claimed. |
| FluxoCaixaSkill.ClaimsCashFlowRequest | src/skills/financial/FluxoCaixaSkill.js:9-14 | "Preciso do fluxo de caixa de dezembro" is claimed. |
| FluxoCaixaSkill.EmptyNotClaimed | src/skills/financial/FluxoCaixaSkill.js:9-14 | The empty intent is not claimed. |
| ConciliacaoSkill.Execute | src/skills/financial/ConciliacaoSkill.js:16-30 | Succeeds, tagged 'conciliacao', with the status, 3 discrepancies and the total. |
| ConciliacaoSkill.Skill | src/skills/financial/ConciliacaoSkill.js:5-31 | Named 'conciliacao'. Both behaviours ignore the context and parameters and never reject. |
| ConciliacaoSkill.CanHandleIff | src/skills/financial/ConciliacaoSkill.js:9-14 | Claims exactly when the lower-cased intent contains 'conciliação', 'conciliacao', 'banco' or 'bancária'. |
| ConciliacaoSkill.CaseInsensitive | src/skills/financial/ConciliacaoSkill.js:10 | A message and its lower-cased form are claimed alike. |
| ConciliacaoSkill.ClaimsKeyword | src/skills/financial/ConciliacaoSkill.js:9-14 | A keyword anywhere is claimed. |
| ConciliacaoSkill.EmptyNotClaimed | src/skills/financial/ConciliacaoSkill.js:9-14 | The empty intent is not claimed. |
| BaseBot.UserIdOf | src/core/bot/BaseBot.js:34 | The sender's id when present and non-empty, and exactly 'unknown' otherwise. |
| BaseBot.WelcomeText | src/core/bot/BaseBot.js:66-68 | "Bem-vindo, " + name + "!", with 'usuário' for a missing or empty name. The name can be read back from the text. |
| BaseBot.Bot.constructor | src/core/bot/BaseBot.js:7-14 | No skills, no service, no memory manager. |
| BaseBot.Bot.RegisterSkill | src/core/bot/BaseBot.js:83-86 | `skills.set(name, skill)`; nothing else changes. |
| BaseBot.Bot.SetLlmService | src/core/bot/BaseBot.js:88-91 | Sets the service; nothing else changes. |
| BaseBot.Bot.SetMemoryManager | src/core/bot/BaseBot.js:93-96 | Sets the manager; nothing else changes. |
| BaseBot.Bot.SaveToMemory | src/core/bot/BaseBot.js:70-81 | Hands the exchange over only when a manager is attached. |
| BaseBot.Bot.ProcessMessage | src/core/bot/BaseBot.js:32-64 | The loop's reply is the dispatch function of the skills in registration order. Memory gets the exchange exactly when a skill or the service answered. |
| BaseBot.RouteFromSpec | src/core/bot/BaseBot.js:37-48 | The loop stops at a skill that claims and answers, or at one whose `canHandle` throws, with every skill before it passing the message on. It reports no skill exactly when every skill passes it on. |
| BaseBot.PassThrough | src/core/bot/BaseBot.js:37-48 | Skills that pass the message on are stepped over. |
| BaseBot.FirstMatchWins | src/core/bot/BaseBot.js:37-43 | Skill `i` answers when it claims and answers and every earlier skill passed the message on, whatever the later skills would do. |
| BaseBot.SkillAnswerSkipsService | src/core/bot/BaseBot.js:37-43 | A skill's answer is the reply whatever service is attached. |
| BaseBot.ServiceOrGreeting | src/core/bot/BaseBot.js:51-63 | With no skill answering, the service's reply is sent and saved. With no service, or one that throws, the default greeting is sent and nothing is saved. |
| BaseBot.AbstractSkillAborts | src/core/bot/BaseBot.js:37-38 | A bare base skill throws from `canHandle` outside the `try`, so nothing is sent. |
| BaseBot.EmptyTextDispatched | src/core/bot/BaseBot.js:33 | Missing or all-blank text becomes "" and is dispatched like any text. |
| BaseBot.RegisterNewGoesLast | src/core/bot/BaseBot.js:83-86 | A new name is dispatched last. |
| BaseBot.RegisterExistingKeepsPosition | src/core/bot/BaseBot.js:83-86 | Re-registering a name replaces that skill in its original position; the others are unchanged. |
| BaseBot.CashFlowClaimsFirst | src/core/bot/BaseBot.js:37-43 | With the cash-flow skill first, anything it claims gets its report. |
| BaseBot.ReportRequestGoesToCashFlow | src/core/bot/BaseBot.js:37-43 | Any message naming 'relatório' gets the cash-flow report. |
| BaseBot.ReconciliationAnswersSecond | src/core/bot/BaseBot.js:37-43 | A message the cash-flow skill declines and the reconciliation skill claims gets the reconciliation status. |
| BaseBot.ReconciliationRoute | src/core/bot/BaseBot.js:37-43 | Such a message is answered by the second skill. |
| Llm.StripTrailingSlash | src/core/services/llm/llm.js:86 | At most one trailing '/' is removed. |
| Llm.AzureRequest | src/core/services/llm/llm.js:86-101 | The Azure URL, the `api-key` header and the two-message conversation. |
| Llm.OpenAiRequest | src/core/services/llm/llm.js:118-130 | The OpenAI URL, the model and the bearer header. |
| Llm.ProviderResult | src/core/services/llm/llm.js:104-111 | Trimmed content exactly when the call completed with content; otherwise nothing. |
| Llm.SimpleFallback | src/core/services/llm/llm.js:149-169 | One of five non-empty replies, in the order cash flow (both words), reconciliation, report, help, default; each case is stated both ways. |
| Llm.FallbackRepliesDistinct | src/core/services/llm/llm.js:149-169 | The five replies differ from each other and from "". |
| Llm.AzureResult | src/core/services/llm/llm.js:63 | Nothing unless the endpoint and the key are set. |
| Llm.OpenAiResult | src/core/services/llm/llm.js:69 | Nothing unless the key is set. |
| Llm.MinimalNaturalLlm.constructor | src/core/services/llm/llm.js:8-23 | Records whether `fetch` exists; not yet initialized. |
| Llm.MinimalNaturalLlm.Initialize | src/core/services/llm/llm.js:25-28 | Sets the initialized flag. |
| Llm.MinimalNaturalLlm.ProcessMessage | src/core/services/llm/llm.js:52-80 | Never fails, the reply is non-empty, and the requests sent are listed. Blank text gets the greeting with no request; without fetch the fallback answers. Otherwise usable Azure content wins, then OpenAI content, then the fallback. |
| Llm.MinimalNaturalLlm.TryProviders | src/core/services/llm/llm.js:61-74 | Azure, then OpenAI, then the keyword fallback, listing the requests sent. |
| Llm.AzureUrlTrailingSlash | src/core/services/llm/llm.js:86 | An endpoint with or without one trailing '/' gives the same URL. A second slash is kept. |
| Llm.AzureUrlVersion | src/core/services/llm/llm.js:86 | The URL ends in the API version, '2024-06-01' unless configured. |
| Llm.ProviderContentTrimmed | src/core/services/llm/llm.js:104-107 | Content is accepted exactly when it is not all blank, and is then trimmed. |
| Llm.FallbackCaseInsensitive | src/core/services/llm/llm.js:150 | The fallback ignores case. |
| MeshBot.Pick | src/bots/mesh/MeshBot.js:107-111 | The random pick is always one of the options. |
| MeshBot.GenerateGreetingResponse | src/bots/mesh/MeshBot.js:105-112 | One of the three greetings. |
| MeshBot.GenerateDefaultResponse | src/bots/mesh/MeshBot.js:134-141 | One of the three default replies. |
| MeshBot.GenerateFinancialResponse | src/bots/mesh/MeshBot.js:114-128 | Cash flow when both words occur, then reconciliation, then report, then a generic reply; each case is stated both ways. |
| MeshBot.RepliesDistinct | src/bots/mesh/MeshBot.js:105-141 | The replies of different classes have different texts. |
| MeshBot.ClassesDisjoint | src/bots/mesh/MeshBot.js:105-141 | No reply belongs to two classes. |
| MeshBot.GenerateNaturalResponse | src/bots/mesh/MeshBot.js:68-86 | Greeting, then financial topic, then question, then default; the reply shows the class, stated both ways. |
| MeshBot.ProcessNaturalMessage | src/bots/mesh/MeshBot.js:50-66 | Missing or blank text gets "Oi! Em que posso ajudar?" without classification; other text is classified after trimming. |
| MeshBot.NaturalResponseNotBlank | src/bots/mesh/MeshBot.js:68-86 | No classified reply equals the blank-message reply. |
| MeshBot.WelcomeMessage | src/bots/mesh/MeshBot.js:143-148 | "Oi ", then the name ('colega' when the name is empty), then the fixed introduction, so the name can be read back from its position. |
| MeshBot.GreetingShadowsFinance | src/bots/mesh/MeshBot.js:88-91 | Any text containing 'oi' or 'hi' is a greeting, even when it is financial. |
| MeshBot.FinanceBeforeQuestion | src/bots/mesh/MeshBot.js:72-80 | A financial question that is not a greeting gets the financial reply. |
| MeshBot.NaturalResponseCaseInsensitive | src/bots/mesh/MeshBot.js:69 | Lower-casing first changes nothing. |
| MeshBot.ComoIsQuestion | src/bots/mesh/MeshBot.js:101-103 | Text starting with 'como' is a question. |
| MeshPersona.DetectContext | src/bots/mesh/personality/meshPersona.js:58-82 | One of three contexts, each with a response context. Financial keywords win over process keywords; each case is stated both ways. |
| MeshPersona.GenerateContext | src/bots/mesh/personality/meshPersona.js:84-92 | The identity and expertise unchanged, plus the response context of the detected context. |
| MeshPersona.EmptyIsGeneralHelp | src/bots/mesh/personality/meshPersona.js:84-86 | An empty or missing message gives 'general_help'. |
| MeshPersona.DetectContextCaseInsensitive | src/bots/mesh/personality/meshPersona.js:59 | Matching ignores case. |
| MeshPersona.FinancialOverProcess | src/bots/mesh/personality/meshPersona.js:79-81 | Any text with a financial keyword is financial, whatever process words it has. |
| ResponseFormatter.ReplaceNoMatch | src/bots/mesh/personality/responseFormatter.js:32 | A text without a match is unchanged. |
| ResponseFormatter.ReplaceShrinks | src/bots/mesh/personality/responseFormatter.js:32 | A replacement no longer than its pattern never lengthens the text. |
| ResponseFormatter.ReplaceWhole | src/bots/mesh/personality/responseFormatter.js:32 | A text that matches the pattern in any case becomes the replacement. |
| ResponseFormatter.NoMatchWithout | src/bots/mesh/personality/responseFormatter.js:32 | A text that lacks one of the pattern's letters has no match. |
| ResponseFormatter.AdjustFormality | src/bots/mesh/personality/responseFormatter.js:21-37 | The loop over the table, then trim: never longer than the input, with no blank at either end. |
| ResponseFormatter.ApplyRulesShrinks | src/bots/mesh/personality/responseFormatter.js:31-34 | The rules never lengthen the text. |
| ResponseFormatter.ApplyRulesNoMatch | src/bots/mesh/personality/responseFormatter.js:31-34 | Rules that do not match change nothing. |
| ResponseFormatter.AdjustedShape | src/bots/mesh/personality/responseFormatter.js:21-37 | Never longer than the input, with no blank at either end. |
| ResponseFormatter.InformalOnlyTrimmed | src/bots/mesh/personality/responseFormatter.js:21-37 | A text without formal phrases is only trimmed. |
| ResponseFormatter.PrezadoLiteralKept | src/bots/mesh/personality/responseFormatter.js:23-32 | 'Prezado(a)' is compiled with a group, so it matches 'prezadoa'; the literal 'Prezado(a)' is kept. |
| ResponseFormatter.SkipRule | src/bots/mesh/personality/responseFormatter.js:31-34 | A rule without a match passes the text on. |
| ResponseFormatter.WholeRule | src/bots/mesh/personality/responseFormatter.js:31-34 | A whole-text match passes the replacement on. |
| ResponseFormatter.ClosingRemoved | src/bots/mesh/personality/responseFormatter.js:25-36 | "Atenciosamente" in any case is removed entirely. |
| ResponseFormatter.FirstTwoSkipped | src/bots/mesh/personality/responseFormatter.js:23-24 | A text without 'z' or 'r' passes the first two rules. |
| ResponseFormatter.ClosingTail | src/bots/mesh/personality/responseFormatter.js:25-27 | The closing is removed by the remaining rules. |
| ResponseFormatter.OpeningSimplified | src/bots/mesh/personality/responseFormatter.js:26-36 | "Venho por meio desta" in any case becomes "Informo que". |
| ResponseFormatter.OpeningRewritten | src/bots/mesh/personality/responseFormatter.js:26-34 | The rules rewrite the opening. |
| ResponseFormatter.FirstThreeSkipped | src/bots/mesh/personality/responseFormatter.js:23-25 | A text without 'z' or 'c' passes the first three rules. |
| ResponseFormatter.SkipWithout | src/bots/mesh/personality/responseFormatter.js:31-34 | A text lacking a letter of a pattern passes that rule. |
| ResponseFormatter.AmountRun | src/bots/mesh/personality/responseFormatter.js:43 | The longest run of `[\d.,]` at the start. |
| ResponseFormatter.DigitRun | src/bots/mesh/personality/responseFormatter.js:44 | The longest run of `\d` at the start. |
| ResponseFormatter.MoneyMatch | src/bots/mesh/personality/responseFormatter.js:43 | A match starts with "R$" and is at least 3 long. |
| ResponseFormatter.PercentMatch | src/bots/mesh/personality/responseFormatter.js:44 | A match ends in '%' and is at least 2 long. |
| ResponseFormatter.Truncate | src/bots/mesh/personality/responseFormatter.js:47-49 | At most 4000. A text within the limit is unchanged; a longer one becomes its first 3900 characters plus the marker. |
| ResponseFormatter.FormatForTeams | src/bots/mesh/personality/responseFormatter.js:39-52 | The result is at most 4000 characters; what it bolds is stated by the lemmas below. |
| ResponseFormatter.UnstarredConcat | src/bots/mesh/personality/responseFormatter.js:43-44 | Dropping asterisks distributes over concatenation. |
| ResponseFormatter.StarsVanish | src/bots/mesh/personality/responseFormatter.js:43-44 | "**" vanishes when asterisks are dropped. |
| ResponseFormatter.WrappedUnstarred | src/bots/mesh/personality/responseFormatter.js:43-44 | Wrapping a piece adds only asterisks. |
| ResponseFormatter.WrappedPrefix | src/bots/mesh/personality/responseFormatter.js:43-44 | Wrapping a prefix adds only asterisks. |
| ResponseFormatter.KeptFirst | src/bots/mesh/personality/responseFormatter.js:43-44 | Keeping a character adds nothing. |
| ResponseFormatter.BoldMoneyAddsOnlyStars | src/bots/mesh/personality/responseFormatter.js:43 | Bolding money only inserts asterisks. |
| ResponseFormatter.BoldPercentAddsOnlyStars | src/bots/mesh/personality/responseFormatter.js:44 | Bolding percentages only inserts asterisks. |
| ResponseFormatter.TeamsKeepsText | src/bots/mesh/personality/responseFormatter.js:39-52 | Within the limit, Teams formatting changes nothing but asterisks. |
| ResponseFormatter.MoneyBolded | src/bots/mesh/personality/responseFormatter.js:43 | "R$" with an optional blank and an amount is bolded whole. |
| ResponseFormatter.BoldWholeMatch | src/bots/mesh/personality/responseFormatter.js:43 | A text that is one match is wrapped whole. |
| ResponseFormatter.MoneyMatchWhole | src/bots/mesh/personality/responseFormatter.js:43 | Such a text is one whole match. |
| ResponseFormatter.AmountRunAll | src/bots/mesh/personality/responseFormatter.js:43 | A text of amount characters is one run. |
| ResponseFormatter.NoMoneyUnchanged | src/bots/mesh/personality/responseFormatter.js:43 | A text without '$' is not changed. |
| ResponseFormatter.NoPercentUnchanged | src/bots/mesh/personality/responseFormatter.js:44 | A text without '%' is not changed. |
| ResponseFormatter.MoneyPrefixKept | src/bots/mesh/personality/responseFormatter.js:43 | A text with no 'R' starts no amount: bolding keeps it and goes on with the rest. |
| ResponseFormatter.BoldMoneySkip | src/bots/mesh/personality/responseFormatter.js:43 | A text not starting with 'R' keeps its first character. |
| ResponseFormatter.BoldMoneyTake | src/bots/mesh/personality/responseFormatter.js:43 | A match at the start is wrapped in `**` whole, and bolding goes on after it. |
| ResponseFormatter.AmountRunPrefix | src/bots/mesh/personality/responseFormatter.js:43 | `[\d.,]+` stops at the first character that is not a digit, '.' or ','. |
| ResponseFormatter.MoneyMatchBefore | src/bots/mesh/personality/responseFormatter.js:43 | "R$", an optional blank and an amount match up to the end of the amount. |
| ResponseFormatter.MoneyBoldedBefore | src/bots/mesh/personality/responseFormatter.js:43 | An amount is bolded whole, and bolding goes on after it. |
| ResponseFormatter.MoneyInText | src/bots/mesh/personality/responseFormatter.js:43 | An amount inside a text is bolded, and the text before and after it is kept. |
| ResponseFormatter.PercentPrefixKept | src/bots/mesh/personality/responseFormatter.js:44 | A text with no '%' that does not end in a digit starts no percentage: bolding keeps it and goes on with the rest. |
| ResponseFormatter.NoPercentAt | src/bots/mesh/personality/responseFormatter.js:44 | No percentage starts in such a text, so its first character is kept. |
| ResponseFormatter.DigitRunPrefix | src/bots/mesh/personality/responseFormatter.js:44 | `\d+` stops at the first non-digit. |
| ResponseFormatter.PercentMatchDigits | src/bots/mesh/personality/responseFormatter.js:44 | Digits followed by '%' match up to the sign. |
| ResponseFormatter.BoldPercentTake | src/bots/mesh/personality/responseFormatter.js:44 | A match at the start is wrapped in `**` whole, and bolding goes on after it. |
| ResponseFormatter.PercentBoldedBefore | src/bots/mesh/personality/responseFormatter.js:44 | Digits and '%' are bolded together, and bolding goes on after them. |
| ResponseFormatter.PercentBolded | src/bots/mesh/personality/responseFormatter.js:44 | A percentage on its own becomes `**` digits `%**`. |
| ResponseFormatter.PercentInText | src/bots/mesh/personality/responseFormatter.js:44 | A percentage inside a text is bolded, and the text before and after it is kept. |
| ResponseFormatter.ExampleMoney | src/bots/mesh/personality/responseFormatter.js:43 | In "Saldo R$ 1.000,00 e 15%" the amount is bolded. |
| ResponseFormatter.ExamplePercent | src/bots/mesh/personality/responseFormatter.js:44 | In the result, the percentage is bolded too. |
| ResponseFormatter.TeamsBoldsAmountAndPercentage | src/bots/mesh/personality/responseFormatter.js:39-52 | Teams formatting turns "Saldo R$ 1.000,00 e 15%" into "Saldo **R$ 1.000,00** e **15%**". |
| ResponseFormatter.FormatResponse | src/bots/mesh/personality/responseFormatter.js:7-19 | Formality first, then Teams formatting only when `isTeams`. The length bounds follow. |
| ResponseFormatter.FormatForCurrentSystem | src/bots/mesh/personality/responseFormatter.js:54-61 | A missing context only adjusts formality; a Teams context also formats for Teams. |
| Text.WordInContext | src/skills/financial/FluxoCaixaSkill.js:9-14 | A lower-case word of a keyword list, placed anywhere in a text, makes the lower-cased text contain one of the list's words; both skills' `ClaimsKeyword` use it. |
| Text.TrimSpec | src/core/bot/BaseBot.js:33 | `trim` returns a middle slice with only blanks around it and no blank at either end. |
| Text.TrimEmptyIff | src/core/services/llm/llm.js:53 | A text trims to "" exactly when it is all blank. |
| Text.TrimNoSpaceEnds | src/core/services/llm/llm.js:107 | A text with no blank at either end is its own trimmed form. |
| Ranking.SortDescSpec | src/core/learning/LearningEngine.js:72 | The sort is a permutation ordered by non-increasing key. |
| Ranking.InsertWithKey | src/core/learning/LearningEngine.js:72 | Inserting puts the new element in front of every element with the same key and leaves the order within every other key unchanged. |
| Ranking.SortDescStable | src/core/learning/LearningEngine.js:72 | The sort is stable: for every key value, the elements with that key come out in their input order (`Array.prototype.sort` is stable since ES2019). |
| Ranking.RankedSpec | src/core/memory/MemoryManager.js:462-469 | The counter's entries list each counted key once, with its number of occurrences. |
| OrderedMaps.SetKeepsPosition | src/core/bot/BaseBot.js:85 | `Map.set` on a present key keeps its position. |

## Left out

- **Console and logger output** is not modelled: `logger.*` calls, the debug payloads and `setInterval` scheduling (src/core/memory/MemoryManager.js:34-36).
- **The Bot Framework plumbing** is not modelled:
  - `onMessage` and `onMembersAdded`: the loop over added members and the recipient check;
  - `sendActivity`, which is assumed never to fail.

  As a result, `MeshBot`'s `sendErrorMessage` path is unreachable in this model; its text is only a constant.
- **Dates:** `new Date`, `toISOString` and `Date.now` become `nat` clock values. The ISO metadata fields are left out.
- **The real HTTP bodies of `tryAzure` and `tryOpenAI`.** Their outcome is read from the `Network` parameter. `buildMinimalPrompt` is the fixed two-message conversation.
- **Lower-casing** covers only the ASCII and Latin-1 capitals, and lengths count code points, not UTF-16 units.
- **MemoryManager:** not modelled.
  - `analyzeTimePatterns`, because it uses clock hours;
  - `analyzeSuccessPatterns`, `analyzeFailurePatterns` and `getUserStats`, because they are unused reporting helpers;
  - the `metadata` spread of the turn, because it copies arbitrary fields;
  - the `contextMemory` map, which is never written (its size is 0).
- **LearningEngine:** not modelled.
  - `analyzeUserPatterns`, `generateRecommendations` and `analyzeTimePatterns`;
  - `generateProactiveInsights` and `suggestOptimizations`;
  - `enhanceSkillWithLearning`, `executeEnhancedLocalSkill`, `generateEnhancedFluxoCaixa` and `generateEnhancedConciliacao`;
  - `getTimeContext`.

  They are asynchronous wiring, clock-dependent, or calls to external hooks. `getRecentFeedbacks` is a stub returning `[]`, which the model uses as it is.
- **Learning:** `analyzeSkillPreferences` and `recommendResponseStyle` take the entries of `profile.statistics.skillsUsed` and the detected style directly. `MeshMemoryManager` produces neither, so the integration is not modelled.
- **BaseBot.Bot.SaveToMemory:** memory is an abstract log of exchanges. `BaseBot`'s call to `saveConversation(userId, [..])` does not fit the manager's signature.
- **The skills' `data` strings** are multi-line single-quoted literals, which are not valid JavaScript. They are modelled as the intended text, with line feeds.
- **Feedback context:** the `context` argument of `processFeedback` and the `context` field of its feedback record are not modelled. They are copied but never read.
