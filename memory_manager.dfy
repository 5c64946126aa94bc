/** The MESH memory store (`MeshMemoryManager`): per-user conversation
    histories bounded to the most recent 50 turns, lazily created user
    profiles, a table of learning events that is grouped by type and folded
    into the profiles in batches, time-based cleanup and a halving
    satisfaction update.

    Timestamps are milliseconds since the epoch, passed in as `now`; the ISO
    text of `new Date().toISOString()` is not modelled. An absent optional
    string (`undefined`, `null`) and the empty string are both written "",
    since the code only ever tests them for truthiness. */
module MemoryManager {
  import opened Text
  import opened Results
  import opened OrderedMaps
  import opened Ranking

  const MaxConversationHistory: nat := 50
  const LearningThreshold: nat := 5
  const MemoryCleanupInterval: nat := 24 * 60 * 60 * 1000
  const MaxUserMessage: nat := 1000
  const MaxBotResponse: nat := 2000
  /** `cleanupOldMemories` forgets what is older than seven days. */
  const RetentionWindow: nat := 7 * 24 * 60 * 60 * 1000
  /** `analyzeUserPatterns` looks at the last 20 turns and needs at least 3. */
  const PatternWindow: int := 20
  const MinTurnsForPatterns: nat := 3
  /** `getContextForResponse` looks at the last 5 turns. */
  const ContextWindow: int := 5

  // ---------------------------------------------------------------
  // Conversation turns
  // ---------------------------------------------------------------

  datatype TurnMetadata = TurnMetadata(channel: string, messageLength: nat, responseLength: nat, processingTime: nat)

  datatype Turn = Turn(timestamp: nat, userMessage: string, botResponse: string, metadata: TurnMetadata)

  /** The caller's `metadata` argument; "" and 0 stand for an absent field. */
  datatype SaveMetadata = SaveMetadata(channelId: string, processingTime: nat)

  /** An element of `getConversationHistory`'s result. */
  datatype HistoryEntry = HistoryEntry(timestamp: nat, userMessage: string, botResponse: string, channel: string)

  /** The turn that `saveConversation` pushes. */
  function NewTurn(userMessage: string, botResponse: string, metadata: SaveMetadata, now: nat): (t: Turn)
    ensures t.timestamp == now
    ensures StartsWith(userMessage, t.userMessage) && |t.userMessage| <= MaxUserMessage
    ensures |userMessage| <= MaxUserMessage ==> t.userMessage == userMessage
    ensures |userMessage| > MaxUserMessage ==> |t.userMessage| == MaxUserMessage
    ensures StartsWith(botResponse, t.botResponse) && |t.botResponse| <= MaxBotResponse
    ensures |botResponse| <= MaxBotResponse ==> t.botResponse == botResponse
    ensures |botResponse| > MaxBotResponse ==> |t.botResponse| == MaxBotResponse
    ensures t.metadata.messageLength == |userMessage| && t.metadata.responseLength == |botResponse|
    ensures t.metadata.channel == (if metadata.channelId == "" then "unknown" else metadata.channelId)
    ensures t.metadata.processingTime == metadata.processingTime
  {
    Turn(now, Prefix(userMessage, MaxUserMessage), Prefix(botResponse, MaxBotResponse),
      TurnMetadata(if metadata.channelId != "" then metadata.channelId else "unknown",
        |userMessage|, |botResponse|, metadata.processingTime))
  }

  /** What a stored history keeps: at most 50 turns, each with truncated texts. */
  predicate HistoryOk(h: seq<Turn>)
  {
    && |h| <= MaxConversationHistory
    && (forall i | 0 <= i < |h| :: |h[i].userMessage| <= MaxUserMessage && |h[i].botResponse| <= MaxBotResponse)
  }

  /** `conversation.push(t)` followed by the `splice` that keeps the last 50. */
  function Appended(h: seq<Turn>, t: Turn): (r: seq<Turn>)
    ensures |r| == if |h| + 1 <= MaxConversationHistory then |h| + 1 else MaxConversationHistory
    ensures r == (h + [t])[|h| + 1 - |r|..]
  {
    var c := h + [t];
    if |c| > MaxConversationHistory then c[|c| - MaxConversationHistory..] else c
  }

  /** Appending a turn with truncated texts keeps a history well formed. */
  lemma AppendedOk(h: seq<Turn>, t: Turn)
    requires HistoryOk(h) && |t.userMessage| <= MaxUserMessage && |t.botResponse| <= MaxBotResponse
    ensures HistoryOk(Appended(h, t))
  {
    var c := h + [t];
    forall j | 0 <= j < |c| ensures |c[j].userMessage| <= MaxUserMessage && |c[j].botResponse| <= MaxBotResponse {
      if j < |h| {
        assert c[j] == h[j];
      }
    }
    SuffixOk(c, |c| - |Appended(h, t)|);
  }

  /** A short enough suffix of well-formed turns is a well-formed history. */
  lemma SuffixOk(c: seq<Turn>, d: int)
    requires 0 <= d <= |c| && |c| - d <= MaxConversationHistory
    requires forall j | 0 <= j < |c| :: |c[j].userMessage| <= MaxUserMessage && |c[j].botResponse| <= MaxBotResponse
    ensures HistoryOk(c[d..])
  {
    forall i | 0 <= i < |c| - d
      ensures |c[d..][i].userMessage| <= MaxUserMessage && |c[d..][i].botResponse| <= MaxBotResponse
    {
      assert c[d..][i] == c[d + i];
    }
  }

  /** The new turn is last; when the history was full its oldest turn goes. */
  lemma AppendedFull(h: seq<Turn>, t: Turn)
    requires |h| == MaxConversationHistory
    ensures Appended(h, t) == h[1..] + [t]
  {
    assert (h + [t])[1..] == h[1..] + [t];
  }

  /** `saveConversation` for a sequence of turns, one after the other. */
  function AppendAll(h: seq<Turn>, ts: seq<Turn>): seq<Turn>
    decreases |ts|
  {
    if ts == [] then h else AppendAll(Appended(h, ts[0]), ts[1..])
  }

  /** However many turns are saved, the history is the most recent turns
      ever saved, up to 50 of them, in the order they were saved. */
  lemma {:induction false} AppendAllKeepsLatest(h: seq<Turn>, ts: seq<Turn>)
    requires |h| <= MaxConversationHistory
    ensures AppendAll(h, ts) == Latest(h + ts)
    decreases |ts|
  {
    if ts == [] {
      assert h + ts == h;
    } else {
      var h' := Appended(h, ts[0]);
      assert AppendAll(h, ts) == AppendAll(h', ts[1..]);
      AppendAllKeepsLatest(h', ts[1..]);
      var d := |h| + 1 - |h'|;
      AppendedDrop(h, ts, d);
      LatestDrop(h + ts, d);
    }
  }

  lemma AppendedDrop(h: seq<Turn>, ts: seq<Turn>, d: int)
    requires ts != [] && d == |h| + 1 - |Appended(h, ts[0])|
    ensures 0 <= d <= |h + ts| && (h + ts)[d..] == Appended(h, ts[0]) + ts[1..]
  {
    var x := h + [ts[0]];
    assert h + ts == x + ts[1..];
    assert Appended(h, ts[0]) == x[d..];
    assert (x + ts[1..])[d..] == x[d..] + ts[1..];
  }

  /** The at most 50 last turns of `all`, in order. */
  function Latest(all: seq<Turn>): (r: seq<Turn>)
    ensures |r| == if |all| <= MaxConversationHistory then |all| else MaxConversationHistory
    ensures r == all[|all| - |r|..]
  {
    var n := if |all| <= MaxConversationHistory then |all| else MaxConversationHistory;
    all[|all| - n..]
  }

  /** Dropping turns from the front changes nothing that the last 50 keep. */
  lemma LatestDrop(y: seq<Turn>, d: nat)
    requires d <= |y| && (d == 0 || |y| - d >= MaxConversationHistory)
    ensures Latest(y[d..]) == Latest(y)
  {
    if d == 0 {
      assert y[0..] == y;
    } else {
      var z := y[d..];
      assert z[|z| - MaxConversationHistory..] == y[|y| - MaxConversationHistory..];
    }
  }

  function Min(a: int, b: int): int
  {
    if a <= b then a else b
  }

  /** `conversations.slice(-limit).map(...)`: a positive limit keeps the last
      `limit` turns, and `-limit` for a limit of 0 or less is a start index,
      so `0` keeps everything and a negative limit drops turns from the front. */
  function Recent(h: seq<Turn>, limit: int): (r: seq<HistoryEntry>)
    ensures |r| == if limit > 0 then Min(limit, |h|) else |h| - Min(-limit, |h|)
    ensures |r| <= |h|
    ensures forall i | 0 <= i < |r| ::
      var t := h[|h| - |r| + i];
      r[i] == HistoryEntry(t.timestamp, t.userMessage, t.botResponse, t.metadata.channel)
  {
    var start := if limit > 0 then |h| - Min(limit, |h|) else Min(-limit, |h|);
    var s := h[start..];
    seq(|s|, i requires 0 <= i < |s| =>
      HistoryEntry(s[i].timestamp, s[i].userMessage, s[i].botResponse, s[i].metadata.channel))
  }

  /** `slice(-0)` is `slice(0)`: a limit of zero yields the whole history. */
  lemma RecentZeroIsWhole(h: seq<Turn>)
    ensures |Recent(h, 0)| == |h|
    ensures forall i | 0 <= i < |h| ::
      Recent(h, 0)[i] == HistoryEntry(h[i].timestamp, h[i].userMessage, h[i].botResponse, h[i].metadata.channel)
  {
  }

  /** The history a map holds for a user, `get(userId) || []`. */
  function Stored(m: OrderedMap<string, seq<Turn>>, userId: string): seq<Turn>
  {
    if userId in m.items then m.items[userId] else []
  }

  // ---------------------------------------------------------------
  // Profiles
  // ---------------------------------------------------------------

  datatype Preferences = Preferences(responseStyle: string, preferredTopics: seq<string>,
    frequentQuestions: seq<string>, timeZone: string)

  datatype BusinessContext = BusinessContext(role: string, department: string, company: string,
    commonTasks: seq<string>, expertise: seq<string>)

  /** The feedback record the learning engine keeps as `lastFeedback`: who
      gave it, the text, when, and its category. */
  datatype FeedbackRecord = FeedbackRecord(userId: string, feedback: string, timestamp: nat, category: string)

  /** `feedbackCount` and `lastFeedback` are absent from a fresh profile
      (`feedbackCount` is read as `|| 0`); both are written by the learning
      engine's feedback update. */
  datatype Learning = Learning(successfulInteractions: nat, problematicTopics: seq<string>,
    improvementAreas: seq<string>, satisfactionScore: real, feedbackCount: nat,
    lastFeedback: Option<FeedbackRecord>)

  datatype Profile = Profile(userId: string, createdAt: nat, lastUpdated: nat, lastInteraction: nat,
    totalInteractions: nat, averageSessionLength: nat, preferredChannel: string,
    preferences: Preferences, businessContext: BusinessContext, learning: Learning)

  predicate NoDup(s: seq<string>)
  {
    forall i, j | 0 <= i < j < |s| :: s[i] != s[j]
  }

  /** `if (!list.includes(x)) list.push(x)`. */
  function AddNew(s: seq<string>, x: string): (r: seq<string>)
    ensures NoDup(s) ==> NoDup(r)
    ensures forall y :: y in r <==> y in s || y == x
    ensures |s| <= |r| && r[..|s|] == s
  {
    if x in s then s else s + [x]
  }

  /** The lists a profile keeps free of duplicates, and the bound on the
      frequent questions (`topicPatterns.slice(0, 5)`). */
  predicate ProfileOk(p: Profile)
  {
    && NoDup(p.preferences.preferredTopics)
    && NoDup(p.preferences.frequentQuestions) && |p.preferences.frequentQuestions| <= 5
    && NoDup(p.businessContext.commonTasks)
    && NoDup(p.learning.problematicTopics)
    && NoDup(p.learning.improvementAreas)
  }

  /** Every stored profile is filed under its own user id and is well formed. */
  predicate ProfilesOk(ps: map<string, Profile>)
  {
    forall u | u in ps :: ps[u].userId == u && ProfileOk(ps[u])
  }

  function CreateDefaultProfile(userId: string, now: nat): (p: Profile)
    ensures p.userId == userId && ProfileOk(p)
    ensures p.createdAt == now && p.lastUpdated == now && p.lastInteraction == now
    ensures p.totalInteractions == 0 && p.learning.successfulInteractions == 0
    ensures p.learning.satisfactionScore == 0.0 && p.learning.feedbackCount == 0 && p.learning.lastFeedback == None
    ensures p.preferences.responseStyle == "professional"
    ensures p.preferences.preferredTopics == [] && p.preferences.frequentQuestions == []
    ensures p.businessContext.commonTasks == [] && p.businessContext.expertise == []
    ensures p.learning.problematicTopics == [] && p.learning.improvementAreas == []
    ensures p.averageSessionLength == 0 && p.preferredChannel == "unknown"
    ensures p.preferences.timeZone == "America/Sao_Paulo"
    ensures p.businessContext.role == "unknown" && p.businessContext.department == "unknown"
    ensures p.businessContext.company == "unknown"
  {
    Profile(userId, now, now, now, 0, 0, "unknown",
      Preferences("professional", [], [], "America/Sao_Paulo"),
      BusinessContext("unknown", "unknown", "unknown", [], []),
      Learning(0, [], [], 0.0, 0, None))
  }

  /** The two shapes of `updates` that callers pass to `updateUserProfile`:
      the activity record of `saveConversation`, and the learning engine's
      `{learning: {...profile.learning, satisfactionScore, feedbackCount,
      lastFeedback}}`, which is the stored learning record with those three
      fields replaced. */
  datatype ProfileUpdates =
    | Activity(lastInteraction: nat, totalInteractions: nat)
    | Feedback(satisfactionScore: real, feedbackCount: nat, lastFeedback: FeedbackRecord)

  /** `Object.assign(profile, updates)`. */
  function Assign(p: Profile, u: ProfileUpdates): (r: Profile)
    ensures r.userId == p.userId && r.preferences == p.preferences && r.businessContext == p.businessContext
    ensures r.createdAt == p.createdAt && r.lastUpdated == p.lastUpdated
    ensures r.averageSessionLength == p.averageSessionLength && r.preferredChannel == p.preferredChannel
    ensures u.Activity? ==>
      r.lastInteraction == u.lastInteraction && r.totalInteractions == u.totalInteractions && r.learning == p.learning
    ensures u.Feedback? ==>
      && r.learning == p.learning.(satisfactionScore := u.satisfactionScore, feedbackCount := u.feedbackCount,
           lastFeedback := Some(u.lastFeedback))
      && r.lastInteraction == p.lastInteraction && r.totalInteractions == p.totalInteractions
    ensures ProfileOk(p) ==> ProfileOk(r)
  {
    match u
    case Activity(li, ti) => p.(lastInteraction := li, totalInteractions := ti)
    case Feedback(s, c, f) => p.(learning := p.learning.(satisfactionScore := s, feedbackCount := c, lastFeedback := Some(f)))
  }

  // ---------------------------------------------------------------
  // Pattern analysis over a history
  // ---------------------------------------------------------------

  /** The topics one message counts for in `analyzeTopicPatterns`, in the
      order the tests are made. */
  function MessageTopics(message: string): (r: seq<string>)
    ensures NoDup(r)
  {
    var m := Lower(message);
    var a := if Contains(m, "fluxo") && Contains(m, "caixa") then ["fluxo_caixa"] else [];
    var b := if Contains(m, "conciliação") || Contains(m, "conciliacao") then ["conciliacao_bancaria"] else [];
    var c := if Contains(m, "relatório") || Contains(m, "relatorio") then ["relatorios"] else [];
    var d := if Contains(m, "dre") then ["dre"] else [];
    var e := if Contains(m, "balanço") || Contains(m, "balanco") then ["balanco_patrimonial"] else [];
    TopicNamesApart(a, b, c, d, e);
    (if Contains(m, "fluxo") && Contains(m, "caixa") then ["fluxo_caixa"] else [])
    + (if Contains(m, "conciliação") || Contains(m, "conciliacao") then ["conciliacao_bancaria"] else [])
    + (if Contains(m, "relatório") || Contains(m, "relatorio") then ["relatorios"] else [])
    + (if Contains(m, "dre") then ["dre"] else [])
    + (if Contains(m, "balanço") || Contains(m, "balanco") then ["balanco_patrimonial"] else [])
  }

  lemma TopicNamesApart(a: seq<string>, b: seq<string>, c: seq<string>, d: seq<string>, e: seq<string>)
    requires a == [] || a == ["fluxo_caixa"]
    requires b == [] || b == ["conciliacao_bancaria"]
    requires c == [] || c == ["relatorios"]
    requires d == [] || d == ["dre"]
    requires e == [] || e == ["balanco_patrimonial"]
    ensures NoDup(a + b + c + d + e)
  {
    assert forall x | x in a :: |x| == 11;
    assert forall x | x in b :: |x| == 20;
    assert forall x | x in c :: |x| == 10;
    assert forall x | x in d :: |x| == 3;
    assert forall x | x in e :: |x| == 19;
    ApartByLengths(a, b, c, d, e);
  }

  /** Five runs of at most one name each, the names of different lengths. */
  lemma ApartByLengths(a: seq<string>, b: seq<string>, c: seq<string>, d: seq<string>, e: seq<string>)
    requires |a| <= 1 && |b| <= 1 && |c| <= 1 && |d| <= 1 && |e| <= 1
    requires (forall x | x in a :: |x| == 11) && (forall x | x in b :: |x| == 20)
    requires (forall x | x in c :: |x| == 10) && (forall x | x in d :: |x| == 3)
    requires forall x | x in e :: |x| == 19
    ensures NoDup(a + b + c + d + e)
  {
    AppendApart(a, b, {11}, 20);
    AppendApart(a + b, c, {11, 20}, 10);
    AppendApart(a + b + c, d, {11, 20, 10}, 3);
    AppendApart(a + b + c + d, e, {11, 20, 10, 3}, 19);
  }

  /** Appending at most one name whose length no earlier name has. */
  lemma AppendApart(x: seq<string>, y: seq<string>, lengths: set<nat>, n: nat)
    requires NoDup(x) && (forall v | v in x :: |v| in lengths)
    requires |y| <= 1 && (forall v | v in y :: |v| == n) && n !in lengths
    ensures NoDup(x + y) && forall v | v in x + y :: |v| in lengths + {n}
  {
    NoDupAppend(x, y);
  }

  lemma NoDupAppend(x: seq<string>, y: seq<string>)
    requires NoDup(x) && NoDup(y) && forall v | v in x :: v !in y
    ensures NoDup(x + y)
  {
    forall i, j | 0 <= i < j < |x + y| ensures (x + y)[i] != (x + y)[j] {
      if i < |x| && j >= |x| {
        assert (x + y)[i] in x && (x + y)[j] in y;
      }
    }
  }

  /** The topic pushes for a history, message by message. */
  function HistoryTopics(h: seq<HistoryEntry>): seq<string>
  {
    if h == [] then [] else MessageTopics(h[0].userMessage) + HistoryTopics(h[1..])
  }

  /** `analyzeTopicPatterns`: the topic names, most frequent first. */
  function AnalyzeTopicPatterns(h: seq<HistoryEntry>): seq<string>
  {
    KeysOf(Ranked(HistoryTopics(h)))
  }

  /** The ranking lists each topic that some message mentions exactly once,
      and no other, ordered by the number of pushes. */
  lemma {:induction false} AnalyzeTopicPatternsSpec(h: seq<HistoryEntry>)
    ensures var r := AnalyzeTopicPatterns(h);
      && NoDup(r)
      && (forall t :: t in r <==> t in HistoryTopics(h))
      && (forall i, j | 0 <= i < j < |r| ::
            Occurrences(HistoryTopics(h), r[i]) >= Occurrences(HistoryTopics(h), r[j]))
  {
    var ks := HistoryTopics(h);
    RankedSpec(ks);
    var s := Ranked(ks);
    var r := KeysOf(s);
    forall i, j | 0 <= i < j < |r| ensures Occurrences(ks, r[i]) >= Occurrences(ks, r[j]) {
      assert ByCount(s[i]) >= ByCount(s[j]);
    }
  }

  /** The summed length of the user messages of a history. */
  function TotalLength(h: seq<HistoryEntry>): nat
  {
    if h == [] then 0 else |h[0].userMessage| + TotalLength(h[1..])
  }

  /** `analyzeCommunicationStyle` of the memory store. For an empty history
      the average is NaN, both comparisons are false and the result is the
      default. */
  function AnalyzeCommunicationStyle(h: seq<HistoryEntry>): (r: string)
    ensures r == "detailed" || r == "concise" || r == "professional"
  {
    StyleForAverage(TotalLength(h), |h|)
  }

  /** The style for `total` characters over `count` messages. With no
      messages the source's average is NaN, so neither threshold holds. */
  function StyleForAverage(total: nat, count: nat): string
  {
    if count == 0 then "professional"
    else
      var avg := total as real / count as real;
      if avg > 100.0 then "detailed" else if avg < 30.0 then "concise" else "professional"
  }

  lemma DivideCompare(a: real, n: real, c: real)
    requires n > 0.0
    ensures a / n > c <==> a > c * n
    ensures a / n < c <==> a < c * n
  {
    var q := a / n;
    assert a == q * n;
    if q > c {
      assert (q - c) * n > 0.0;
    }
    if q < c {
      assert (c - q) * n > 0.0;
    }
    if q == c {
      assert a == c * n;
    }
  }

  /** The style thresholds, without division: more than 100 characters per
      message on average is detailed, fewer than 30 is concise. */
  lemma {:induction false} AnalyzeCommunicationStyleSpec(h: seq<HistoryEntry>)
    ensures AnalyzeCommunicationStyle(h) == "detailed" <==> |h| > 0 && TotalLength(h) > 100 * |h|
    ensures AnalyzeCommunicationStyle(h) == "concise" <==> |h| > 0 && TotalLength(h) < 30 * |h|
  {
    var t := TotalLength(h);
    var n := |h|;
    if n > 0 {
      DivideCompare(t as real, n as real, 100.0);
      DivideCompare(t as real, n as real, 30.0);
    }
  }

  /** `analyzeUserPatterns`: with at least three recent turns, the response
      style and the five most frequent topics are written into the profile. */
  function AnalyzeUserPatterns(p: Profile, recent: seq<HistoryEntry>): (r: Profile)
    ensures |recent| < MinTurnsForPatterns ==> r == p
    ensures r.userId == p.userId && r.learning == p.learning && r.businessContext == p.businessContext
    ensures r.lastInteraction == p.lastInteraction && r.totalInteractions == p.totalInteractions
    ensures r.lastUpdated == p.lastUpdated && r.createdAt == p.createdAt
    ensures r.averageSessionLength == p.averageSessionLength && r.preferredChannel == p.preferredChannel
    ensures r.preferences.preferredTopics == p.preferences.preferredTopics
    ensures r.preferences.timeZone == p.preferences.timeZone
    ensures |recent| >= MinTurnsForPatterns ==>
      r.preferences.responseStyle == AnalyzeCommunicationStyle(recent)
      && r.preferences.frequentQuestions == Take(AnalyzeTopicPatterns(recent), 5)
    ensures ProfileOk(p) ==> ProfileOk(r)
  {
    if |recent| < MinTurnsForPatterns then p
    else
      AnalyzeTopicPatternsSpec(recent);
      var topics := Take(AnalyzeTopicPatterns(recent), 5);
      p.(preferences := p.preferences.(responseStyle := AnalyzeCommunicationStyle(recent),
        frequentQuestions := topics))
  }

  /** `extractTopicFromMessage`: the first matching topic, or "general". */
  function ExtractTopicFromMessage(message: string): (r: string)
    ensures r in ["fluxo_caixa", "conciliacao", "relatorios", "dre", "balanco", "general"]
  {
    var m := Lower(message);
    if Contains(m, "fluxo") && Contains(m, "caixa") then "fluxo_caixa"
    else if Contains(m, "conciliação") then "conciliacao"
    else if Contains(m, "relatório") then "relatorios"
    else if Contains(m, "dre") then "dre"
    else if Contains(m, "balanço") then "balanco"
    else "general"
  }

  /** The two topic detectors agree on cash flow, and "general" means that
      none of the accented keywords occurs. */
  lemma ExtractTopicSpec(message: string)
    ensures ExtractTopicFromMessage(message) == "fluxo_caixa" <==> "fluxo_caixa" in MessageTopics(message)
    ensures var m := Lower(message);
      ExtractTopicFromMessage(message) == "general" <==>
        !(Contains(m, "fluxo") && Contains(m, "caixa")) && !Contains(m, "conciliação")
        && !Contains(m, "relatório") && !Contains(m, "dre") && !Contains(m, "balanço")
  {
  }

  /** A message that names "fluxo" and then "caixa" is about cash flow,
      whatever else (a report, a reconciliation) it also names: the
      fluxo/caixa test comes first. */
  lemma ExtractTopicPrecedence(a: string, b: string, c: string)
    ensures ExtractTopicFromMessage(a + "fluxo" + b + "caixa" + c) == "fluxo_caixa"
  {
    var m := a + "fluxo" + b + "caixa" + c;
    LowerConcat(a + "fluxo" + b + "caixa", c);
    LowerConcat(a + "fluxo" + b, "caixa");
    LowerConcat(a + "fluxo", b);
    LowerConcat(a, "fluxo");
    LowerOfLower("fluxo");
    LowerOfLower("caixa");
    var l := Lower(m);
    assert l == Lower(a) + "fluxo" + Lower(b) + "caixa" + Lower(c);
    assert OccursAt(l, "fluxo", |a|);
    assert OccursAt(l, "caixa", |a| + 5 + |b|);
  }

  // ---------------------------------------------------------------
  // Learning events
  // ---------------------------------------------------------------

  /** The fields of an event's `data` that the handlers read; "" is absent. */
  datatype EventData = EventData(topic: string, improvementArea: string, skillName: string)

  /** A learning event; `userId` "" is the `null` default. */
  datatype LearningEvent = LearningEvent(eventType: string, timestamp: nat, userId: string,
    data: EventData, processed: bool, processedAt: Option<nat>)

  /** `learningKey`: the event type and the time of recording. */
  function EventKey(eventType: string, now: nat): (k: string)
    ensures StartsWith(k, eventType + "_")
  {
    eventType + "_" + NatToString(now)
  }

  /** The events not yet processed, in table order. */
  function UnprocessedOf(evs: seq<LearningEvent>): (r: seq<LearningEvent>)
    ensures forall e :: e in r <==> e in evs && !e.processed
  {
    if evs == [] then []
    else (if evs[0].processed then [] else [evs[0]]) + UnprocessedOf(evs[1..])
  }

  /** The events of type `t`, in order. */
  function OfType(evs: seq<LearningEvent>, t: string): seq<LearningEvent>
  {
    if evs == [] then []
    else
      var last := evs[|evs| - 1];
      OfType(evs[..|evs| - 1], t) + (if last.eventType == t then [last] else [])
  }

  lemma {:induction false} OfTypeEmpty(evs: seq<LearningEvent>, t: string)
    ensures OfType(evs, t) == [] <==> forall k | 0 <= k < |evs| :: evs[k].eventType != t
  {
    if evs != [] {
      OfTypeEmpty(evs[..|evs| - 1], t);
    }
  }

  /** One entry of `groupEventsByType`'s result object. */
  datatype EventGroup = EventGroup(eventType: string, events: seq<LearningEvent>)

  function Types(gs: seq<EventGroup>): (r: seq<string>)
    ensures |r| == |gs| && forall i | 0 <= i < |gs| :: r[i] == gs[i].eventType
  {
    if gs == [] then [] else [gs[0].eventType] + Types(gs[1..])
  }

  /** `groups[t] || []`. */
  function GroupOf(gs: seq<EventGroup>, t: string): seq<LearningEvent>
  {
    if gs == [] then [] else if gs[0].eventType == t then gs[0].events else GroupOf(gs[1..], t)
  }

  /** One step of the reduce: push onto the event's group, creating it last. */
  function AddToGroups(gs: seq<EventGroup>, e: LearningEvent): seq<EventGroup>
  {
    if gs == [] then [EventGroup(e.eventType, [e])]
    else if gs[0].eventType == e.eventType then [gs[0].(events := gs[0].events + [e])] + gs[1..]
    else [gs[0]] + AddToGroups(gs[1..], e)
  }

  /** `groupEventsByType`: the groups in order of first appearance. */
  function GroupEventsByType(evs: seq<LearningEvent>): seq<EventGroup>
  {
    if evs == [] then [] else AddToGroups(GroupEventsByType(evs[..|evs| - 1]), evs[|evs| - 1])
  }

  lemma {:induction false} AddToGroupsSpec(gs: seq<EventGroup>, e: LearningEvent)
    ensures Types(AddToGroups(gs, e)) ==
      if e.eventType in Types(gs) then Types(gs) else Types(gs) + [e.eventType]
    ensures forall t ::
      GroupOf(AddToGroups(gs, e), t) == if t == e.eventType then GroupOf(gs, t) + [e] else GroupOf(gs, t)
  {
    if gs != [] && gs[0].eventType != e.eventType {
      AddToGroupsSpec(gs[1..], e);
      assert Types(gs) == [gs[0].eventType] + Types(gs[1..]);
      assert Types(AddToGroups(gs, e)) == [gs[0].eventType] + Types(AddToGroups(gs[1..], e));
    }
  }

  /** In groups with distinct types, a group holds what `GroupOf` finds. */
  lemma {:induction false} GroupOfAt(gs: seq<EventGroup>, i: int)
    requires NoDup(Types(gs)) && 0 <= i < |gs|
    ensures GroupOf(gs, gs[i].eventType) == gs[i].events
  {
    if i > 0 {
      assert Types(gs)[0] != Types(gs)[i];
      assert Types(gs[1..]) == Types(gs)[1..];
      GroupOfAt(gs[1..], i - 1);
    }
  }

  /** Grouping partitions the events by type: one group per type that
      occurs, each holding exactly that type's events in their order. */
  lemma {:induction false} GroupEventsByTypeSpec(evs: seq<LearningEvent>)
    ensures NoDup(Types(GroupEventsByType(evs)))
    ensures forall t :: GroupOf(GroupEventsByType(evs), t) == OfType(evs, t)
    ensures forall t :: t in Types(GroupEventsByType(evs)) <==> OfType(evs, t) != []
  {
    if evs != [] {
      var init := evs[..|evs| - 1];
      var last := evs[|evs| - 1];
      GroupEventsByTypeSpec(init);
      var gs := GroupEventsByType(init);
      AddToGroupsSpec(gs, last);
      assert GroupEventsByType(evs) == AddToGroups(gs, last);
      NoDupSnoc(Types(gs), last.eventType);
      forall t ensures GroupOf(GroupEventsByType(evs), t) == OfType(evs, t) {
        assert OfType(evs, t) == OfType(init, t) + (if last.eventType == t then [last] else []);
      }
      forall t ensures t in Types(GroupEventsByType(evs)) <==> OfType(evs, t) != [] {
        assert OfType(evs, t) == OfType(init, t) + (if last.eventType == t then [last] else []);
      }
    }
  }

  /** Appending a new string keeps a sequence free of duplicates. */
  lemma NoDupSnoc(s: seq<string>, x: string)
    requires NoDup(s)
    ensures x !in s ==> NoDup(s + [x])
  {
  }

  /** Each group holds the events of its type. */
  lemma GroupEventsByTypeAt(evs: seq<LearningEvent>, i: int)
    requires 0 <= i < |GroupEventsByType(evs)|
    ensures GroupEventsByType(evs)[i].events == OfType(evs, GroupEventsByType(evs)[i].eventType)
    ensures GroupEventsByType(evs)[i].events != []
  {
    GroupEventsByTypeSpec(evs);
    GroupOfAt(GroupEventsByType(evs), i);
    assert GroupEventsByType(evs)[i].eventType in Types(GroupEventsByType(evs));
  }

  // ---------------------------------------------------------------
  // What each handler does to the stored profiles
  // ---------------------------------------------------------------

  /** One event of `learnFromSuccessfulInteractions`. A profile that is not
      stored is a fresh default from `getUserProfile`, and what is done to it
      is lost. */
  function SuccessStep(ps: map<string, Profile>, e: LearningEvent): map<string, Profile>
  {
    if e.userId != "" && e.userId in ps then
      var p := ps[e.userId];
      var topics := if e.data.topic != "" then AddNew(p.preferences.preferredTopics, e.data.topic)
                    else p.preferences.preferredTopics;
      ps[e.userId := p.(learning := p.learning.(successfulInteractions := p.learning.successfulInteractions + 1),
                        preferences := p.preferences.(preferredTopics := topics))]
    else ps
  }

  function SuccessFold(ps: map<string, Profile>, evs: seq<LearningEvent>): map<string, Profile>
  {
    if evs == [] then ps else SuccessFold(SuccessStep(ps, evs[0]), evs[1..])
  }

  lemma SuccessStepOk(ps: map<string, Profile>, e: LearningEvent)
    requires ProfilesOk(ps)
    ensures SuccessStep(ps, e).Keys == ps.Keys && ProfilesOk(SuccessStep(ps, e))
  {
  }

  /** The events of `evs` that belong to user `u`. */
  function EventsOf(evs: seq<LearningEvent>, u: string): nat
  {
    if evs == [] then 0 else (if evs[0].userId == u then 1 else 0) + EventsOf(evs[1..], u)
  }

  /** `u` has an event in `evs` naming topic `t`. */
  predicate TopicSeen(evs: seq<LearningEvent>, u: string, t: string)
  {
    exists k | 0 <= k < |evs| :: evs[k].userId == u && evs[k].data.topic == t
  }

  lemma TopicSeenCons(evs: seq<LearningEvent>, u: string, t: string)
    requires evs != []
    ensures TopicSeen(evs, u, t) <==>
      (evs[0].userId == u && evs[0].data.topic == t) || TopicSeen(evs[1..], u, t)
  {
    if TopicSeen(evs[1..], u, t) {
      var k :| 0 <= k < |evs[1..]| && evs[1..][k].userId == u && evs[1..][k].data.topic == t;
      assert evs[k + 1] == evs[1..][k];
    }
    if TopicSeen(evs, u, t) {
      var k :| 0 <= k < |evs| && evs[k].userId == u && evs[k].data.topic == t;
      if k > 0 {
        assert evs[1..][k - 1] == evs[k];
      }
    }
  }

  /** Successful interactions change no other user and keep every profile
      well formed. */
  lemma {:induction false} SuccessFoldOk(ps: map<string, Profile>, evs: seq<LearningEvent>)
    requires ProfilesOk(ps)
    ensures SuccessFold(ps, evs).Keys == ps.Keys
    ensures ProfilesOk(SuccessFold(ps, evs))
  {
    if evs != [] {
      SuccessStepOk(ps, evs[0]);
      SuccessFoldOk(SuccessStep(ps, evs[0]), evs[1..]);
    }
  }

  /** A stored user's counter of successful interactions goes up once per
      event of theirs. */
  lemma {:induction false} SuccessFoldCount(ps: map<string, Profile>, evs: seq<LearningEvent>, u: string)
    requires u in ps && u != ""
    ensures u in SuccessFold(ps, evs)
    ensures SuccessFold(ps, evs)[u].learning.successfulInteractions
      == ps[u].learning.successfulInteractions + EventsOf(evs, u)
  {
    if evs != [] {
      SuccessFoldCount(SuccessStep(ps, evs[0]), evs[1..], u);
    }
  }

  /** A stored user's preferred topics gain exactly the topics their events
      name. */
  lemma {:induction false} SuccessFoldTopics(ps: map<string, Profile>, evs: seq<LearningEvent>, u: string, t: string)
    requires u in ps && u != "" && t != ""
    ensures u in SuccessFold(ps, evs)
    ensures (t in SuccessFold(ps, evs)[u].preferences.preferredTopics)
      == (t in ps[u].preferences.preferredTopics || TopicSeen(evs, u, t))
  {
    if evs != [] {
      SuccessFoldTopics(SuccessStep(ps, evs[0]), evs[1..], u, t);
      TopicSeenCons(evs, u, t);
    }
  }

  /** One event of `learnFromFailedInteractions`. */
  function FailureStep(ps: map<string, Profile>, e: LearningEvent): map<string, Profile>
  {
    if e.userId != "" && e.userId in ps then
      var p := ps[e.userId];
      var l := p.learning;
      var topics := if e.data.topic != "" then AddNew(l.problematicTopics, e.data.topic) else l.problematicTopics;
      var areas := if e.data.improvementArea != "" then AddNew(l.improvementAreas, e.data.improvementArea)
                   else l.improvementAreas;
      ps[e.userId := p.(learning := l.(problematicTopics := topics, improvementAreas := areas))]
    else ps
  }

  function FailureFold(ps: map<string, Profile>, evs: seq<LearningEvent>): map<string, Profile>
  {
    if evs == [] then ps else FailureFold(FailureStep(ps, evs[0]), evs[1..])
  }

  lemma FailureStepOk(ps: map<string, Profile>, e: LearningEvent)
    requires ProfilesOk(ps)
    ensures FailureStep(ps, e).Keys == ps.Keys && ProfilesOk(FailureStep(ps, e))
  {
  }

  /** `u` has an event in `evs` naming improvement area `a`. */
  predicate AreaSeen(evs: seq<LearningEvent>, u: string, a: string)
  {
    exists k | 0 <= k < |evs| :: evs[k].userId == u && evs[k].data.improvementArea == a
  }

  lemma AreaSeenCons(evs: seq<LearningEvent>, u: string, a: string)
    requires evs != []
    ensures AreaSeen(evs, u, a) <==>
      (evs[0].userId == u && evs[0].data.improvementArea == a) || AreaSeen(evs[1..], u, a)
  {
    if AreaSeen(evs[1..], u, a) {
      var k :| 0 <= k < |evs[1..]| && evs[1..][k].userId == u && evs[1..][k].data.improvementArea == a;
      assert evs[k + 1] == evs[1..][k];
    }
    if AreaSeen(evs, u, a) {
      var k :| 0 <= k < |evs| && evs[k].userId == u && evs[k].data.improvementArea == a;
      if k > 0 {
        assert evs[1..][k - 1] == evs[k];
      }
    }
  }

  /** Failed interactions change no other user and keep every profile well
      formed. */
  lemma {:induction false} FailureFoldOk(ps: map<string, Profile>, evs: seq<LearningEvent>)
    requires ProfilesOk(ps)
    ensures FailureFold(ps, evs).Keys == ps.Keys
    ensures ProfilesOk(FailureFold(ps, evs))
  {
    if evs != [] {
      FailureStepOk(ps, evs[0]);
      FailureFoldOk(FailureStep(ps, evs[0]), evs[1..]);
    }
  }

  /** A stored user's problematic topics and improvement areas gain exactly
      what their events name. */
  lemma {:induction false} FailureFoldLists(ps: map<string, Profile>, evs: seq<LearningEvent>, u: string, t: string)
    requires u in ps && u != "" && t != ""
    ensures u in FailureFold(ps, evs)
    ensures (t in FailureFold(ps, evs)[u].learning.problematicTopics)
      == (t in ps[u].learning.problematicTopics || TopicSeen(evs, u, t))
    ensures (t in FailureFold(ps, evs)[u].learning.improvementAreas)
      == (t in ps[u].learning.improvementAreas || AreaSeen(evs, u, t))
  {
    if evs != [] {
      FailureFoldLists(FailureStep(ps, evs[0]), evs[1..], u, t);
      TopicSeenCons(evs, u, t);
      AreaSeenCons(evs, u, t);
    }
  }

  // ---------------------------------------------------------------
  // Skill usage
  // ---------------------------------------------------------------

  /** The `${userId}_${skillName}` keys of the events that have both, in order. */
  function SkillKeys(evs: seq<LearningEvent>): seq<string>
  {
    if evs == [] then []
    else
      var e := evs[|evs| - 1];
      SkillKeys(evs[..|evs| - 1])
      + (if e.userId != "" && e.data.skillName != "" then [e.userId + "_" + e.data.skillName] else [])
  }

  lemma SkillKeysSnoc(evs: seq<LearningEvent>, i: int)
    requires 0 <= i < |evs|
    ensures var e := evs[i];
      SkillKeys(evs[..i + 1])
      == SkillKeys(evs[..i]) + (if e.userId != "" && e.data.skillName != "" then [e.userId + "_" + e.data.skillName] else [])
  {
    assert evs[..i + 1][..i] == evs[..i];
  }

  /** The first loop of `learnFromSkillUsage`: a `Map` from key to count,
      filled in event order. */
  method CountSkillUsage(events: seq<LearningEvent>) returns (usage: Tally)
    ensures usage == TallyAll([], SkillKeys(events))
  {
    usage := [];
    var i := 0;
    while i < |events|
      invariant 0 <= i <= |events|
      invariant usage == TallyAll([], SkillKeys(events[..i]))
    {
      var event := events[i];
      SkillKeysSnoc(events, i);
      if event.userId != "" && event.data.skillName != "" {
        TallyAllSnoc([], SkillKeys(events[..i]), event.userId + "_" + event.data.skillName);
        usage := Bump(usage, event.userId + "_" + event.data.skillName);
      } else {
        assert SkillKeys(events[..i + 1]) == SkillKeys(events[..i]);
      }
      i := i + 1;
    }
    assert events[..|events|] == events;
  }

  /** The text before the first '_', the first field of `split('_')`. */
  function BeforeSep(s: string): (r: string)
    ensures '_' !in r && StartsWith(s, r)
  {
    if s == [] || s[0] == '_' then [] else [s[0]] + BeforeSep(s[1..])
  }

  /** The text after the first '_'. */
  function AfterSep(s: string): string
  {
    if s == [] then [] else if s[0] == '_' then s[1..] else AfterSep(s[1..])
  }

  /** `const [userId, skillName] = key.split('_')`: the first two fields. */
  function SplitKey(key: string): (string, string)
  {
    (BeforeSep(key), BeforeSep(AfterSep(key)))
  }

  lemma {:induction false} SepOf(a: string, b: string)
    requires '_' !in a
    ensures BeforeSep(a + "_" + b) == a && AfterSep(a + "_" + b) == b
  {
    if a != [] {
      assert (a + "_" + b)[1..] == a[1..] + "_" + b;
      SepOf(a[1..], b);
    } else {
      assert (a + "_" + b) == "_" + b;
    }
  }

  /** A key built from a user id and a skill name without '_' splits back
      into the two. */
  lemma SplitKeyRoundTrip(u: string, s: string)
    requires '_' !in u && '_' !in s
    ensures SplitKey(u + "_" + s) == (u, s)
  {
    SepOf(u, s);
    BeforeSepWhole(s);
  }

  lemma {:induction false} BeforeSepWhole(s: string)
    requires '_' !in s
    ensures BeforeSep(s) == s
  {
    if s != [] {
      BeforeSepWhole(s[1..]);
    }
  }

  /** A skill name with '_' loses everything from its first '_': the usage
      of 'fluxo_caixa' is filed as 'fluxo'. */
  lemma SplitKeyTruncates(u: string)
    requires '_' !in u
    ensures SplitKey(u + "_" + "fluxo_caixa") == (u, "fluxo")
  {
    SepOf(u, "fluxo_caixa");
    assert "fluxo_caixa" == "fluxo" + "_" + "caixa";
    SepOf("fluxo", "caixa");
  }

  /** One entry of `skillUsageMap.forEach`: a skill seen at least three
      times joins the common tasks of a stored user once. */
  function SkillStep(ps: map<string, Profile>, entry: Entry): map<string, Profile>
  {
    var key := SplitKey(entry.0);
    var u := key.0;
    var skill := key.1;
    if entry.1 >= 3 && u in ps && skill !in ps[u].businessContext.commonTasks then
      var p := ps[u];
      ps[u := p.(businessContext := p.businessContext.(commonTasks := p.businessContext.commonTasks + [skill]))]
    else ps
  }

  function SkillFold(ps: map<string, Profile>, usage: Tally): map<string, Profile>
  {
    if usage == [] then ps else SkillFold(SkillStep(ps, usage[0]), usage[1..])
  }

  lemma SkillStepOk(ps: map<string, Profile>, entry: Entry)
    requires ProfilesOk(ps)
    ensures SkillStep(ps, entry).Keys == ps.Keys && ProfilesOk(SkillStep(ps, entry))
  {
  }

  /** `learnFromSkillUsage`: count the keys, then fold the counter. */
  function SkillUsage(ps: map<string, Profile>, evs: seq<LearningEvent>): map<string, Profile>
  {
    SkillFold(ps, TallyAll([], SkillKeys(evs)))
  }

  lemma {:induction false} SkillFoldOk(ps: map<string, Profile>, usage: Tally)
    requires ProfilesOk(ps)
    ensures SkillFold(ps, usage).Keys == ps.Keys
    ensures ProfilesOk(SkillFold(ps, usage))
  {
    if usage != [] {
      SkillStepOk(ps, usage[0]);
      SkillFoldOk(SkillStep(ps, usage[0]), usage[1..]);
    }
  }

  /** Common tasks are never removed. */
  lemma {:induction false} SkillFoldKeeps(ps: map<string, Profile>, usage: Tally, u: string, x: string)
    requires u in ps && x in ps[u].businessContext.commonTasks
    ensures u in SkillFold(ps, usage) && x in SkillFold(ps, usage)[u].businessContext.commonTasks
  {
    if usage != [] {
      SkillFoldKeeps(SkillStep(ps, usage[0]), usage[1..], u, x);
    }
  }

  /** Every entry counted at least three times whose user is stored ends up
      among that user's common tasks. */
  lemma {:induction false} SkillFoldAdds(ps: map<string, Profile>, usage: Tally, i: int)
    requires 0 <= i < |usage| && usage[i].1 >= 3 && SplitKey(usage[i].0).0 in ps
    ensures var key := SplitKey(usage[i].0);
      key.0 in SkillFold(ps, usage) && key.1 in SkillFold(ps, usage)[key.0].businessContext.commonTasks
  {
    var key := SplitKey(usage[i].0);
    var ps' := SkillStep(ps, usage[0]);
    if i == 0 {
      assert key.1 in ps'[key.0].businessContext.commonTasks;
      SkillFoldKeeps(ps', usage[1..], key.0, key.1);
    } else {
      assert usage[1..][i - 1] == usage[i];
      SkillFoldAdds(ps', usage[1..], i - 1);
    }
  }

  /** A stored user who used a skill (both without '_') at least three times
      in the batch has it among their common tasks afterwards, and what was
      there stays. */
  lemma SkillUsageSpec(ps: map<string, Profile>, evs: seq<LearningEvent>, u: string, skill: string)
    requires u in ps && '_' !in u && '_' !in skill
    requires Occurrences(SkillKeys(evs), u + "_" + skill) >= 3
    ensures u in SkillUsage(ps, evs) && skill in SkillUsage(ps, evs)[u].businessContext.commonTasks
  {
    var ks := SkillKeys(evs);
    var k := u + "_" + skill;
    var t := TallyAll([], ks);
    TallyAllCounts([], ks);
    assert k in multiset(ks);
    assert k in KeysOf(t);
    var i :| 0 <= i < |t| && t[i].0 == k;
    CountOfMember(t, i);
    SplitKeyRoundTrip(u, skill);
    SkillFoldAdds(ps, t, i);
  }

  // ---------------------------------------------------------------
  // Processing a batch of events
  // ---------------------------------------------------------------

  /** `processEventGroup` for the types that have a handler. The
      'user_feedback' case calls a method the class does not define; the
      caller models the TypeError. */
  function GroupEffect(ps: map<string, Profile>, g: EventGroup): map<string, Profile>
  {
    if g.eventType == "successful_interaction" then SuccessFold(ps, g.events)
    else if g.eventType == "failed_interaction" then FailureFold(ps, g.events)
    else if g.eventType == "skill_usage" then SkillUsage(ps, g.events)
    else ps
  }

  /** The loop over the groups: the profiles afterwards, and whether a
      'user_feedback' group threw and ended the run. */
  function RunGroups(ps: map<string, Profile>, gs: seq<EventGroup>): (map<string, Profile>, bool)
    decreases |gs|
  {
    if gs == [] then (ps, false)
    else if gs[0].eventType == "user_feedback" then (ps, true)
    else RunGroups(GroupEffect(ps, gs[0]), gs[1..])
  }

  lemma {:induction false} RunGroupsOk(ps: map<string, Profile>, gs: seq<EventGroup>)
    requires ProfilesOk(ps)
    ensures RunGroups(ps, gs).0.Keys == ps.Keys && ProfilesOk(RunGroups(ps, gs).0)
    decreases |gs|
  {
    if gs != [] && gs[0].eventType != "user_feedback" {
      GroupEffectOk(ps, gs[0]);
      RunGroupsOk(GroupEffect(ps, gs[0]), gs[1..]);
    }
  }

  /** Every handler keeps the profile table well formed and its users. */
  lemma GroupEffectOk(ps: map<string, Profile>, g: EventGroup)
    requires ProfilesOk(ps)
    ensures GroupEffect(ps, g).Keys == ps.Keys && ProfilesOk(GroupEffect(ps, g))
  {
    if g.eventType == "successful_interaction" {
      SuccessFoldOk(ps, g.events);
    } else if g.eventType == "failed_interaction" {
      FailureFoldOk(ps, g.events);
    } else if g.eventType == "skill_usage" {
      SkillFoldOk(ps, TallyAll([], SkillKeys(g.events)));
    }
  }

  /** The run ends early exactly when there is a 'user_feedback' group. */
  lemma {:induction false} RunGroupsAborts(ps: map<string, Profile>, gs: seq<EventGroup>)
    ensures RunGroups(ps, gs).1 <==> "user_feedback" in Types(gs)
    decreases |gs|
  {
    if gs != [] {
      assert Types(gs) == [gs[0].eventType] + Types(gs[1..]);
      if gs[0].eventType != "user_feedback" {
        RunGroupsAborts(GroupEffect(ps, gs[0]), gs[1..]);
      }
    }
  }

  function MarkProcessed(e: LearningEvent, now: nat): (r: LearningEvent)
  {
    if e.processed then e else e.(processed := true, processedAt := Some(now))
  }

  /** `unprocessedEvents.forEach(event => { processed = true; processedAt = now })`. */
  function MarkAll(data: OrderedMap<string, LearningEvent>, now: nat): (r: OrderedMap<string, LearningEvent>)
    requires data.Valid()
    ensures r.Valid() && r.keys == data.keys && r.items.Keys == data.items.Keys
    ensures forall k | k in r.items :: r.items[k].processed
    ensures forall k | k in data.items && data.items[k].processed :: r.items[k] == data.items[k]
    ensures forall k | k in data.items && !data.items[k].processed ::
      r.items[k] == data.items[k].(processed := true, processedAt := Some(now))
  {
    data.MapValues(e => MarkProcessed(e, now))
  }

  /** `processLearningData` on values: the profiles and the event table
      afterwards. */
  function ProcessedState(ps: map<string, Profile>, data: OrderedMap<string, LearningEvent>, now: nat)
    : (map<string, Profile>, OrderedMap<string, LearningEvent>)
    requires data.Valid()
  {
    var pending := UnprocessedOf(data.Values());
    if pending == [] then (ps, data)
    else
      var run := RunGroups(ps, GroupEventsByType(pending));
      (run.0, if run.1 then data else MarkAll(data, now))
  }

  /** An event still waiting to be processed. */
  predicate Pending(data: OrderedMap<string, LearningEvent>, k: string)
  {
    k in data.items && !data.items[k].processed
  }

  /** A pending event of type `t` puts `t` among the group types. */
  lemma PendingInGroups(data: OrderedMap<string, LearningEvent>, k: string)
    requires data.Valid() && Pending(data, k)
    ensures data.items[k].eventType in Types(GroupEventsByType(UnprocessedOf(data.Values())))
  {
    var pending := UnprocessedOf(data.Values());
    var t := data.items[k].eventType;
    var i :| 0 <= i < |data.keys| && data.keys[i] == k;
    assert data.Values()[i] == data.items[k];
    assert data.items[k] in pending;
    var j :| 0 <= j < |pending| && pending[j] == data.items[k];
    OfTypeEmpty(pending, t);
    GroupEventsByTypeSpec(pending);
  }

  /** Every group type is the type of some pending event. */
  lemma GroupsFromPending(data: OrderedMap<string, LearningEvent>, t: string)
    requires data.Valid()
    requires t in Types(GroupEventsByType(UnprocessedOf(data.Values())))
    ensures exists k | Pending(data, k) :: data.items[k].eventType == t
  {
    var pending := UnprocessedOf(data.Values());
    GroupEventsByTypeSpec(pending);
    OfTypeEmpty(pending, t);
    var j :| 0 <= j < |pending| && pending[j].eventType == t;
    var vs := data.Values();
    assert pending[j] in vs;
    var i :| 0 <= i < |vs| && vs[i] == pending[j];
    assert Pending(data, data.keys[i]);
  }

  /** Processing changes no profile's user, keeps every profile well formed
      and keeps the event table's keys. */
  lemma ProcessedStateOk(ps: map<string, Profile>, data: OrderedMap<string, LearningEvent>, now: nat)
    requires ProfilesOk(ps) && data.Valid()
    ensures var r := ProcessedState(ps, data, now);
      r.0.Keys == ps.Keys && ProfilesOk(r.0) && r.1.Valid() && r.1.keys == data.keys
  {
    var pending := UnprocessedOf(data.Values());
    if pending != [] {
      RunGroupsOk(ps, GroupEventsByType(pending));
    }
  }

  /** Without a pending 'user_feedback' event, every event ends up processed;
      those already processed are untouched, the others are stamped `now`. */
  lemma ProcessedStateMarks(ps: map<string, Profile>, data: OrderedMap<string, LearningEvent>, now: nat)
    requires data.Valid()
    requires forall k | Pending(data, k) :: data.items[k].eventType != "user_feedback"
    ensures var d := ProcessedState(ps, data, now).1;
      && d.keys == data.keys
      && (forall k | k in d.items :: d.items[k].processed)
      && (forall k | k in data.items && data.items[k].processed :: d.items[k] == data.items[k])
      && (forall k | Pending(data, k) ::
            d.items[k] == data.items[k].(processed := true, processedAt := Some(now)))
  {
    var pending := UnprocessedOf(data.Values());
    if pending == [] {
      forall k | k in data.items ensures data.items[k].processed {
        var i :| 0 <= i < |data.keys| && data.keys[i] == k;
        assert data.Values()[i] == data.items[k];
      }
    } else {
      RunGroupsAborts(ps, GroupEventsByType(pending));
      if "user_feedback" in Types(GroupEventsByType(pending)) {
        GroupsFromPending(data, "user_feedback");
      }
    }
  }

  /** A pending 'user_feedback' event makes every run throw before the
      marking step, so the table is left exactly as it was, that event stays
      pending, and the next run throws again. */
  lemma ProcessedStateStuck(ps: map<string, Profile>, data: OrderedMap<string, LearningEvent>, now: nat, k: string)
    requires data.Valid() && Pending(data, k) && data.items[k].eventType == "user_feedback"
    ensures ProcessedState(ps, data, now).1 == data
  {
    PendingInGroups(data, k);
    RunGroupsAborts(ps, GroupEventsByType(UnprocessedOf(data.Values())));
  }

  // ---------------------------------------------------------------
  // Cleanup and statistics
  // ---------------------------------------------------------------

  /** The turns strictly newer than `cutoff`, in order. */
  function KeepAfter(h: seq<Turn>, cutoff: int): (r: seq<Turn>)
    ensures |r| <= |h|
    ensures forall t :: t in r <==> t in h && t.timestamp > cutoff
    ensures HistoryOk(h) ==> HistoryOk(r)
  {
    if h == [] then []
    else (if h[0].timestamp > cutoff then [h[0]] else []) + KeepAfter(h[1..], cutoff)
  }

  /** A filter that drops nothing returns its input. */
  lemma {:induction false} KeepAfterWhole(h: seq<Turn>, cutoff: int)
    requires |KeepAfter(h, cutoff)| == |h|
    ensures KeepAfter(h, cutoff) == h
  {
    if h != [] {
      KeepAfterWhole(h[1..], cutoff);
    }
  }

  /** `learningData.delete(key)` for every event older than `cutoff`. */
  function ForgetEvents(data: OrderedMap<string, LearningEvent>, cutoff: int): (r: OrderedMap<string, LearningEvent>)
    requires data.Valid()
    ensures r.Valid()
    ensures forall k :: k in r.items <==> k in data.items && data.items[k].timestamp >= cutoff
    ensures forall k | k in r.items :: r.items[k] == data.items[k]
  {
    data.Filter(Since(cutoff))
  }

  /** The events `cleanupOldMemories` keeps: those not older than `cutoff`. */
  function Since(cutoff: int): LearningEvent -> bool
  {
    (e: LearningEvent) => e.timestamp >= cutoff
  }

  /** Every history keeps only the turns newer than `cutoff`. */
  function ForgetTurns(m: OrderedMap<string, seq<Turn>>, cutoff: int): (r: OrderedMap<string, seq<Turn>>)
    requires m.Valid()
    ensures r.Valid() && r.keys == m.keys && r.items.Keys == m.items.Keys
    ensures forall u | u in m.items :: r.items[u] == KeepAfter(m.items[u], cutoff)
  {
    m.MapValues(h => KeepAfter(h, cutoff))
  }

  /** The sum of the history lengths, in key order. */
  function SumTurns(ks: seq<string>, items: map<string, seq<Turn>>): nat
    requires forall i | 0 <= i < |ks| :: ks[i] in items
  {
    if ks == [] then 0 else |items[ks[0]]| + SumTurns(ks[1..], items)
  }

  lemma {:induction false} SumTurnsBound(ks: seq<string>, items: map<string, seq<Turn>>)
    requires forall i | 0 <= i < |ks| :: ks[i] in items && HistoryOk(items[ks[i]])
    ensures SumTurns(ks, items) <= MaxConversationHistory * |ks|
  {
    if ks != [] {
      SumTurnsBound(ks[1..], items);
    }
  }

  datatype MemoryStats = MemoryStats(users: nat, conversations: nat, learningEvents: nat, contextEntries: nat)

  /** The value of `satisfactionScore` after one `recordUserFeedback`: the
      midpoint of the old score and the new rating. */
  function HalvedScore(current: real, satisfaction: real): (r: real)
    ensures r - current == satisfaction - r
    ensures Min2(current, satisfaction) <= r <= Max2(current, satisfaction)
  {
    (current + satisfaction) / 2.0
  }

  function Min2(a: real, b: real): real
  {
    if a <= b then a else b
  }

  function Max2(a: real, b: real): real
  {
    if a <= b then b else a
  }

  /** A score on the 0-5 scale stays there when a 1-5 rating arrives. */
  lemma HalvedScoreInRange(current: real, satisfaction: real)
    requires 0.0 <= current <= 5.0 && 1.0 <= satisfaction <= 5.0
    ensures 0.5 <= HalvedScore(current, satisfaction) <= 5.0
  {
  }

  // ---------------------------------------------------------------
  // Context for a response
  // ---------------------------------------------------------------

  datatype UserView = UserView(role: string, department: string, expertise: seq<string>,
    preferredStyle: string, commonTasks: seq<string>)

  datatype ConversationView = ConversationView(recentTopics: seq<string>, lastInteraction: nat, sessionLength: nat)

  datatype LearningView = LearningView(successfulTopics: seq<string>, problematicAreas: seq<string>,
    improvementNeeded: seq<string>)

  datatype ResponseContext = ResponseContext(userProfile: UserView, conversationContext: ConversationView,
    learningInsights: LearningView)

  /** The context object built from a profile and the recent turns. */
  function ContextFrom(p: Profile, recent: seq<HistoryEntry>): (r: ResponseContext)
    ensures |r.conversationContext.recentTopics| == r.conversationContext.sessionLength == |recent|
    ensures forall i | 0 <= i < |recent| ::
      r.conversationContext.recentTopics[i] == ExtractTopicFromMessage(recent[i].userMessage)
    ensures r.userProfile.role == p.businessContext.role && r.userProfile.department == p.businessContext.department
    ensures r.userProfile.expertise == p.businessContext.expertise
    ensures r.userProfile.commonTasks == p.businessContext.commonTasks
    ensures r.userProfile.preferredStyle == p.preferences.responseStyle
    ensures r.conversationContext.lastInteraction == p.lastInteraction
    ensures r.learningInsights.successfulTopics == p.preferences.preferredTopics
    ensures r.learningInsights.problematicAreas == p.learning.problematicTopics
    ensures r.learningInsights.improvementNeeded == p.learning.improvementAreas
  {
    ResponseContext(
      UserView(p.businessContext.role, p.businessContext.department, p.businessContext.expertise,
        p.preferences.responseStyle, p.businessContext.commonTasks),
      ConversationView(seq(|recent|, i requires 0 <= i < |recent| => ExtractTopicFromMessage(recent[i].userMessage)),
        p.lastInteraction, |recent|),
      LearningView(p.preferences.preferredTopics, p.learning.problematicTopics, p.learning.improvementAreas))
  }

  /** `recordLearningEvent` on values: the event is filed under its key, and
      once the table holds `LearningThreshold` events a processing run
      follows. */
  function AfterRecord(ps: map<string, Profile>, data: OrderedMap<string, LearningEvent>, key: string,
    e: LearningEvent, now: nat): (map<string, Profile>, OrderedMap<string, LearningEvent>)
    requires data.Valid()
  {
    var staged := data.Set(key, e);
    if staged.Size() >= LearningThreshold then ProcessedState(ps, staged, now) else (ps, staged)
  }

  /** A recorded event stays in the table under its key, waiting or processed
      at `now`; below the threshold the profiles are untouched. */
  lemma AfterRecordHolds(ps: map<string, Profile>, data: OrderedMap<string, LearningEvent>, key: string,
    e: LearningEvent, now: nat)
    requires ProfilesOk(ps) && data.Valid() && !e.processed
    ensures var r := AfterRecord(ps, data, key, e, now);
      && ProfilesOk(r.0) && r.0.Keys == ps.Keys && r.1.Valid()
      && key in r.1.items
      && (r.1.items[key] == e || r.1.items[key] == e.(processed := true, processedAt := Some(now)))
      && (data.Set(key, e).Size() < LearningThreshold ==> r == (ps, data.Set(key, e)))
  {
    var staged := data.Set(key, e);
    ProcessedStateOk(ps, staged, now);
  }

  /** The state of the event table after the first `i` entries of the
      original order `ks` have been visited by the cleanup loop. */
  ghost predicate Scanned(d: OrderedMap<string, LearningEvent>, ks: seq<string>, items: map<string, LearningEvent>,
    cutoff: int, i: int)
  {
    && 0 <= i <= |ks|
    && (forall a, b | 0 <= a < b < |ks| :: ks[a] != ks[b])
    && (forall a | 0 <= a < |ks| :: ks[a] in items)
    && (forall k | k in items :: k in ks)
    && d.Valid()
    && d.keys == FilterKeys(ks[..i], items, Since(cutoff)) + ks[i..]
    && (forall k | k in d.items :: k in items && d.items[k] == items[k])
  }

  lemma ScannedStart(d: OrderedMap<string, LearningEvent>, cutoff: int)
    requires d.Valid()
    ensures Scanned(d, d.keys, d.items, cutoff, 0)
  {
    assert d.keys[..0] == [];
    assert d.keys[0..] == d.keys;
  }

  lemma ScannedKeep(d: OrderedMap<string, LearningEvent>, ks: seq<string>, items: map<string, LearningEvent>,
    cutoff: int, i: int)
    requires Scanned(d, ks, items, cutoff, i) && i < |ks| && Since(cutoff)(items[ks[i]])
    ensures Scanned(d, ks, items, cutoff, i + 1)
  {
    KeepKeys(ks, items, Since(cutoff), i);
  }

  /** Keeping the `i`-th key of the scan moves it from the unvisited
      suffix to the kept prefix. */
  lemma KeepKeys(ks: seq<string>, items: map<string, LearningEvent>, keep: LearningEvent -> bool, i: int)
    requires 0 <= i < |ks| && (forall a | 0 <= a < |ks| :: ks[a] in items) && keep(items[ks[i]])
    ensures FilterKeys(ks[..i + 1], items, keep) + ks[i + 1..] == FilterKeys(ks[..i], items, keep) + ks[i..]
  {
    var key := ks[i];
    var pre := FilterKeys(ks[..i], items, keep);
    FilterKeysSnoc(ks[..i], key, items, keep);
    assert ks[..i + 1] == ks[..i] + [key];
    assert ks[i..] == [key] + ks[i + 1..];
    assert (pre + [key]) + ks[i + 1..] == pre + ([key] + ks[i + 1..]);
  }

  lemma ScannedRemove(d: OrderedMap<string, LearningEvent>, ks: seq<string>, items: map<string, LearningEvent>,
    cutoff: int, i: int)
    requires Scanned(d, ks, items, cutoff, i) && i < |ks| && !Since(cutoff)(items[ks[i]])
    ensures Scanned(d.Remove(ks[i]), ks, items, cutoff, i + 1)
  {
    var key := ks[i];
    ScannedRemoveKeys(ks, items, Since(cutoff), i);
    var d' := d.Remove(key);
    assert d'.keys == FilterKeys(ks[..i + 1], items, Since(cutoff)) + ks[i + 1..];
  }

  /** The key order after deleting the `i`-th key of the scan. */
  lemma ScannedRemoveKeys(ks: seq<string>, items: map<string, LearningEvent>, keep: LearningEvent -> bool, i: int)
    requires 0 <= i < |ks|
    requires forall a, b | 0 <= a < b < |ks| :: ks[a] != ks[b]
    requires forall a | 0 <= a < |ks| :: ks[a] in items
    requires !keep(items[ks[i]])
    ensures var pre := FilterKeys(ks[..i], items, keep);
      && FilterKeys(ks[..i + 1], items, keep) == pre
      && RemoveFrom(pre + ks[i..], ks[i]) == pre + ks[i + 1..]
  {
    var key := ks[i];
    var pre := FilterKeys(ks[..i], items, keep);
    FilterKeysValid(ks[..i], items, keep);
    FilterKeysSnoc(ks[..i], key, items, keep);
    assert ks[..i + 1] == ks[..i] + [key];
    assert ks[i..] == [key] + ks[i + 1..];
    assert key !in ks[..i];
    assert key !in pre;
    assert key !in ks[i + 1..];
    RemoveFromMiddle(pre, key, ks[i + 1..]);
    assert pre + ks[i..] == pre + [key] + ks[i + 1..];
  }

  lemma ScannedAll(d: OrderedMap<string, LearningEvent>, ks: seq<string>, items: map<string, LearningEvent>,
    cutoff: int)
    requires Scanned(d, ks, items, cutoff, |ks|)
    ensures d == ForgetEvents(OrderedMap(ks, items), cutoff)
  {
    assert ks[..|ks|] == ks;
    assert ks[|ks|..] == [];
    var r := ForgetEvents(OrderedMap(ks, items), cutoff);
    assert d.keys == r.keys;
    forall k ensures k in d.items <==> k in r.items {
      assert k in d.items <==> k in d.keys;
      assert k in r.items <==> k in r.keys;
    }
    assert d.items == r.items;
  }

  /** The first loop of `cleanupOldMemories`: `learningData.delete(key)`
      for each event older than `cutoff`, while iterating the entries. */
  method DeleteOldEvents(learningData: OrderedMap<string, LearningEvent>, cutoff: int)
    returns (data: OrderedMap<string, LearningEvent>)
    requires learningData.Valid()
    ensures data == ForgetEvents(learningData, cutoff)
  {
    var ks := learningData.keys;
    var items := learningData.items;
    data := learningData;
    ScannedStart(learningData, cutoff);
    var i := 0;
    while i < |ks|
      invariant 0 <= i <= |ks|
      invariant Scanned(data, ks, items, cutoff, i)
    {
      var key := ks[i];
      var event := items[key];
      if event.timestamp < cutoff {
        ScannedRemove(data, ks, items, cutoff, i);
        data := data.Remove(key);
      } else {
        ScannedKeep(data, ks, items, cutoff, i);
      }
      i := i + 1;
    }
    ScannedAll(data, ks, items, cutoff);
  }

  /** The second loop of `cleanupOldMemories`: each history that lost turns
      to the filter is set back in place. */
  method FilterOldTurns(conversationMemory: OrderedMap<string, seq<Turn>>, cutoff: int)
    returns (memory: OrderedMap<string, seq<Turn>>)
    requires conversationMemory.Valid()
    ensures memory == ForgetTurns(conversationMemory, cutoff)
  {
    var us := conversationMemory.keys;
    var histories := conversationMemory.items;
    memory := conversationMemory;
    var j := 0;
    while j < |us|
      invariant 0 <= j <= |us|
      invariant Filtered(memory, us, histories, cutoff, j)
    {
      var conversations := memory.items[us[j]];
      var filtered := KeepAfter(conversations, cutoff);
      if |filtered| != |conversations| {
        FilteredSet(memory, us, histories, cutoff, j);
        memory := memory.Set(us[j], filtered);
      } else {
        FilteredSame(memory, us, histories, cutoff, j);
      }
      j := j + 1;
    }
    ForgottenTurns(memory, conversationMemory, cutoff);
  }

  /** The history table after the first `j` users of `us` were filtered. */
  ghost predicate Filtered(memory: OrderedMap<string, seq<Turn>>, us: seq<string>,
    histories: map<string, seq<Turn>>, cutoff: int, j: int)
  {
    && 0 <= j <= |us|
    && memory.Valid() && memory.keys == us && memory.items.Keys == histories.Keys
    && (forall k | 0 <= k < j :: memory.items[us[k]] == KeepAfter(histories[us[k]], cutoff))
    && (forall k | j <= k < |us| :: memory.items[us[k]] == histories[us[k]])
  }

  lemma FilteredSet(memory: OrderedMap<string, seq<Turn>>, us: seq<string>,
    histories: map<string, seq<Turn>>, cutoff: int, j: int)
    requires Filtered(memory, us, histories, cutoff, j) && j < |us|
    ensures Filtered(memory.Set(us[j], KeepAfter(memory.items[us[j]], cutoff)), us, histories, cutoff, j + 1)
  {
    var m' := memory.Set(us[j], KeepAfter(memory.items[us[j]], cutoff));
    forall k | 0 <= k < |us| && k != j ensures us[k] != us[j] {
      if k < j {
        assert memory.keys[k] != memory.keys[j];
      } else {
        assert memory.keys[j] != memory.keys[k];
      }
    }
  }

  lemma FilteredSame(memory: OrderedMap<string, seq<Turn>>, us: seq<string>,
    histories: map<string, seq<Turn>>, cutoff: int, j: int)
    requires Filtered(memory, us, histories, cutoff, j) && j < |us|
    requires |KeepAfter(memory.items[us[j]], cutoff)| == |memory.items[us[j]]|
    ensures Filtered(memory, us, histories, cutoff, j + 1)
  {
    KeepAfterWhole(memory.items[us[j]], cutoff);
  }

  /** Forgetting old turns keeps every history well formed. */
  lemma ForgottenTurnsOk(m: OrderedMap<string, seq<Turn>>, cutoff: int)
    requires m.Valid() && forall u | u in m.items :: HistoryOk(m.items[u])
    ensures forall u | u in ForgetTurns(m, cutoff).items :: HistoryOk(ForgetTurns(m, cutoff).items[u])
  {
  }

  /** The end of the history loop: each history was filtered in place, which
      is `ForgetTurns`. */
  lemma ForgottenTurns(r: OrderedMap<string, seq<Turn>>, m: OrderedMap<string, seq<Turn>>, cutoff: int)
    requires m.Valid() && r.Valid() && r.keys == m.keys && r.items.Keys == m.items.Keys
    requires forall k | 0 <= k < |m.keys| :: r.items[m.keys[k]] == KeepAfter(m.items[m.keys[k]], cutoff)
    ensures r == ForgetTurns(m, cutoff)
  {
    var f := ForgetTurns(m, cutoff);
    forall u | u in m.items ensures r.items[u] == f.items[u] {
      var k :| 0 <= k < |m.keys| && m.keys[k] == u;
    }
    assert r.items == f.items;
  }

  /** Storing a well-formed profile under its own id keeps the table well
      formed. */
  lemma StoredProfileOk(ps: map<string, Profile>, userId: string, p: Profile)
    requires ProfilesOk(ps) && p.userId == userId && ProfileOk(p)
    ensures ProfilesOk(ps[userId := p])
  {
  }

  // ---------------------------------------------------------------
  // The memory manager
  // ---------------------------------------------------------------

  /** `MeshMemoryManager`: the conversation histories by user, the profiles
      by user and the learning events by key. The `contextMemory` map of the
      original is never written and is left out; it always has size 0. */
  class MeshMemoryManager {
    var conversationMemory: OrderedMap<string, seq<Turn>>
    var userProfiles: map<string, Profile>
    var learningData: OrderedMap<string, LearningEvent>

    ghost predicate Valid()
      reads this
    {
      && conversationMemory.Valid()
      && learningData.Valid()
      && (forall u | u in conversationMemory.items :: HistoryOk(conversationMemory.items[u]))
      && ProfilesOk(userProfiles)
    }

    constructor()
      ensures Valid()
      ensures conversationMemory == Empty() && userProfiles == map[] && learningData == Empty()
    {
      conversationMemory := Empty();
      userProfiles := map[];
      learningData := Empty();
    }

    /** `getConversationHistory(userId, limit)`. */
    function GetConversationHistory(userId: string, limit: int): (r: seq<HistoryEntry>)
      reads this
      ensures userId !in conversationMemory.items ==> r == []
      ensures var h := Stored(conversationMemory, userId);
        && (limit > 0 ==> |r| == Min(limit, |h|))
        && (limit == 0 ==> |r| == |h|)
        && (limit < 0 ==> |r| == |h| - Min(-limit, |h|))
      ensures |r| <= |Stored(conversationMemory, userId)|
      ensures forall i | 0 <= i < |r| ::
        var h := Stored(conversationMemory, userId);
        var t := h[|h| - |r| + i];
        && r[i].timestamp == t.timestamp && r[i].userMessage == t.userMessage
        && r[i].botResponse == t.botResponse && r[i].channel == t.metadata.channel
    {
      Recent(Stored(conversationMemory, userId), limit)
    }

    /** `getUserProfile(userId)`: the stored profile, or a fresh default that
        is not stored. */
    function GetUserProfile(userId: string, now: nat): (p: Profile)
      reads this
      requires Valid()
      ensures userId in userProfiles ==> p == userProfiles[userId]
      ensures userId !in userProfiles ==> p == CreateDefaultProfile(userId, now)
      ensures p.userId == userId && ProfileOk(p)
    {
      if userId in userProfiles then userProfiles[userId] else CreateDefaultProfile(userId, now)
    }

    /** `updateUserProfile(userId, updates)`: create the profile if missing,
        assign the updates, stamp it, re-analyse it against the last 20 turns
        and return it. */
    method UpdateUserProfile(userId: string, updates: ProfileUpdates, now: nat) returns (p: Profile)
      requires Valid()
      modifies this
      ensures Valid()
      ensures userProfiles == old(userProfiles)[userId := p]
      ensures p == AnalyzeUserPatterns(Assign(old(GetUserProfile(userId, now)), updates).(lastUpdated := now),
        GetConversationHistory(userId, PatternWindow))
      ensures conversationMemory == old(conversationMemory) && learningData == old(learningData)
    {
      var profile := GetUserProfile(userId, now);
      profile := Assign(profile, updates).(lastUpdated := now);
      profile := AnalyzeUserPatterns(profile, GetConversationHistory(userId, PatternWindow));
      StoredProfileOk(userProfiles, userId, profile);
      userProfiles := userProfiles[userId := profile];
      p := profile;
    }

    /** `saveConversation`: append the turn, keep the last 50, and record the
        activity on the profile. */
    method SaveConversation(userId: string, userMessage: string, botResponse: string, metadata: SaveMetadata, now: nat)
      returns (saved: bool)
      requires Valid()
      modifies this
      ensures Valid() && saved
      ensures conversationMemory == old(conversationMemory).Set(userId,
        Appended(Stored(old(conversationMemory), userId), NewTurn(userMessage, botResponse, metadata, now)))
      ensures userId in userProfiles && userProfiles == old(userProfiles)[userId := userProfiles[userId]]
      ensures userProfiles[userId].lastInteraction == now && userProfiles[userId].lastUpdated == now
      ensures userProfiles[userId].totalInteractions == |conversationMemory.items[userId]|
      ensures userProfiles[userId] == AnalyzeUserPatterns(
        Assign(old(GetUserProfile(userId, now)), Activity(now, |conversationMemory.items[userId]|)).(lastUpdated := now),
        GetConversationHistory(userId, PatternWindow))
      ensures learningData == old(learningData)
    {
      var turn := NewTurn(userMessage, botResponse, metadata, now);
      var conversation := Stored(conversationMemory, userId);
      ghost var before := conversation;
      conversation := conversation + [turn];
      if |conversation| > MaxConversationHistory {
        conversation := conversation[|conversation| - MaxConversationHistory..];
      }
      assert conversation == Appended(before, turn);
      AppendedOk(before, turn);
      conversationMemory := conversationMemory.Set(userId, conversation);
      var profile := UpdateUserProfile(userId, Activity(now, |conversation|), now);
      saved := true;
    }

    /** `learnFromSuccessfulInteractions`. */
    method LearnFromSuccessfulInteractions(events: seq<LearningEvent>)
      requires Valid()
      modifies this
      ensures Valid()
      ensures userProfiles == SuccessFold(old(userProfiles), events)
      ensures conversationMemory == old(conversationMemory) && learningData == old(learningData)
    {
      var i := 0;
      while i < |events|
        invariant 0 <= i <= |events|
        invariant Valid()
        invariant SuccessFold(userProfiles, events[i..]) == SuccessFold(old(userProfiles), events)
        invariant conversationMemory == old(conversationMemory) && learningData == old(learningData)
      {
        var event := events[i];
        ghost var before := userProfiles;
        // An unknown user gets a fresh default profile that is never stored.
        if event.userId != "" && event.userId in userProfiles {
          var profile := userProfiles[event.userId];
          var learning := profile.learning.(successfulInteractions := profile.learning.successfulInteractions + 1);
          var topics := profile.preferences.preferredTopics;
          if event.data.topic != "" {
            topics := AddNew(topics, event.data.topic);
          }
          userProfiles := userProfiles[event.userId := profile.(learning := learning,
            preferences := profile.preferences.(preferredTopics := topics))];
        }
        assert userProfiles == SuccessStep(before, event);
        SuccessStepOk(before, event);
        assert events[i..][1..] == events[i + 1..];
        i := i + 1;
      }
    }

    /** `learnFromFailedInteractions`. */
    method LearnFromFailedInteractions(events: seq<LearningEvent>)
      requires Valid()
      modifies this
      ensures Valid()
      ensures userProfiles == FailureFold(old(userProfiles), events)
      ensures conversationMemory == old(conversationMemory) && learningData == old(learningData)
    {
      var i := 0;
      while i < |events|
        invariant 0 <= i <= |events|
        invariant Valid()
        invariant FailureFold(userProfiles, events[i..]) == FailureFold(old(userProfiles), events)
        invariant conversationMemory == old(conversationMemory) && learningData == old(learningData)
      {
        var event := events[i];
        ghost var before := userProfiles;
        if event.userId != "" && event.userId in userProfiles {
          var profile := userProfiles[event.userId];
          var topics := profile.learning.problematicTopics;
          var areas := profile.learning.improvementAreas;
          if event.data.topic != "" {
            topics := AddNew(topics, event.data.topic);
          }
          if event.data.improvementArea != "" {
            areas := AddNew(areas, event.data.improvementArea);
          }
          userProfiles := userProfiles[event.userId := profile.(learning :=
            profile.learning.(problematicTopics := topics, improvementAreas := areas))];
        }
        assert userProfiles == FailureStep(before, event);
        FailureStepOk(before, event);
        assert events[i..][1..] == events[i + 1..];
        i := i + 1;
      }
    }

    /** `learnFromSkillUsage`: count the `${userId}_${skillName}` keys, then
        walk the counter. */
    method LearnFromSkillUsage(events: seq<LearningEvent>)
      requires Valid()
      modifies this
      ensures Valid()
      ensures userProfiles == SkillUsage(old(userProfiles), events)
      ensures conversationMemory == old(conversationMemory) && learningData == old(learningData)
    {
      var usage := CountSkillUsage(events);
      var j := 0;
      while j < |usage|
        invariant 0 <= j <= |usage|
        invariant Valid()
        invariant SkillFold(userProfiles, usage[j..]) == SkillFold(old(userProfiles), usage)
        invariant conversationMemory == old(conversationMemory) && learningData == old(learningData)
      {
        var split := SplitKey(usage[j].0);
        ghost var before := userProfiles;
        var userId := split.0;
        var skillName := split.1;
        if usage[j].1 >= 3 && userId in userProfiles
          && skillName !in userProfiles[userId].businessContext.commonTasks
        {
          var profile := userProfiles[userId];
          userProfiles := userProfiles[userId := profile.(businessContext :=
            profile.businessContext.(commonTasks := profile.businessContext.commonTasks + [skillName]))];
        }
        assert userProfiles == SkillStep(before, usage[j]);
        SkillStepOk(before, usage[j]);
        assert usage[j..][1..] == usage[j + 1..];
        j := j + 1;
      }
    }

    /** `processEventGroup`: dispatch on the type. The 'user_feedback' case
        calls `learnFromUserFeedback`, which the class does not define, so it
        throws a TypeError before changing anything; `thrown` reports it. */
    method ProcessEventGroup(eventType: string, events: seq<LearningEvent>) returns (thrown: bool)
      requires Valid()
      modifies this
      ensures Valid()
      ensures thrown <==> eventType == "user_feedback"
      ensures userProfiles == GroupEffect(old(userProfiles), EventGroup(eventType, events))
      ensures conversationMemory == old(conversationMemory) && learningData == old(learningData)
    {
      thrown := false;
      if eventType == "successful_interaction" {
        LearnFromSuccessfulInteractions(events);
      } else if eventType == "failed_interaction" {
        LearnFromFailedInteractions(events);
      } else if eventType == "user_feedback" {
        thrown := true;
      } else if eventType == "skill_usage" {
        LearnFromSkillUsage(events);
      }
    }

    /** `processLearningData`: run the groups of the unprocessed events in
        order, then mark the events processed. A group that throws ends the
        run; the error is caught and nothing is marked. */
    method ProcessLearningData(now: nat)
      requires Valid()
      modifies this
      ensures Valid()
      ensures (userProfiles, learningData) == ProcessedState(old(userProfiles), old(learningData), now)
      ensures conversationMemory == old(conversationMemory)
    {
      var unprocessed := UnprocessedOf(learningData.Values());
      if |unprocessed| == 0 {
        return;
      }
      var groups := GroupEventsByType(unprocessed);
      var i := 0;
      while i < |groups|
        invariant 0 <= i <= |groups|
        invariant Valid()
        invariant RunGroups(userProfiles, groups[i..]) == RunGroups(old(userProfiles), groups)
        invariant conversationMemory == old(conversationMemory) && learningData == old(learningData)
      {
        var thrown := ProcessEventGroup(groups[i].eventType, groups[i].events);
        if thrown {
          return;
        }
        assert groups[i..][1..] == groups[i + 1..];
        i := i + 1;
      }
      learningData := MarkAll(learningData, now);
    }

    /** `recordLearningEvent(eventType, data, userId)`. */
    method RecordLearningEvent(eventType: string, data: EventData, userId: string, now: nat)
      requires Valid()
      modifies this
      ensures Valid()
      ensures (userProfiles, learningData)
        == AfterRecord(old(userProfiles), old(learningData), EventKey(eventType, now),
             LearningEvent(eventType, now, userId, data, false, None), now)
      ensures conversationMemory == old(conversationMemory)
    {
      var key := EventKey(eventType, now);
      learningData := learningData.Set(key, LearningEvent(eventType, now, userId, data, false, None));
      if learningData.Size() >= LearningThreshold {
        ProcessLearningData(now);
      }
    }

    /** `recordSuccessfulInteraction(userId, topic, context)`. */
    method RecordSuccessfulInteraction(userId: string, topic: string, now: nat)
      requires Valid()
      modifies this
      ensures Valid()
      ensures (userProfiles, learningData)
        == AfterRecord(old(userProfiles), old(learningData), EventKey("successful_interaction", now),
             LearningEvent("successful_interaction", now, userId, EventData(topic, "", ""), false, None), now)
      ensures conversationMemory == old(conversationMemory)
    {
      RecordLearningEvent("successful_interaction", EventData(topic, "", ""), userId, now);
    }

    /** `recordFailedInteraction(userId, topic, reason, context)`: the event
        carries no improvement area. */
    method RecordFailedInteraction(userId: string, topic: string, now: nat)
      requires Valid()
      modifies this
      ensures Valid()
      ensures (userProfiles, learningData)
        == AfterRecord(old(userProfiles), old(learningData), EventKey("failed_interaction", now),
             LearningEvent("failed_interaction", now, userId, EventData(topic, "", ""), false, None), now)
      ensures conversationMemory == old(conversationMemory)
    {
      RecordLearningEvent("failed_interaction", EventData(topic, "", ""), userId, now);
    }

    /** `recordSkillUsage(userId, skillName, success, executionTime)`. */
    method RecordSkillUsage(userId: string, skillName: string, now: nat)
      requires Valid()
      modifies this
      ensures Valid()
      ensures (userProfiles, learningData)
        == AfterRecord(old(userProfiles), old(learningData), EventKey("skill_usage", now),
             LearningEvent("skill_usage", now, userId, EventData("", "", skillName), false, None), now)
      ensures conversationMemory == old(conversationMemory)
    {
      RecordLearningEvent("skill_usage", EventData("", "", skillName), userId, now);
    }

    /** `recordUserFeedback(userId, satisfaction, feedback)`: record the
        event, then move a stored profile's score halfway to the rating. The
        score of an unknown user lands on a default profile that is not
        stored. */
    method RecordUserFeedback(userId: string, satisfaction: real, now: nat)
      requires Valid()
      modifies this
      ensures Valid()
      ensures var r := AfterRecord(old(userProfiles), old(learningData), EventKey("user_feedback", now),
          LearningEvent("user_feedback", now, userId, EventData("", "", ""), false, None), now);
        && learningData == r.1
        && (userId in r.0 ==> userProfiles == r.0[userId := r.0[userId].(learning :=
              r.0[userId].learning.(satisfactionScore := HalvedScore(r.0[userId].learning.satisfactionScore, satisfaction)))])
        && (userId !in r.0 ==> userProfiles == r.0)
      ensures conversationMemory == old(conversationMemory)
    {
      RecordLearningEvent("user_feedback", EventData("", "", ""), userId, now);
      if userId in userProfiles {
        var profile := userProfiles[userId];
        userProfiles := userProfiles[userId := profile.(learning :=
          profile.learning.(satisfactionScore := HalvedScore(profile.learning.satisfactionScore, satisfaction)))];
      }
    }

    /** `cleanupOldMemories`: delete the events older than a week, then cut
        every history down to the turns newer than a week. */
    method CleanupOldMemories(now: nat)
      requires Valid()
      modifies this
      ensures Valid()
      ensures learningData == ForgetEvents(old(learningData), now - RetentionWindow)
      ensures conversationMemory == ForgetTurns(old(conversationMemory), now - RetentionWindow)
      ensures userProfiles == old(userProfiles)
    {
      var cutoff := now - RetentionWindow;
      learningData := DeleteOldEvents(learningData, cutoff);
      var memory := FilterOldTurns(conversationMemory, cutoff);
      ForgottenTurnsOk(conversationMemory, cutoff);
      conversationMemory := memory;
    }

    /** `getMemoryStats()`. */
    function GetMemoryStats(): (r: MemoryStats)
      reads this
      requires Valid()
      ensures r.users == |userProfiles| && r.learningEvents == learningData.Size() && r.contextEntries == 0
      ensures r.conversations == SumTurns(conversationMemory.keys, conversationMemory.items)
      ensures r.conversations <= MaxConversationHistory * conversationMemory.Size()
    {
      SumTurnsBound(conversationMemory.keys, conversationMemory.items);
      MemoryStats(|userProfiles|, SumTurns(conversationMemory.keys, conversationMemory.items), learningData.Size(), 0)
    }

    /** `getContextForResponse(userId, currentMessage)`. */
    function GetContextForResponse(userId: string, now: nat): (r: ResponseContext)
      reads this
      requires Valid()
      ensures var h := Stored(conversationMemory, userId);
        var n := r.conversationContext.sessionLength;
        && n == Min(ContextWindow, |h|) && |r.conversationContext.recentTopics| == n
        && (forall i | 0 <= i < n :: r.conversationContext.recentTopics[i] == ExtractTopicFromMessage(h[|h| - n + i].userMessage))
      ensures var p := GetUserProfile(userId, now);
        && r.userProfile.role == p.businessContext.role
        && r.userProfile.department == p.businessContext.department
        && r.userProfile.expertise == p.businessContext.expertise
        && r.userProfile.preferredStyle == p.preferences.responseStyle
        && r.userProfile.commonTasks == p.businessContext.commonTasks
      ensures r.conversationContext.lastInteraction == GetUserProfile(userId, now).lastInteraction
      ensures var p := GetUserProfile(userId, now);
        && r.learningInsights.successfulTopics == p.preferences.preferredTopics
        && r.learningInsights.problematicAreas == p.learning.problematicTopics
        && r.learningInsights.improvementNeeded == p.learning.improvementAreas
    {
      ContextFrom(GetUserProfile(userId, now), GetConversationHistory(userId, ContextWindow))
    }
  }
}
