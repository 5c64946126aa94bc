/** The analysis side of the learning engine: keyword-bucket counting over the
    user's messages, communication-style ratios, skill preferences, skill and
    style recommendations, feedback categories and scores, the confidence
    step function and the satisfaction trend, and the feedback update it
    writes through the memory manager. Divisions are exact (`real`); a
    JavaScript division by zero (NaN) is `None`. */
module Learning {
  import opened Text
  import opened Results
  import opened Ranking
  import MemoryManager

  /** A message of a conversation in the shape the engine reads. */
  datatype Message = Message(role: string, content: string)

  /** `skillUsed` is absent on most conversations. */
  datatype ConversationMeta = ConversationMeta(skillUsed: Option<string>, timestamp: nat)

  datatype Conversation = Conversation(messages: seq<Message>, metadata: ConversationMeta)

  /** The contents of the messages whose role is 'user', in order. */
  function MessageContents(msgs: seq<Message>): seq<string>
  {
    if msgs == [] then []
    else
      var m := msgs[|msgs| - 1];
      MessageContents(msgs[..|msgs| - 1]) + (if m.role == "user" then [m.content] else [])
  }

  /** The user's messages over all conversations, in order. */
  function UserContents(convs: seq<Conversation>): seq<string>
  {
    if convs == [] then []
    else UserContents(convs[..|convs| - 1]) + MessageContents(convs[|convs| - 1].messages)
  }

  // ---------------------------------------------------------------
  // Keyword buckets
  // ---------------------------------------------------------------

  /** A named keyword list: an entry of a `{ name: [words] }` table. */
  type Bucket = (string, seq<string>)

  predicate DistinctNames(buckets: seq<Bucket>)
  {
    forall i, j | 0 <= i < j < |buckets| :: buckets[i].0 != buckets[j].0
  }

  /** The names of the buckets with a word contained in `text`, in table
      order: one message counts for each bucket at most once. */
  function Matching(text: string, buckets: seq<Bucket>): seq<string>
  {
    if buckets == [] then []
    else
      var b := buckets[|buckets| - 1];
      Matching(text, buckets[..|buckets| - 1]) + (if ContainsAny(text, b.1) then [b.0] else [])
  }

  /** The bucket names counted for a sequence of messages, each lower-cased. */
  function HitsOf(contents: seq<string>, buckets: seq<Bucket>): seq<string>
  {
    if contents == [] then []
    else HitsOf(contents[..|contents| - 1], buckets) + Matching(Lower(contents[|contents| - 1]), buckets)
  }

  /** The number of messages whose lower-case form contains one of `words`. */
  function Matches(contents: seq<string>, words: seq<string>): (r: nat)
    ensures r <= |contents|
  {
    if contents == [] then 0
    else Matches(contents[..|contents| - 1], words) + (if ContainsAny(Lower(contents[|contents| - 1]), words) then 1 else 0)
  }

  /** No message matches exactly when the count is zero, and every message
      matches exactly when the count is the number of messages. */
  lemma {:induction false} MatchesExtremes(contents: seq<string>, words: seq<string>)
    ensures Matches(contents, words) == 0 <==> forall i | 0 <= i < |contents| :: !ContainsAny(Lower(contents[i]), words)
    ensures Matches(contents, words) == |contents| <==> forall i | 0 <= i < |contents| :: ContainsAny(Lower(contents[i]), words)
  {
    if contents != [] {
      var front := contents[..|contents| - 1];
      MatchesExtremes(front, words);
      assert forall i | 0 <= i < |front| :: front[i] == contents[i];
    }
  }

  lemma {:induction false} MatchingOther(text: string, buckets: seq<Bucket>, k: string)
    requires forall j | 0 <= j < |buckets| :: buckets[j].0 != k
    ensures Occurrences(Matching(text, buckets), k) == 0
  {
    if buckets != [] {
      MatchingOther(text, buckets[..|buckets| - 1], k);
    }
  }

  /** Each bucket is counted once for a message that matches it, else not. */
  lemma {:induction false} MatchingOnce(text: string, buckets: seq<Bucket>, i: int)
    requires DistinctNames(buckets) && 0 <= i < |buckets|
    ensures Occurrences(Matching(text, buckets), buckets[i].0) == if ContainsAny(text, buckets[i].1) then 1 else 0
  {
    var n := |buckets| - 1;
    var init := buckets[..n];
    if i == n {
      MatchingOther(text, init, buckets[i].0);
    } else {
      assert init[i] == buckets[i];
      MatchingOnce(text, init, i);
    }
  }

  /** The count of a bucket over a sequence of messages is the number of
      messages that match it. */
  lemma {:induction false} HitsCount(contents: seq<string>, buckets: seq<Bucket>, i: int)
    requires DistinctNames(buckets) && 0 <= i < |buckets|
    ensures Occurrences(HitsOf(contents, buckets), buckets[i].0) == Matches(contents, buckets[i].1)
  {
    if contents != [] {
      HitsCount(contents[..|contents| - 1], buckets, i);
      MatchingOnce(Lower(contents[|contents| - 1]), buckets, i);
    }
  }

  /** Only bucket names are counted. */
  lemma {:induction false} HitsOther(contents: seq<string>, buckets: seq<Bucket>, k: string)
    requires forall j | 0 <= j < |buckets| :: buckets[j].0 != k
    ensures Occurrences(HitsOf(contents, buckets), k) == 0
  {
    if contents != [] {
      HitsOther(contents[..|contents| - 1], buckets, k);
      MatchingOther(Lower(contents[|contents| - 1]), buckets, k);
    }
  }

  lemma HitsSnoc(contents: seq<string>, c: string, buckets: seq<Bucket>)
    ensures HitsOf(contents + [c], buckets) == HitsOf(contents, buckets) + Matching(Lower(c), buckets)
  {
    assert (contents + [c])[..|contents|] == contents;
  }

  /** One message: `Object.entries(keywords).forEach(...)`, bumping the
      counter of every bucket that has a word in `text`. */
  method CountMessage(counts: Tally, text: string, buckets: seq<Bucket>) returns (r: Tally)
    ensures r == TallyAll(counts, Matching(text, buckets))
  {
    r := counts;
    var b := 0;
    while b < |buckets|
      invariant 0 <= b <= |buckets|
      invariant r == TallyAll(counts, Matching(text, buckets[..b]))
    {
      assert buckets[..b + 1][..b] == buckets[..b];
      if ContainsAny(text, buckets[b].1) {
        assert Matching(text, buckets[..b + 1]) == Matching(text, buckets[..b]) + [buckets[b].0];
        TallyAllSnoc(counts, Matching(text, buckets[..b]), buckets[b].0);
        r := Bump(r, buckets[b].0);
      } else {
        assert Matching(text, buckets[..b + 1]) == Matching(text, buckets[..b]) + [] == Matching(text, buckets[..b]);
      }
      b := b + 1;
    }
    assert buckets[..|buckets|] == buckets;
  }

  /** The counting loops of `extractTopicPatterns` and `analyzeCommonProblems`:
      every user message, lower-cased, bumps each bucket it matches. */
  method CountBuckets(convs: seq<Conversation>, buckets: seq<Bucket>) returns (counts: Tally)
    ensures counts == TallyAll([], HitsOf(UserContents(convs), buckets))
  {
    counts := [];
    var c := 0;
    while c < |convs|
      invariant 0 <= c <= |convs|
      invariant counts == TallyAll([], HitsOf(UserContents(convs[..c]), buckets))
    {
      assert convs[..c + 1][..c] == convs[..c];
      counts := CountConversation(counts, UserContents(convs[..c]), convs[c].messages, buckets);
      c := c + 1;
    }
    assert convs[..|convs|] == convs;
  }

  /** The inner loop of the bucket counting: the messages of one
      conversation, the user's messages only. */
  method CountConversation(counts: Tally, ghost before: seq<string>, msgs: seq<Message>, buckets: seq<Bucket>)
    returns (r: Tally)
    requires counts == TallyAll([], HitsOf(before, buckets))
    ensures r == TallyAll([], HitsOf(before + MessageContents(msgs), buckets))
  {
    r := counts;
    ghost var seen := before;
    var m := 0;
    while m < |msgs|
      invariant 0 <= m <= |msgs|
      invariant seen == before + MessageContents(msgs[..m])
      invariant r == TallyAll([], HitsOf(seen, buckets))
    {
      if msgs[m].role == "user" {
        var c := msgs[m].content;
        var next := CountMessage(r, Lower(c), buckets);
        CountStep(r, next, seen, c, buckets);
        SeenStep(before, seen, msgs, m);
        r := next;
        seen := seen + [c];
      } else {
        SeenStep(before, seen, msgs, m);
      }
      m := m + 1;
    }
    assert msgs[..|msgs|] == msgs;
  }

  /** The user messages seen so far grow by the next message exactly when it
      is the user's. */
  lemma SeenStep(before: seq<string>, seen: seq<string>, msgs: seq<Message>, m: int)
    requires 0 <= m < |msgs| && seen == before + MessageContents(msgs[..m])
    ensures msgs[m].role == "user" ==> seen + [msgs[m].content] == before + MessageContents(msgs[..m + 1])
    ensures msgs[m].role != "user" ==> seen == before + MessageContents(msgs[..m + 1])
  {
    MessageContentsSnoc(msgs, m);
    assert seen + [msgs[m].content] == before + (MessageContents(msgs[..m]) + [msgs[m].content]);
  }

  /** Counting the hits of one more message extends the count of the
      messages before it. */
  lemma CountStep(r: Tally, next: Tally, seen: seq<string>, content: string, buckets: seq<Bucket>)
    requires r == TallyAll([], HitsOf(seen, buckets))
    requires next == TallyAll(r, Matching(Lower(content), buckets))
    ensures next == TallyAll([], HitsOf(seen + [content], buckets))
  {
    HitsSnoc(seen, content, buckets);
    TallyAllConcat([], HitsOf(seen, buckets), Matching(Lower(content), buckets));
  }

  /** The bucket names, in table order. */
  function Names(buckets: seq<Bucket>): (r: seq<string>)
    ensures |r| == |buckets| && forall i | 0 <= i < |buckets| :: r[i] == buckets[i].0
  {
    seq(|buckets|, i requires 0 <= i < |buckets| => buckets[i].0)
  }

  /** The words of the first bucket called `name`; none if there is none. */
  function WordsOf(name: string, buckets: seq<Bucket>): seq<string>
  {
    if buckets == [] then [] else if buckets[0].0 == name then buckets[0].1 else WordsOf(name, buckets[1..])
  }

  lemma {:induction false} WordsOfIndex(buckets: seq<Bucket>, b: int)
    requires DistinctNames(buckets) && 0 <= b < |buckets|
    ensures WordsOf(buckets[b].0, buckets) == buckets[b].1
  {
    if b > 0 {
      assert buckets[0].0 != buckets[b].0;
      assert buckets[1..][b - 1] == buckets[b];
      WordsOfIndex(buckets[1..], b - 1);
    }
  }

  /** The count of the bucket called `name` over the messages. */
  function MatchesOf(contents: seq<string>, name: string, buckets: seq<Bucket>): nat
  {
    Matches(contents, WordsOf(name, buckets))
  }

  /** The ranking of the bucket counts lists every bucket name at most once,
      by falling count, with the number of messages that match it; and it
      lists a name exactly when it is a bucket's that some message matches. */
  lemma RankedBuckets(contents: seq<string>, buckets: seq<Bucket>)
    requires DistinctNames(buckets)
    ensures var r := Ranked(HitsOf(contents, buckets));
      && DistinctKeys(r)
      && SortedDesc(r, ByCount)
      && (forall i | 0 <= i < |r| :: r[i].1 == MatchesOf(contents, r[i].0, buckets))
      && (forall k :: k in KeysOf(r) <==> k in Names(buckets) && MatchesOf(contents, k, buckets) >= 1)
  {
    var hits := HitsOf(contents, buckets);
    var r := Ranked(hits);
    RankedSpec(hits);
    forall k ensures Occurrences(hits, k) == if k in Names(buckets) then MatchesOf(contents, k, buckets) else 0 {
      if k in Names(buckets) {
        var b :| 0 <= b < |buckets| && Names(buckets)[b] == k;
        HitsCount(contents, buckets, b);
        WordsOfIndex(buckets, b);
      } else {
        assert forall j | 0 <= j < |buckets| :: buckets[j].0 != k by {
          forall j | 0 <= j < |buckets| ensures buckets[j].0 != k {
            assert Names(buckets)[j] == buckets[j].0;
          }
        }
        HitsOther(contents, buckets, k);
      }
    }
    forall i | 0 <= i < |r| ensures r[i].1 == MatchesOf(contents, r[i].0, buckets) {
      assert KeysOf(r)[i] == r[i].0;
      assert r[i].0 in KeysOf(r);
      assert r[i].0 in hits;
      assert r[i].0 in multiset(hits);
    }
  }

  /** The first `n` entries of that ranking: at most `n`, by falling count,
      each a matched bucket listed once with its number of matches. */
  lemma TopRanked(contents: seq<string>, buckets: seq<Bucket>, n: nat)
    requires DistinctNames(buckets)
    ensures var t := Take(Ranked(HitsOf(contents, buckets)), n);
      && |t| <= n
      && DistinctKeys(t) && SortedDesc(t, ByCount)
      && (forall i | 0 <= i < |t| :: t[i].0 in Names(buckets) && t[i].1 == MatchesOf(contents, t[i].0, buckets) >= 1)
  {
    var r := Ranked(HitsOf(contents, buckets));
    RankedBuckets(contents, buckets);
    TakeRanking(r, n);
    var t := Take(r, n);
    forall i | 0 <= i < |t| ensures t[i].0 in Names(buckets) && t[i].1 == MatchesOf(contents, t[i].0, buckets) >= 1 {
      assert t[i] == r[i] && KeysOf(r)[i] == t[i].0;
    }
  }

  /** A matched bucket left out of the first `n` entries has no more
      matches than the last one kept, and then `n` are kept. */
  lemma TopRankedCutoff(contents: seq<string>, buckets: seq<Bucket>, n: nat, k: string)
    requires DistinctNames(buckets) && n > 0
    requires k in Names(buckets) && MatchesOf(contents, k, buckets) >= 1
    requires k !in KeysOf(Take(Ranked(HitsOf(contents, buckets)), n))
    ensures var t := Take(Ranked(HitsOf(contents, buckets)), n);
      |t| == n && MatchesOf(contents, k, buckets) <= t[n - 1].1
  {
    var r := Ranked(HitsOf(contents, buckets));
    RankedBuckets(contents, buckets);
    RankCutoff(r, n, k, MatchesOf(contents, k, buckets));
  }

  lemma RankCutoff(r: Tally, n: nat, k: string, c: nat)
    requires SortedDesc(r, ByCount) && n > 0 && k in KeysOf(r) && k !in KeysOf(Take(r, n))
    requires forall i | 0 <= i < |r| && r[i].0 == k :: r[i].1 == c
    ensures |Take(r, n)| == n && c <= Take(r, n)[n - 1].1
  {
    var m :| 0 <= m < |r| && KeysOf(r)[m] == k;
    TakeCutoff(r, n, m);
  }

  /** The first `n` entries of a ranking are a ranking. */
  lemma TakeRanking(r: Tally, n: nat)
    requires DistinctKeys(r) && SortedDesc(r, ByCount)
    ensures DistinctKeys(Take(r, n)) && SortedDesc(Take(r, n), ByCount)
  {
    var t := Take(r, n);
    assert forall i | 0 <= i < |t| :: t[i] == r[i];
  }

  /** An entry of a ranking beyond its first `n` counts no more than the
      last of them. */
  lemma TakeCutoff(r: Tally, n: nat, m: int)
    requires SortedDesc(r, ByCount) && n > 0 && 0 <= m < |r| && r[m].0 !in KeysOf(Take(r, n))
    ensures |Take(r, n)| == n && r[m].1 <= Take(r, n)[n - 1].1
  {
    var t := Take(r, n);
    assert forall i | 0 <= i < |t| :: KeysOf(t)[i] == r[i].0;
    assert ByCount(r[n - 1]) >= ByCount(r[m]);
  }

  // ---------------------------------------------------------------
  // extractTopicPatterns
  // ---------------------------------------------------------------

  const TopicKeywords: seq<Bucket> := [
    ("financeiro", ["financeiro", "dinheiro", "relatório", "balanço", "receita", "despesa"]),
    ("fluxo_caixa", ["fluxo", "caixa", "cash flow", "liquidez"]),
    ("conciliacao", ["conciliação", "banco", "bancária", "divergência"]),
    ("processo", ["processo", "procedimento", "workflow", "automação"]),
    ("compliance", ["compliance", "auditoria", "regulamento", "norma"])
  ]

  datatype TopicPattern = TopicPattern(topic: string, count: nat, frequency: real)

  /** `count / conversations.length`; the counter is empty when there are no
      conversations, so the zero case never reaches a pattern. */
  function Frequency(count: nat, conversations: nat): (r: real)
    ensures conversations > 0 ==> r * conversations as real == count as real
  {
    if conversations == 0 then 0.0 else count as real / conversations as real
  }

  /** The five most frequent topics, by falling count. */
  function TopicPatterns(convs: seq<Conversation>): seq<TopicPattern>
  {
    var ranked := Take(Ranked(HitsOf(UserContents(convs), TopicKeywords)), 5);
    seq(|ranked|, i requires 0 <= i < |ranked| => TopicPattern(ranked[i].0, ranked[i].1, Frequency(ranked[i].1, |convs|)))
  }

  /** `extractTopicPatterns(conversations)`. */
  method ExtractTopicPatterns(convs: seq<Conversation>) returns (r: seq<TopicPattern>)
    ensures r == TopicPatterns(convs)
  {
    var counts := CountBuckets(convs, TopicKeywords);
    var ranked := Take(SortDesc(counts, ByCount), 5);
    r := seq(|ranked|, i requires 0 <= i < |ranked| => TopicPattern(ranked[i].0, ranked[i].1, Frequency(ranked[i].1, |convs|)));
  }

  lemma TopicNamesDistinct()
    ensures DistinctNames(TopicKeywords)
  {
  }

  /** The patterns pair up with the first entries of the ranking. */
  lemma TopicPatternsShape(convs: seq<Conversation>)
    ensures var t := Take(Ranked(HitsOf(UserContents(convs), TopicKeywords)), 5);
      var r := TopicPatterns(convs);
      && |r| == |t|
      && forall i | 0 <= i < |r| :: r[i] == TopicPattern(t[i].0, t[i].1, Frequency(t[i].1, |convs|))
  {
  }

  lemma NoConversations(convs: seq<Conversation>, buckets: seq<Bucket>)
    requires convs == []
    ensures Ranked(HitsOf(UserContents(convs), buckets)) == []
  {
    assert UserContents(convs) == [];
    assert TallyAll([], []) == [];
  }

  /** At most five topics, each a topic of the table listed once, by falling
      count; each count is the number of user messages naming the topic and
      its frequency is that count per conversation (`Frequency`). */
  lemma TopicPatternsSpec(convs: seq<Conversation>)
    ensures var r := TopicPatterns(convs);
      && |r| <= 5
      && (forall i, j | 0 <= i < j < |r| :: r[i].count >= r[j].count && r[i].topic != r[j].topic)
      && (forall i | 0 <= i < |r| ::
            && r[i].topic in Names(TopicKeywords)
            && r[i].count == MatchesOf(UserContents(convs), r[i].topic, TopicKeywords) >= 1)
      && (forall i | 0 <= i < |r| :: r[i].frequency == Frequency(r[i].count, |convs|))
  {
    var cs := UserContents(convs);
    var t := Take(Ranked(HitsOf(cs, TopicKeywords)), 5);
    TopicNamesDistinct();
    TopRanked(cs, TopicKeywords, 5);
    TopicPatternsShape(convs);
    var r := TopicPatterns(convs);
    if convs == [] {
      NoConversations(convs, TopicKeywords);
      assert |r| == 0;
    }
    forall i, j | 0 <= i < j < |r| ensures r[i].count >= r[j].count && r[i].topic != r[j].topic {
      assert r[i].count == t[i].1 && r[j].count == t[j].1 && r[i].topic == t[i].0 && r[j].topic == t[j].0;
    }
    forall i | 0 <= i < |r|
      ensures r[i].topic in Names(TopicKeywords)
      ensures r[i].count == MatchesOf(cs, r[i].topic, TopicKeywords) >= 1
    {
      assert r[i] == TopicPattern(t[i].0, t[i].1, Frequency(t[i].1, |convs|));
    }
  }

  /** A matched topic missing from the patterns has no more matches than
      the fifth, and then there are five. */
  lemma TopicPatternsCutoff(convs: seq<Conversation>, topic: string)
    requires topic in Names(TopicKeywords) && MatchesOf(UserContents(convs), topic, TopicKeywords) >= 1
    requires forall i | 0 <= i < |TopicPatterns(convs)| :: TopicPatterns(convs)[i].topic != topic
    ensures |TopicPatterns(convs)| == 5
    ensures MatchesOf(UserContents(convs), topic, TopicKeywords) <= TopicPatterns(convs)[4].count
  {
    var t := Take(Ranked(HitsOf(UserContents(convs), TopicKeywords)), 5);
    var r := TopicPatterns(convs);
    TopicPatternsShape(convs);
    assert topic !in KeysOf(t) by {
      forall i | 0 <= i < |t| ensures KeysOf(t)[i] != topic {
        assert r[i].topic == t[i].0;
      }
    }
    TopicNamesDistinct();
    TopRankedCutoff(UserContents(convs), TopicKeywords, 5, topic);
    assert r[4].count == t[4].1;
  }

  // ---------------------------------------------------------------
  // analyzeCommonProblems
  // ---------------------------------------------------------------

  const ProblemKeywords: seq<Bucket> := [
    ("data_urgency", ["hoje", "agora", "urgente", "rápido"]),
    ("reconciliation_issues", ["erro", "divergência", "não bate", "diferença"]),
    ("report_requests", ["relatório", "gerar", "exportar", "enviar"]),
    ("process_questions", ["como", "procedimento", "passo a passo"]),
    ("system_issues", ["não funciona", "erro", "problema", "falha"])
  ]

  datatype ProblemPattern = ProblemPattern(problem: string, count: nat)

  /** Every problem type with matches, by falling count. */
  function ProblemPatterns(convs: seq<Conversation>): seq<ProblemPattern>
  {
    var ranked := Ranked(HitsOf(UserContents(convs), ProblemKeywords));
    seq(|ranked|, i requires 0 <= i < |ranked| => ProblemPattern(ranked[i].0, ranked[i].1))
  }

  /** `analyzeCommonProblems(conversations)`. */
  method AnalyzeCommonProblems(convs: seq<Conversation>) returns (r: seq<ProblemPattern>)
    ensures r == ProblemPatterns(convs)
  {
    var counts := CountBuckets(convs, ProblemKeywords);
    var ranked := SortDesc(counts, ByCount);
    r := seq(|ranked|, i requires 0 <= i < |ranked| => ProblemPattern(ranked[i].0, ranked[i].1));
  }

  lemma ProblemNamesDistinct()
    ensures DistinctNames(ProblemKeywords)
  {
  }

  lemma ProblemPatternsShape(convs: seq<Conversation>)
    ensures var ranked := Ranked(HitsOf(UserContents(convs), ProblemKeywords));
      var r := ProblemPatterns(convs);
      && |r| == |ranked|
      && forall i | 0 <= i < |r| :: r[i] == ProblemPattern(ranked[i].0, ranked[i].1)
  {
  }

  /** Every problem type listed is one of the table, listed once, with its
      number of matching user messages, by falling count. */
  lemma ProblemPatternsSpec(convs: seq<Conversation>)
    ensures var r := ProblemPatterns(convs);
      && (forall i, j | 0 <= i < j < |r| :: r[i].count >= r[j].count && r[i].problem != r[j].problem)
      && (forall i | 0 <= i < |r| ::
            && r[i].problem in Names(ProblemKeywords)
            && r[i].count == MatchesOf(UserContents(convs), r[i].problem, ProblemKeywords) >= 1)
  {
    var cs := UserContents(convs);
    ProblemNamesDistinct();
    RankedBuckets(cs, ProblemKeywords);
    ProblemPatternsShape(convs);
    var ranked := Ranked(HitsOf(cs, ProblemKeywords));
    var r := ProblemPatterns(convs);
    forall i, j | 0 <= i < j < |r| ensures r[i].count >= r[j].count && r[i].problem != r[j].problem {
      assert ByCount(ranked[i]) >= ByCount(ranked[j]);
    }
    forall i | 0 <= i < |r|
      ensures r[i].problem in Names(ProblemKeywords)
      ensures r[i].count == MatchesOf(cs, r[i].problem, ProblemKeywords) >= 1
    {
      assert KeysOf(ranked)[i] == r[i].problem;
    }
  }

  /** Every problem type some user message matches is listed. */
  lemma ProblemPatternsComplete(convs: seq<Conversation>, problem: string)
    requires problem in Names(ProblemKeywords) && MatchesOf(UserContents(convs), problem, ProblemKeywords) >= 1
    ensures exists i | 0 <= i < |ProblemPatterns(convs)| :: ProblemPatterns(convs)[i].problem == problem
  {
    var cs := UserContents(convs);
    var ranked := Ranked(HitsOf(cs, ProblemKeywords));
    ProblemNamesDistinct();
    RankedComplete(cs, ProblemKeywords, problem);
    var i :| 0 <= i < |ranked| && ranked[i].0 == problem;
    ProblemPatternsShape(convs);
    assert ProblemPatterns(convs)[i].problem == problem;
  }

  /** A bucket some message matches has a row in the ranking. */
  lemma RankedComplete(contents: seq<string>, buckets: seq<Bucket>, name: string)
    requires DistinctNames(buckets) && name in Names(buckets) && MatchesOf(contents, name, buckets) >= 1
    ensures exists i | 0 <= i < |Ranked(HitsOf(contents, buckets))| :: Ranked(HitsOf(contents, buckets))[i].0 == name
  {
    var r := Ranked(HitsOf(contents, buckets));
    RankedBuckets(contents, buckets);
    assert name in KeysOf(r);
    var i :| 0 <= i < |r| && KeysOf(r)[i] == name;
    assert r[i].0 == name;
  }

  // ---------------------------------------------------------------
  // analyzeCommunicationStyle and determineStyle
  // ---------------------------------------------------------------

  const UrgentWords: seq<string> := ["urgent", "urgente", "rápido", "pressa"]
  const FormalWords: seq<string> := ["prezado", "cordialmente", "atenciosamente"]

  function TotalLength(cs: seq<string>): nat
  {
    if cs == [] then 0 else TotalLength(cs[..|cs| - 1]) + |cs[|cs| - 1]|
  }

  /** The messages containing '?'. */
  function Questions(cs: seq<string>): (r: nat)
    ensures r <= |cs|
  {
    if cs == [] then 0 else Questions(cs[..|cs| - 1]) + (if Contains(cs[|cs| - 1], "?") then 1 else 0)
  }

  /** `messageCount > 0 ? a / messageCount : 0`. */
  function Ratio(a: nat, n: nat): (r: real)
    ensures n == 0 ==> r == 0.0
    ensures a <= n ==> 0.0 <= r <= 1.0
    ensures n > 0 ==> r * n as real == a as real
  {
    if n == 0 then 0.0 else a as real / n as real
  }

  /** The JavaScript quotient `a / n`: NaN (`None`) when both are zero. */
  function Quotient(a: nat, n: nat): Option<real>
  {
    if n == 0 then None else Some(a as real / n as real)
  }

  /** `x > bound`, false for NaN. */
  predicate Above(x: Option<real>, bound: real)
  {
    x.Some? && x.value > bound
  }

  /** `determineStyle(avgLength, formalityRatio)`: four styles from two
      independent tests. */
  function DetermineStyle(avgLength: Option<real>, formalityRatio: Option<real>): (r: string)
    ensures r == "formal_detailed" <==> Above(avgLength, 200.0) && Above(formalityRatio, 0.3)
    ensures r == "detailed_casual" <==> Above(avgLength, 200.0) && !Above(formalityRatio, 0.3)
    ensures r == "formal_concise" <==> !Above(avgLength, 200.0) && Above(formalityRatio, 0.3)
    ensures r == "casual_concise" <==> !Above(avgLength, 200.0) && !Above(formalityRatio, 0.3)
  {
    if Above(avgLength, 200.0) && Above(formalityRatio, 0.3) then "formal_detailed"
    else if Above(avgLength, 200.0) then "detailed_casual"
    else if Above(formalityRatio, 0.3) then "formal_concise"
    else "casual_concise"
  }

  /** `Math.round(total / n)` for `n > 0`: the nearest integer, halves up. */
  function RoundedAverage(total: nat, n: nat): (r: nat)
    requires n > 0
    ensures 2 * n * r <= 2 * total + n < 2 * n * r + 2 * n
  {
    (2 * total + n) / (2 * n)
  }

  datatype CommunicationStyle = CommunicationStyle(averageLength: nat, questionFrequency: real,
    urgencyLevel: real, formalityLevel: real, style: string)

  /** The five counters of the loop. */
  datatype StyleCounts = StyleCounts(messages: nat, totalLength: nat, questions: nat, urgent: nat, formal: nat)

  function CountsOf(cs: seq<string>): (r: StyleCounts)
    ensures r.messages == |cs| && r.questions <= |cs| && r.urgent <= |cs| && r.formal <= |cs|
  {
    StyleCounts(|cs|, TotalLength(cs), Questions(cs), Matches(cs, UrgentWords), Matches(cs, FormalWords))
  }

  /** The figures computed from the counters. */
  function StyleFrom(k: StyleCounts): CommunicationStyle
  {
    var n := k.messages;
    CommunicationStyle(
      if n > 0 then RoundedAverage(k.totalLength, n) else 0,
      Ratio(k.questions, n), Ratio(k.urgent, n), Ratio(k.formal, n),
      DetermineStyle(Quotient(k.totalLength, n), Quotient(k.formal, n)))
  }

  /** The style figures of a sequence of user messages. */
  function StyleOf(cs: seq<string>): CommunicationStyle
  {
    StyleFrom(CountsOf(cs))
  }

  /** The inner loop of `analyzeCommunicationStyle`: the messages of one
      conversation update the counters, the user's messages only. */
  method CountStyle(k: StyleCounts, ghost before: seq<string>, msgs: seq<Message>) returns (r: StyleCounts)
    requires k == CountsOf(before)
    ensures r == CountsOf(before + MessageContents(msgs))
  {
    r := k;
    ghost var seen := before;
    var m := 0;
    while m < |msgs|
      invariant 0 <= m <= |msgs|
      invariant seen == before + MessageContents(msgs[..m])
      invariant r == CountsOf(seen)
    {
      MessageContentsSnoc(msgs, m);
      var msg := msgs[m];
      if msg.role == "user" {
        CountedStep(r, seen, msg.content);
        var text := Lower(msg.content);
        r := StyleCounts(r.messages + 1, r.totalLength + |msg.content|,
          r.questions + (if Contains(msg.content, "?") then 1 else 0),
          r.urgent + (if ContainsAny(text, UrgentWords) then 1 else 0),
          r.formal + (if ContainsAny(text, FormalWords) then 1 else 0));
        seen := seen + [msg.content];
      }
      m := m + 1;
    }
    assert msgs[..|msgs|] == msgs;
  }

  lemma MessageContentsSnoc(msgs: seq<Message>, m: int)
    requires 0 <= m < |msgs|
    ensures MessageContents(msgs[..m + 1])
      == MessageContents(msgs[..m]) + (if msgs[m].role == "user" then [msgs[m].content] else [])
  {
    assert msgs[..m + 1][..m] == msgs[..m];
  }

  /** Counting one more user message updates each counter by its test. */
  lemma CountedStep(k: StyleCounts, seen: seq<string>, c: string)
    requires k == CountsOf(seen)
    ensures var text := Lower(c);
      StyleCounts(k.messages + 1, k.totalLength + |c|,
        k.questions + (if Contains(c, "?") then 1 else 0),
        k.urgent + (if ContainsAny(text, UrgentWords) then 1 else 0),
        k.formal + (if ContainsAny(text, FormalWords) then 1 else 0))
      == CountsOf(seen + [c])
  {
    CountersSnoc(seen, c);
  }

  /** `analyzeCommunicationStyle(conversations)`: one pass over the user
      messages updating five counters. */
  method AnalyzeCommunicationStyle(convs: seq<Conversation>) returns (r: CommunicationStyle)
    ensures r == StyleOf(UserContents(convs))
  {
    var counts := StyleCounts(0, 0, 0, 0, 0);
    var c := 0;
    while c < |convs|
      invariant 0 <= c <= |convs|
      invariant counts == CountsOf(UserContents(convs[..c]))
    {
      assert convs[..c + 1][..c] == convs[..c];
      counts := CountStyle(counts, UserContents(convs[..c]), convs[c].messages);
      c := c + 1;
    }
    assert convs[..|convs|] == convs;
    r := StyleFrom(counts);
  }

  lemma CountersSnoc(cs: seq<string>, c: string)
    ensures TotalLength(cs + [c]) == TotalLength(cs) + |c|
    ensures Questions(cs + [c]) == Questions(cs) + (if Contains(c, "?") then 1 else 0)
    ensures Matches(cs + [c], UrgentWords) == Matches(cs, UrgentWords) + (if ContainsAny(Lower(c), UrgentWords) then 1 else 0)
    ensures Matches(cs + [c], FormalWords) == Matches(cs, FormalWords) + (if ContainsAny(Lower(c), FormalWords) then 1 else 0)
  {
    assert (cs + [c])[..|cs|] == cs;
  }

  /** Without user messages every figure is 0 and, the quotients being NaN,
      the style is 'casual_concise'. */
  lemma StyleOfNothing(cs: seq<string>)
    requires cs == []
    ensures StyleOf(cs) == CommunicationStyle(0, 0.0, 0.0, 0.0, "casual_concise")
  {
  }

  /** With messages, the ratios are fractions of the message count and the
      style tests are, without division, more than 200 characters per
      message and more than 3 formal messages in 10. */
  lemma StyleFromMessages(k: StyleCounts)
    requires k.messages > 0 && k.questions <= k.messages && k.urgent <= k.messages && k.formal <= k.messages
    ensures var r := StyleFrom(k);
      var n := k.messages as real;
      && 0.0 <= r.questionFrequency <= 1.0 && 0.0 <= r.urgencyLevel <= 1.0 && 0.0 <= r.formalityLevel <= 1.0
      && r.questionFrequency * n == k.questions as real
      && r.urgencyLevel * n == k.urgent as real
      && r.formalityLevel * n == k.formal as real
      && 2 * k.messages * r.averageLength <= 2 * k.totalLength + k.messages < 2 * k.messages * r.averageLength + 2 * k.messages
      && ((r.style == "formal_detailed" || r.style == "detailed_casual") <==> k.totalLength > 200 * k.messages)
      && ((r.style == "formal_detailed" || r.style == "formal_concise") <==> 10 * k.formal > 3 * k.messages)
  {
    StyleRatios(k);
    StyleAverage(k);
    StyleNaming(k);
  }

  lemma StyleRatios(k: StyleCounts)
    requires k.messages > 0 && k.questions <= k.messages && k.urgent <= k.messages && k.formal <= k.messages
    ensures var r := StyleFrom(k);
      var n := k.messages as real;
      && 0.0 <= r.questionFrequency <= 1.0 && 0.0 <= r.urgencyLevel <= 1.0 && 0.0 <= r.formalityLevel <= 1.0
      && r.questionFrequency * n == k.questions as real
      && r.urgencyLevel * n == k.urgent as real
      && r.formalityLevel * n == k.formal as real
  {
    var r := StyleFrom(k);
    RatioOf(k.questions, k.messages, r.questionFrequency);
    RatioOf(k.urgent, k.messages, r.urgencyLevel);
    RatioOf(k.formal, k.messages, r.formalityLevel);
  }

  lemma StyleAverage(k: StyleCounts)
    requires k.messages > 0
    ensures var r := StyleFrom(k);
      2 * k.messages * r.averageLength <= 2 * k.totalLength + k.messages < 2 * k.messages * r.averageLength + 2 * k.messages
  {
    AverageOf(k.totalLength, k.messages, StyleFrom(k).averageLength);
  }

  lemma RatioOf(a: nat, n: nat, x: real)
    requires 0 < n && a <= n && x == Ratio(a, n)
    ensures 0.0 <= x <= 1.0 && x * n as real == a as real
  {
  }

  lemma AverageOf(total: nat, n: nat, x: nat)
    requires 0 < n && x == RoundedAverage(total, n)
    ensures 2 * n * x <= 2 * total + n < 2 * n * x + 2 * n
  {
  }

  lemma StyleNaming(k: StyleCounts)
    requires k.messages > 0
    ensures var r := StyleFrom(k);
      && ((r.style == "formal_detailed" || r.style == "detailed_casual") <==> k.totalLength > 200 * k.messages)
      && ((r.style == "formal_detailed" || r.style == "formal_concise") <==> 10 * k.formal > 3 * k.messages)
  {
    LongMessages(k.totalLength, k.messages);
    FormalMessages(k.formal, k.messages);
    StyleTests(Quotient(k.totalLength, k.messages), Quotient(k.formal, k.messages));
  }

  /** Each of the two tests decides one half of the style's name. */
  lemma StyleTests(avgLength: Option<real>, formalityRatio: Option<real>)
    ensures var r := DetermineStyle(avgLength, formalityRatio);
      && ((r == "formal_detailed" || r == "detailed_casual") <==> Above(avgLength, 200.0))
      && ((r == "formal_detailed" || r == "formal_concise") <==> Above(formalityRatio, 0.3))
  {
    assert "formal_detailed"[0] == 'f' && "detailed_casual"[0] == 'd' && "casual_concise"[0] == 'c';
    assert "formal_concise"[0] == 'f';
    assert "formal_concise"[7] != "formal_detailed"[7];
  }

  /** More than 200 characters per message, without division. */
  lemma LongMessages(total: nat, n: nat)
    requires n > 0
    ensures Above(Quotient(total, n), 200.0) <==> total > 200 * n
  {
    MemoryManager.DivideCompare(total as real, n as real, 200.0);
    assert (200 * n) as real == 200.0 * n as real;
  }

  /** More than 3 formal messages in 10, without division. */
  lemma FormalMessages(formal: nat, n: nat)
    requires n > 0
    ensures Above(Quotient(formal, n), 0.3) <==> 10 * formal > 3 * n
  {
    MemoryManager.DivideCompare(formal as real, n as real, 0.3);
    assert (10 * formal) as real == 10.0 * formal as real;
    assert (3 * n) as real == 3.0 * n as real;
  }

  // ---------------------------------------------------------------
  // analyzeSkillPreferences and findLastSkillUsage
  // ---------------------------------------------------------------

  /** The timestamp of the first conversation that used `skill`, if any. */
  function FirstUsage(convs: seq<Conversation>, skill: string): Option<nat>
  {
    if convs == [] then None
    else if convs[0].metadata.skillUsed == Some(skill) then Some(convs[0].metadata.timestamp)
    else FirstUsage(convs[1..], skill)
  }

  /** `FirstUsage` names the first conversation that used the skill, and is
      absent exactly when none did. */
  lemma {:induction false} FirstUsageSpec(convs: seq<Conversation>, skill: string)
    ensures FirstUsage(convs, skill).None? <==> forall i | 0 <= i < |convs| :: convs[i].metadata.skillUsed != Some(skill)
    ensures FirstUsage(convs, skill).Some? ==>
      exists i | 0 <= i < |convs| ::
        && convs[i].metadata.skillUsed == Some(skill)
        && convs[i].metadata.timestamp == FirstUsage(convs, skill).value
        && forall j | 0 <= j < i :: convs[j].metadata.skillUsed != Some(skill)
  {
    if convs != [] && convs[0].metadata.skillUsed != Some(skill) {
      FirstUsageSpec(convs[1..], skill);
      assert forall i | 1 <= i < |convs| :: convs[i] == convs[1..][i - 1];
      if FirstUsage(convs, skill).Some? {
        var i :| 0 <= i < |convs[1..]| && convs[1..][i].metadata.skillUsed == Some(skill)
          && convs[1..][i].metadata.timestamp == FirstUsage(convs, skill).value
          && forall j | 0 <= j < i :: convs[1..][j].metadata.skillUsed != Some(skill);
        assert convs[i + 1] == convs[1..][i];
      }
    }
  }

  /** `findLastSkillUsage(skillName, conversations)`: despite its name, the
      loop returns at the first conversation that used the skill. */
  method FindLastSkillUsage(skill: string, convs: seq<Conversation>) returns (r: Option<nat>)
    ensures r == FirstUsage(convs, skill)
  {
    var i := 0;
    while i < |convs|
      invariant 0 <= i <= |convs|
      invariant FirstUsage(convs[i..], skill) == FirstUsage(convs, skill)
    {
      assert convs[i..][1..] == convs[i + 1..];
      if convs[i].metadata.skillUsed == Some(skill) {
        return Some(convs[i].metadata.timestamp);
      }
      i := i + 1;
    }
    return None;
  }

  datatype SkillPreference = SkillPreference(skill: string, count: nat, preference: real, lastUsed: Option<nat>)

  /** The sum of the counts of `Object.values(skillUsage)`. */
  function SumCounts(t: Tally): nat
  {
    if t == [] then 0 else SumCounts(t[..|t| - 1]) + t[|t| - 1].1
  }

  lemma {:induction false} SumCountsBound(t: Tally, i: int)
    requires 0 <= i < |t|
    ensures t[i].1 <= SumCounts(t)
  {
    if i < |t| - 1 {
      SumCountsBound(t[..|t| - 1], i);
    }
  }

  /** `total > 0 ? count / total : 0`. */
  function Preference(count: nat, total: nat): (r: real)
    ensures total == 0 ==> r == 0.0
    ensures total > 0 ==> r * total as real == count as real
    ensures count <= total ==> 0.0 <= r <= 1.0
  {
    if total > 0 then count as real / total as real else 0.0
  }

  function ByPreference(p: SkillPreference): real
  {
    p.preference
  }

  /** The entries of `skillsUsed` with their share of the total and the
      time of their first use, in entry order. */
  function PreferenceEntries(skillsUsed: Tally, convs: seq<Conversation>): (r: seq<SkillPreference>)
    ensures |r| == |skillsUsed|
    ensures forall i | 0 <= i < |r| ::
      r[i] == SkillPreference(skillsUsed[i].0, skillsUsed[i].1,
        Preference(skillsUsed[i].1, SumCounts(skillsUsed)), FirstUsage(convs, skillsUsed[i].0))
  {
    var total := SumCounts(skillsUsed);
    seq(|skillsUsed|, i requires 0 <= i < |skillsUsed| =>
      SkillPreference(skillsUsed[i].0, skillsUsed[i].1, Preference(skillsUsed[i].1, total), FirstUsage(convs, skillsUsed[i].0)))
  }

  /** `analyzeSkillPreferences(profile, conversations)`, given the entries of
      `profile.statistics.skillsUsed`: the entries by falling preference. */
  function AnalyzeSkillPreferences(skillsUsed: Tally, convs: seq<Conversation>): seq<SkillPreference>
  {
    SortDesc(PreferenceEntries(skillsUsed, convs), ByPreference)
  }

  /** The preferences are the skill entries, reordered by falling share;
      each share is the skill's part of the total, so the order is also by
      falling count, and the last use is the first conversation's. */
  lemma AnalyzeSkillPreferencesSpec(skillsUsed: Tally, convs: seq<Conversation>)
    ensures var r := AnalyzeSkillPreferences(skillsUsed, convs);
      && multiset(r) == multiset(PreferenceEntries(skillsUsed, convs))
      && SortedDesc(r, ByPreference)
      && (forall i, j | 0 <= i < j < |r| :: r[i].count >= r[j].count)
      && (forall i | 0 <= i < |r| ::
            && 0.0 <= r[i].preference <= 1.0
            && r[i].preference == Preference(r[i].count, SumCounts(skillsUsed))
            && r[i].lastUsed == FirstUsage(convs, r[i].skill))
  {
    var e := PreferenceEntries(skillsUsed, convs);
    var r := AnalyzeSkillPreferences(skillsUsed, convs);
    var total := SumCounts(skillsUsed);
    SortDescSpec(e, ByPreference);
    forall x | x in e
      ensures 0.0 <= x.preference <= 1.0 && x.lastUsed == FirstUsage(convs, x.skill)
      ensures x.preference == Preference(x.count, total) && x.count <= total
    {
      var i :| 0 <= i < |e| && e[i] == x;
      SumCountsBound(skillsUsed, i);
    }
    forall i | 0 <= i < |r|
      ensures r[i] in e
      ensures 0.0 <= r[i].preference <= 1.0 && r[i].preference == Preference(r[i].count, total)
      ensures r[i].lastUsed == FirstUsage(convs, r[i].skill) && r[i].count <= total
    {
      assert r[i] in multiset(r);
    }
    forall i, j | 0 <= i < j < |r| ensures r[i].count >= r[j].count {
      assert ByPreference(r[i]) >= ByPreference(r[j]);
      if r[i].count < r[j].count {
        PreferenceMonotone(r[i].count, r[j].count, total);
      }
    }
  }

  /** A larger count has a larger share. */
  lemma PreferenceMonotone(a: nat, b: nat, total: nat)
    requires total > 0 && a < b
    ensures Preference(a, total) < Preference(b, total)
  {
    var n := total as real;
    var pa := Preference(a, total);
    var pb := Preference(b, total);
    assert pa == a as real / n && pb * n == b as real;
    MemoryManager.DivideCompare(a as real, n, pb);
  }

  // ---------------------------------------------------------------
  // recommendSkills and recommendResponseStyle
  // ---------------------------------------------------------------

  datatype SkillRecommendation = SkillRecommendation(skill: string, reason: string, confidence: real, priority: string)

  /** What one frequent topic recommends: cash flow above 30% of the
      conversations, reconciliation above 20%. */
  function TopicRecommendation(t: TopicPattern): seq<SkillRecommendation>
  {
    (if t.topic == "fluxo_caixa" && t.frequency > 0.3
     then [SkillRecommendation("fluxo_caixa", "Usuário frequentemente pergunta sobre fluxo de caixa", t.frequency, "high")]
     else [])
    + (if t.topic == "conciliacao" && t.frequency > 0.2
       then [SkillRecommendation("conciliacao", "Histórico de questões de conciliação bancária", t.frequency, "medium")]
       else [])
  }

  function TopicRecommendations(topics: seq<TopicPattern>): seq<SkillRecommendation>
  {
    if topics == [] then []
    else TopicRecommendations(topics[..|topics| - 1]) + TopicRecommendation(topics[|topics| - 1])
  }

  /** A current message ("" when absent) about a report but not about cash
      flow suggests the management-report skill. */
  predicate AsksForReport(currentMessage: string)
  {
    currentMessage != "" && Contains(Lower(currentMessage), "relatório") && !Contains(Lower(currentMessage), "fluxo")
  }

  function ContextRecommendations(currentMessage: string): seq<SkillRecommendation>
  {
    if AsksForReport(currentMessage)
    then [SkillRecommendation("relatorios_gerenciais", "Contexto atual sugere necessidade de relatório", 0.8, "high")]
    else []
  }

  function ByConfidence(r: SkillRecommendation): real
  {
    r.confidence
  }

  /** `recommendSkills(patterns, context)`: the candidates by falling
      confidence, ties in the order they were pushed. */
  function RecommendSkills(frequentTopics: seq<TopicPattern>, currentMessage: string): seq<SkillRecommendation>
  {
    SortDesc(TopicRecommendations(frequentTopics) + ContextRecommendations(currentMessage), ByConfidence)
  }

  lemma {:induction false} TopicRecommendationsSkills(topics: seq<TopicPattern>, skill: string, threshold: real)
    requires (skill == "fluxo_caixa" && threshold == 0.3) || (skill == "conciliacao" && threshold == 0.2)
    ensures HasSkill(TopicRecommendations(topics), skill) <==>
      exists t | t in topics :: t.topic == skill && t.frequency > threshold
  {
    if topics != [] {
      var init := topics[..|topics| - 1];
      var last := topics[|topics| - 1];
      TopicRecommendationsSkills(init, skill, threshold);
      HasSkillConcat(TopicRecommendations(init), TopicRecommendation(last), skill);
      TopicRecommendationSkill(last, skill, threshold);
      LastTopic(topics, skill, threshold);
    }
  }

  lemma HasSkillConcat(a: seq<SkillRecommendation>, b: seq<SkillRecommendation>, skill: string)
    ensures HasSkill(a + b, skill) <==> HasSkill(a, skill) || HasSkill(b, skill)
  {
    assert forall x :: x in a + b <==> x in a || x in b;
  }

  lemma LastTopic(topics: seq<TopicPattern>, skill: string, threshold: real)
    requires topics != []
    ensures var last := topics[|topics| - 1];
      (exists t | t in topics :: t.topic == skill && t.frequency > threshold) <==>
      (exists t | t in topics[..|topics| - 1] :: t.topic == skill && t.frequency > threshold)
      || (last.topic == skill && last.frequency > threshold)
  {
    var init := topics[..|topics| - 1];
    assert topics == init + [topics[|topics| - 1]];
    assert forall t :: t in topics <==> t in init || t == topics[|topics| - 1];
  }

  lemma TopicRecommendationSkill(t: TopicPattern, skill: string, threshold: real)
    requires (skill == "fluxo_caixa" && threshold == 0.3) || (skill == "conciliacao" && threshold == 0.2)
    ensures HasSkill(TopicRecommendation(t), skill) <==> t.topic == skill && t.frequency > threshold
  {
    assert "fluxo_caixa"[0] != "conciliacao"[0];
    var r := TopicRecommendation(t);
    if t.topic == "fluxo_caixa" && t.frequency > 0.3 {
      assert r[0].skill == "fluxo_caixa" && |r| == 1;
    } else if t.topic == "conciliacao" && t.frequency > 0.2 {
      assert r[0].skill == "conciliacao" && |r| == 1;
    } else {
      assert r == [];
    }
  }

  /** The recommendations are the candidates by falling confidence: cash
      flow exactly when a frequent topic is cash flow above 30%,
      reconciliation exactly when one is reconciliation above 20%, the
      report skill exactly when the current message asks for a report. */
  lemma RecommendSkillsSpec(frequentTopics: seq<TopicPattern>, currentMessage: string)
    ensures var r := RecommendSkills(frequentTopics, currentMessage);
      && SortedDesc(r, ByConfidence)
      && multiset(r) == multiset(TopicRecommendations(frequentTopics) + ContextRecommendations(currentMessage))
      && (HasSkill(r, "fluxo_caixa") <==>
            exists t | t in frequentTopics :: t.topic == "fluxo_caixa" && t.frequency > 0.3)
      && (HasSkill(r, "conciliacao") <==>
            exists t | t in frequentTopics :: t.topic == "conciliacao" && t.frequency > 0.2)
      && (HasSkill(r, "relatorios_gerenciais") <==> AsksForReport(currentMessage))
  {
    var a := TopicRecommendations(frequentTopics);
    var c := ContextRecommendations(currentMessage);
    var r := RecommendSkills(frequentTopics, currentMessage);
    SortDescSpec(a + c, ByConfidence);
    HasSkillSorted(a, c, r, "fluxo_caixa");
    HasSkillSorted(a, c, r, "conciliacao");
    HasSkillSorted(a, c, r, "relatorios_gerenciais");
    TopicRecommendationsSkills(frequentTopics, "fluxo_caixa", 0.3);
    TopicRecommendationsSkills(frequentTopics, "conciliacao", 0.2);
    TopicRecommendationsNames(frequentTopics);
    ContextRecommendationsSkills(currentMessage);
  }

  /** Some recommendation is for `skill`. */
  predicate HasSkill(recs: seq<SkillRecommendation>, skill: string)
  {
    exists x | x in recs :: x.skill == skill
  }

  /** Reordering keeps which skills are recommended. */
  lemma HasSkillSorted(a: seq<SkillRecommendation>, c: seq<SkillRecommendation>, r: seq<SkillRecommendation>, skill: string)
    requires multiset(r) == multiset(a + c)
    ensures HasSkill(r, skill) <==> HasSkill(a, skill) || HasSkill(c, skill)
  {
    forall x ensures x in r <==> x in a || x in c {
      assert x in r <==> x in multiset(r);
      assert x in a + c <==> x in multiset(a + c);
    }
  }

  lemma ContextRecommendationsSkills(currentMessage: string)
    ensures HasSkill(ContextRecommendations(currentMessage), "relatorios_gerenciais") <==> AsksForReport(currentMessage)
    ensures !HasSkill(ContextRecommendations(currentMessage), "fluxo_caixa")
    ensures !HasSkill(ContextRecommendations(currentMessage), "conciliacao")
  {
    assert "relatorios_gerenciais"[0] != "fluxo_caixa"[0] && "relatorios_gerenciais"[0] != "conciliacao"[0];
    if AsksForReport(currentMessage) {
      assert ContextRecommendations(currentMessage)[0].skill == "relatorios_gerenciais";
    }
  }

  /** Frequent topics recommend only the cash-flow and reconciliation
      skills. */
  lemma {:induction false} TopicRecommendationsNames(topics: seq<TopicPattern>)
    ensures forall x | x in TopicRecommendations(topics) :: x.skill == "fluxo_caixa" || x.skill == "conciliacao"
    ensures !HasSkill(TopicRecommendations(topics), "relatorios_gerenciais")
  {
    assert "relatorios_gerenciais"[0] != "fluxo_caixa"[0] && "relatorios_gerenciais"[0] != "conciliacao"[0];
    if topics != [] {
      TopicRecommendationsNames(topics[..|topics| - 1]);
    }
  }

  datatype StyleRecommendation = StyleRecommendation(style: string, details: string, tone: string, reason: string)

  /** `recommendResponseStyle(patterns, profile)`, given the detected style
      ("" when absent, which defaults to 'casual_concise'): exactly one
      recommendation, formal for 'formal_detailed', casual for
      'casual_concise', professional for anything else. */
  function RecommendResponseStyle(style: string): (r: seq<StyleRecommendation>)
    ensures |r| == 1
    ensures r[0].style == "formal" <==> style == "formal_detailed"
    ensures r[0].style == "casual" <==> style == "casual_concise" || style == ""
    ensures r[0].style == "professional" <==> style !in {"formal_detailed", "casual_concise", ""}
  {
    var s := if style == "" then "casual_concise" else style;
    if s == "formal_detailed" then
      [StyleRecommendation("formal", "high", "professional", "Usuário prefere comunicação formal e detalhada")]
    else if s == "casual_concise" then
      [StyleRecommendation("casual", "medium", "friendly", "Usuário prefere respostas diretas e amigáveis")]
    else
      [StyleRecommendation("professional", "medium", "helpful", "Estilo padrão profissional")]
  }

  // ---------------------------------------------------------------
  // Feedback: categories, scores, running mean, trend, confidence
  // ---------------------------------------------------------------

  const PositiveWords: seq<string> := ["bom", "ótimo", "excelente", "perfeito", "obrigado", "ajudou"]
  const NegativeWords: seq<string> := ["ruim", "erro", "não funcionou", "problema", "incorreto"]
  const NeutralWords: seq<string> := ["ok", "entendi", "certo"]

  /** `categorizeFeedback(feedback)`: positive words win over negative ones,
      negative over neutral. */
  function CategorizeFeedback(feedback: string): (r: string)
    ensures r == "positive" <==> ContainsAny(Lower(feedback), PositiveWords)
    ensures r == "negative" <==> !ContainsAny(Lower(feedback), PositiveWords) && ContainsAny(Lower(feedback), NegativeWords)
    ensures r == "neutral" <==>
      !ContainsAny(Lower(feedback), PositiveWords) && !ContainsAny(Lower(feedback), NegativeWords)
      && ContainsAny(Lower(feedback), NeutralWords)
    ensures r == "unknown" <==>
      !ContainsAny(Lower(feedback), PositiveWords) && !ContainsAny(Lower(feedback), NegativeWords)
      && !ContainsAny(Lower(feedback), NeutralWords)
  {
    var text := Lower(feedback);
    if ContainsAny(text, PositiveWords) then "positive"
    else if ContainsAny(text, NegativeWords) then "negative"
    else if ContainsAny(text, NeutralWords) then "neutral"
    else "unknown"
  }

  /** A message with words of both kinds counts as positive. */
  lemma CategorizePrecedence()
    ensures CategorizeFeedback("ótimo, muito bom") == "positive"
    ensures CategorizeFeedback("nada bom, deu erro") == "positive"
  {
    var m := "ótimo, muito bom";
    LowerOfLower(m);
    assert m[13..16] == PositiveWords[0];
    ContainsAt(m, PositiveWords[0], 13);
    var n := "nada bom, deu erro";
    LowerOfLower(n);
    assert n[5..8] == PositiveWords[0];
    ContainsAt(n, PositiveWords[0], 5);
  }

  /** An error report without a positive word is negative. */
  lemma CategorizeNegative()
    ensures CategorizeFeedback("deu erro") == "negative"
  {
    LowerOfLower("deu erro");
    ErrorReportNegative("deu erro");
    ErrorReportNotPositive("deu erro");
  }

  lemma ErrorReportNegative(m: string)
    requires m == "deu erro"
    ensures ContainsAny(m, NegativeWords)
  {
    assert m[4..8] == NegativeWords[1];
    ContainsAt(m, NegativeWords[1], 4);
  }

  lemma ErrorReportNotPositive(m: string)
    requires m == "deu erro"
    ensures !ContainsAny(m, PositiveWords)
  {
    AbsentChar(m, PositiveWords[0], 0);
    AbsentChar(m, PositiveWords[1], 0);
    AbsentChar(m, PositiveWords[2], 1);
    AbsentChar(m, PositiveWords[3], 0);
    AbsentChar(m, PositiveWords[4], 1);
    AbsentChar(m, PositiveWords[5], 1);
  }

  /** The table `{ positive: 1, neutral: 0.5, negative: 0, unknown: 0.3 }`. */
  function ScoreTable(category: string): real
  {
    if category == "positive" then 1.0
    else if category == "neutral" then 0.5
    else if category == "negative" then 0.0
    else if category == "unknown" then 0.3
    else 0.0
  }

  /** `x || d` on a number: 0 is falsy. */
  function OrDefault(x: real, d: real): real
  {
    if x == 0.0 then d else x
  }

  /** `calculateSatisfactionScore(feedback)`: `scores[type] || 0.3`, so a
      negative feedback's 0 is replaced by 0.3. */
  function SatisfactionScore(feedback: string): real
  {
    OrDefault(ScoreTable(CategorizeFeedback(feedback)), 0.3)
  }

  /** 1 for positive, 0.5 for neutral and 0.3 for both negative and unknown:
      the score never reaches 0. */
  lemma SatisfactionScoreSpec(feedback: string)
    ensures var c := CategorizeFeedback(feedback);
      && (c == "positive" ==> SatisfactionScore(feedback) == 1.0)
      && (c == "neutral" ==> SatisfactionScore(feedback) == 0.5)
      && (c == "negative" ==> SatisfactionScore(feedback) == 0.3)
      && (c == "unknown" ==> SatisfactionScore(feedback) == 0.3)
    ensures 0.3 <= SatisfactionScore(feedback) <= 1.0
  {
  }

  /** The feedback update: `(current * count + s) / (count + 1)`. */
  function UpdatedScore(current: real, count: nat, s: real): real
  {
    (current * count as real + s) / (count as real + 1.0)
  }

  /** A score in [0, 1] stays in [0, 1] whatever the count, since the update
      is a weighted mean of the old score and the new one. */
  lemma UpdatedScoreRange(current: real, count: nat, s: real)
    requires 0.0 <= current <= 1.0 && 0.0 <= s <= 1.0
    ensures 0.0 <= UpdatedScore(current, count, s) <= 1.0
  {
    var n := count as real;
    var u := UpdatedScore(current, count, s);
    assert u * (n + 1.0) == current * n + s;
    assert 0.0 <= current * n <= n;
    MemoryManager.DivideCompare(current * n + s, n + 1.0, 1.0);
    MemoryManager.DivideCompare(current * n + s, n + 1.0, 0.0);
  }

  function Sum(xs: seq<real>): real
  {
    if xs == [] then 0.0 else Sum(xs[..|xs| - 1]) + xs[|xs| - 1]
  }

  /** The mean; `reduce` on a non-empty list. */
  function Mean(xs: seq<real>): real
    requires xs != []
  {
    Sum(xs) / |xs| as real
  }

  /** The score after one update per feedback, from a fresh profile. */
  function RunningScore(xs: seq<real>): real
  {
    if xs == [] then 0.0 else UpdatedScore(RunningScore(xs[..|xs| - 1]), |xs| - 1, xs[|xs| - 1])
  }

  /** Updating once per feedback keeps the mean of all the scores given:
      the running update is the average it is meant to be. */
  lemma {:induction false} RunningScoreIsMean(xs: seq<real>)
    requires xs != []
    ensures RunningScore(xs) == Mean(xs)
  {
    var init := xs[..|xs| - 1];
    var n := |init| as real;
    assert Sum(xs) == Sum(init) + xs[|xs| - 1];
    if init == [] {
      assert RunningScore(xs) == (0.0 * 0.0 + xs[0]) / 1.0;
    } else {
      RunningScoreIsMean(init);
      var m := RunningScore(init);
      assert m * n == Sum(init);
      assert RunningScore(xs) == (m * n + xs[|xs| - 1]) / (n + 1.0);
    }
  }

  /** `calculateConfidence(sampleSize)`. */
  function CalculateConfidence(sampleSize: int): (r: real)
    ensures r in {0.1, 0.3, 0.5, 0.7, 0.9}
  {
    if sampleSize >= 50 then 0.9
    else if sampleSize >= 20 then 0.7
    else if sampleSize >= 10 then 0.5
    else if sampleSize >= 5 then 0.3
    else 0.1
  }

  /** A larger sample never lowers the confidence. */
  lemma ConfidenceMonotone(a: int, b: int)
    requires a <= b
    ensures CalculateConfidence(a) <= CalculateConfidence(b)
  {
  }

  datatype Trend = Trend(direction: string, confidence: real, suggestion: string)

  /** The satisfaction scores of a list of feedback texts. */
  function Scores(feedbacks: seq<string>): (r: seq<real>)
    ensures |r| == |feedbacks|
  {
    seq(|feedbacks|, i requires 0 <= i < |feedbacks| => SatisfactionScore(feedbacks[i]))
  }

  /** `analyzeSatisfactionTrend(feedbacks)`: the mean of the last three
      scores against the mean of the earlier ones (the recent mean itself
      when there are none). */
  function AnalyzeSatisfactionTrend(feedbacks: seq<string>): Trend
  {
    if |feedbacks| < 3 then Trend("unknown", 0.0, "Mais dados necessários")
    else
      var scores := Scores(feedbacks);
      var recent := scores[|scores| - 3..];
      var older := scores[..|scores| - 3];
      var recentAvg := Mean(recent);
      var olderAvg := if |older| > 0 then Mean(older) else recentAvg;
      if recentAvg > olderAvg + 0.1 then Trend("improving", 0.7, "Satisfação melhorando - manter padrão atual")
      else if recentAvg < olderAvg - 0.1 then Trend("declining", 0.7, "Satisfação em declínio - revisar abordagem")
      else Trend("stable", 0.5, "Satisfação estável - explorar melhorias")
  }

  /** Fewer than three feedbacks is unknown; exactly three is stable, the
      earlier mean defaulting to the recent one; beyond that the trend moves
      only when the means differ by more than 0.1. */
  lemma SatisfactionTrendSpec(feedbacks: seq<string>)
    ensures |feedbacks| < 3 ==> AnalyzeSatisfactionTrend(feedbacks).direction == "unknown"
    ensures |feedbacks| == 3 ==> AnalyzeSatisfactionTrend(feedbacks).direction == "stable"
    ensures |feedbacks| > 3 ==>
      var scores := Scores(feedbacks);
      var recentAvg := Mean(scores[|scores| - 3..]);
      var olderAvg := Mean(scores[..|scores| - 3]);
      && (AnalyzeSatisfactionTrend(feedbacks).direction == "improving" <==> recentAvg > olderAvg + 0.1)
      && (AnalyzeSatisfactionTrend(feedbacks).direction == "declining" <==> recentAvg < olderAvg - 0.1)
      && (AnalyzeSatisfactionTrend(feedbacks).direction == "stable" <==>
            olderAvg - 0.1 <= recentAvg <= olderAvg + 0.1)
  {
  }

  // ---------------------------------------------------------------
  // generateFeedbackInsights and processFeedback
  // ---------------------------------------------------------------

  datatype Insight = Insight(kind: string, message: string, action: string)

  datatype TrendInsight = TrendInsight(trend: string, confidence: real, suggestion: string)

  /** `recommendations` is always empty. */
  datatype FeedbackInsights = FeedbackInsights(immediate: seq<Insight>, longTerm: seq<TrendInsight>,
    recommendations: seq<string>)

  /** `generateFeedbackInsights(userId, feedbackData)`, given the category of
      the feedback and the user's recent feedbacks. */
  function GenerateFeedbackInsights(category: string, recentFeedbacks: seq<string>): (r: FeedbackInsights)
    ensures |r.immediate| <= 1 && r.recommendations == []
    ensures |r.immediate| == 1 <==> category == "negative" || category == "positive"
    ensures |r.longTerm| == 1 <==> |recentFeedbacks| >= 3
    ensures |r.longTerm| == 1 ==> r.longTerm[0].trend == AnalyzeSatisfactionTrend(recentFeedbacks).direction
  {
    FeedbackInsights(ImmediateInsights(category), LongTermInsights(recentFeedbacks), [])
  }

  /** The insight a negative or a positive feedback calls for at once. */
  function ImmediateInsights(category: string): (r: seq<Insight>)
    ensures |r| <= 1
    ensures |r| == 1 <==> category == "negative" || category == "positive"
  {
    if category == "negative" then
      [Insight("improvement", "Feedback negativo recebido - investigar possível melhoria",
        "Analisar contexto da interação que gerou feedback negativo")]
    else if category == "positive" then
      [Insight("reinforcement", "Feedback positivo - reforçar padrão usado",
        "Identificar o que funcionou bem para replicar")]
    else []
  }

  /** The trend insight, once there are three feedbacks. */
  function LongTermInsights(recentFeedbacks: seq<string>): (r: seq<TrendInsight>)
    ensures |r| == 1 <==> |recentFeedbacks| >= 3
    ensures |r| == 1 ==> r[0].trend == AnalyzeSatisfactionTrend(recentFeedbacks).direction
  {
    if |recentFeedbacks| >= 3 then
      var t := AnalyzeSatisfactionTrend(recentFeedbacks);
      [TrendInsight(t.direction, t.confidence, t.suggestion)]
    else []
  }

  /** The event `processFeedback` records: type 'feedback' with no user id
      (the id travels inside the data, which the handlers do not read). */
  function FeedbackEvent(now: nat): MemoryManager.LearningEvent
  {
    MemoryManager.LearningEvent("feedback", now, "", MemoryManager.EventData("", "", ""), false, None)
  }

  /** `feedbackData`: the user, the text, the clock and the category. The
      caller's `context` argument is not part of this model. */
  function FeedbackRecordOf(userId: string, feedback: string, now: nat): (r: MemoryManager.FeedbackRecord)
    ensures r.userId == userId && r.feedback == feedback && r.timestamp == now
    ensures r.category == CategorizeFeedback(feedback)
  {
    MemoryManager.FeedbackRecord(userId, feedback, now, CategorizeFeedback(feedback))
  }

  /** The update `processFeedback` hands to `updateUserProfile`, given the
      learning figures it read. */
  function FeedbackUpdate(l: MemoryManager.Learning, userId: string, feedback: string, now: nat): MemoryManager.ProfileUpdates
  {
    MemoryManager.Feedback(UpdatedScore(l.satisfactionScore, l.feedbackCount, SatisfactionScore(feedback)),
      l.feedbackCount + 1, FeedbackRecordOf(userId, feedback, now))
  }

  /** The learning figures of a profile after one feedback. */
  function AfterFeedback(l: MemoryManager.Learning, userId: string, feedback: string, now: nat): MemoryManager.Learning
  {
    l.(satisfactionScore := UpdatedScore(l.satisfactionScore, l.feedbackCount, SatisfactionScore(feedback)),
       feedbackCount := l.feedbackCount + 1,
       lastFeedback := Some(FeedbackRecordOf(userId, feedback, now)))
  }

  /** The profile `updateUserProfile` stores for a feedback: the update
      assigned, the stamp, and the patterns re-analysed against `recent`. */
  function FeedbackProfile(prior: MemoryManager.Profile, userId: string, feedback: string, now: nat,
    recent: seq<MemoryManager.HistoryEntry>): MemoryManager.Profile
  {
    MemoryManager.AnalyzeUserPatterns(
      MemoryManager.Assign(prior, FeedbackUpdate(prior.learning, userId, feedback, now)).(lastUpdated := now), recent)
  }

  class LearningEngine {
    const memoryManager: MemoryManager.MeshMemoryManager

    ghost predicate Valid()
      reads this, memoryManager
    {
      memoryManager.Valid()
    }

    constructor(memoryManager: MemoryManager.MeshMemoryManager)
      requires memoryManager.Valid()
      ensures Valid() && this.memoryManager == memoryManager
    {
      this.memoryManager := memoryManager;
    }

    /** `processFeedback(userId, feedback)`: record the feedback event, then
        fold the feedback's score into the user's running mean, count it and
        keep it as the last feedback, and report the insights; the
        recent-feedback source is empty, so no trend is reported. */
    method ProcessFeedback(userId: string, feedback: string, now: nat) returns (insights: FeedbackInsights)
      requires Valid()
      modifies memoryManager
      ensures Valid()
      ensures insights == GenerateFeedbackInsights(CategorizeFeedback(feedback), [])
      ensures var staged := MemoryManager.AfterRecord(old(memoryManager.userProfiles), old(memoryManager.learningData),
          MemoryManager.EventKey("feedback", now), FeedbackEvent(now), now);
        var prior := if userId in staged.0 then staged.0[userId] else MemoryManager.CreateDefaultProfile(userId, now);
        && memoryManager.learningData == staged.1
        && memoryManager.userProfiles
          == staged.0[userId := FeedbackProfile(prior, userId, feedback, now,
               memoryManager.GetConversationHistory(userId, MemoryManager.PatternWindow))]
        && memoryManager.userProfiles[userId].learning == AfterFeedback(prior.learning, userId, feedback, now)
        && memoryManager.userProfiles[userId].lastUpdated == now
      ensures memoryManager.conversationMemory == old(memoryManager.conversationMemory)
    {
      memoryManager.RecordLearningEvent("feedback", MemoryManager.EventData("", "", ""), "", now);
      StoreFeedback(userId, feedback, now);
      insights := GenerateFeedbackInsights(CategorizeFeedback(feedback), []);
    }

    /** The profile half of `processFeedback`: fold the feedback's score into
        the user's running mean, count it and keep it as the last feedback,
        creating the profile if needed. */
    method StoreFeedback(userId: string, feedback: string, now: nat)
      requires Valid()
      modifies memoryManager
      ensures Valid()
      ensures var before := old(memoryManager.userProfiles);
        var prior := if userId in before then before[userId] else MemoryManager.CreateDefaultProfile(userId, now);
        && memoryManager.userProfiles
          == before[userId := FeedbackProfile(prior, userId, feedback, now,
               memoryManager.GetConversationHistory(userId, MemoryManager.PatternWindow))]
        && memoryManager.userProfiles[userId].learning == AfterFeedback(prior.learning, userId, feedback, now)
        && memoryManager.userProfiles[userId].lastUpdated == now
      ensures memoryManager.learningData == old(memoryManager.learningData)
      ensures memoryManager.conversationMemory == old(memoryManager.conversationMemory)
    {
      ghost var before := memoryManager.userProfiles;
      var profile := memoryManager.GetUserProfile(userId, now);
      var currentScore := profile.learning.satisfactionScore;
      var feedbackCount := profile.learning.feedbackCount;
      var updatedScore := UpdatedScore(currentScore, feedbackCount, SatisfactionScore(feedback));
      var record := FeedbackRecordOf(userId, feedback, now);
      var update := MemoryManager.Feedback(updatedScore, feedbackCount + 1, record);
      assert update == FeedbackUpdate(profile.learning, userId, feedback, now);
      var p := memoryManager.UpdateUserProfile(userId, update, now);
      ghost var recent := memoryManager.GetConversationHistory(userId, MemoryManager.PatternWindow);
      assert p == FeedbackProfile(profile, userId, feedback, now, recent);
      assert memoryManager.userProfiles == before[userId := p];
      FeedbackApplied(profile, userId, feedback, now, recent);
    }
  }

  /** The profile stored by `processFeedback` carries the updated figures and
      the new stamp: re-analysing the patterns leaves both alone. */
  lemma FeedbackApplied(profile: MemoryManager.Profile, userId: string, feedback: string, now: nat,
    recent: seq<MemoryManager.HistoryEntry>)
    ensures FeedbackProfile(profile, userId, feedback, now, recent).learning
      == AfterFeedback(profile.learning, userId, feedback, now)
    ensures FeedbackProfile(profile, userId, feedback, now, recent).lastUpdated == now
    ensures FeedbackProfile(profile, userId, feedback, now, recent).userId == profile.userId
  {
  }
}
