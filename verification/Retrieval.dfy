/** Retrieval from the two memory indices: ranking, and the fallback ladder. */
module Retrieval {
  datatype Source = TaskMemory | SharedMemory

  /** One search hit; `doc` stands for its stored fields. */
  datatype Hit = Hit(doc: int, score: real)

  datatype Ranked = Ranked(hit: Hit, source: Source)

  function Tagged(hits: seq<Hit>, source: Source): (r: seq<Ranked>)
    ensures |r| == |hits| && forall i :: 0 <= i < |r| ==> r[i] == Ranked(hits[i], source)
  {
    seq(|hits|, i requires 0 <= i < |hits| => Ranked(hits[i], source))
  }

  // ----- The stable descending sort, and what determines it

  predicate Descending(s: seq<Ranked>) {
    forall i, j :: 0 <= i < j < |s| ==> s[i].hit.score >= s[j].hit.score
  }

  /** Put `x`, which came first, into a sorted list: before everything it ties with. */
  function Insert(x: Ranked, s: seq<Ranked>): seq<Ranked> {
    if s == [] || x.hit.score >= s[0].hit.score then [x] + s
    else [s[0]] + Insert(x, s[1..])
  }

  function StableSort(s: seq<Ranked>): seq<Ranked> {
    if s == [] then [] else Insert(s[0], StableSort(s[1..]))
  }

  /** The results with one given score, in the order they have in `s`. */
  function WithScore(s: seq<Ranked>, score: real): seq<Ranked> {
    if s == [] then []
    else (if s[0].hit.score == score then [s[0]] else []) + WithScore(s[1..], score)
  }

  lemma {:induction false} InsertPermutes(x: Ranked, s: seq<Ranked>)
    ensures multiset(Insert(x, s)) == multiset{x} + multiset(s)
  {
    if s != [] && x.hit.score < s[0].hit.score {
      InsertPermutes(x, s[1..]);
      assert s == [s[0]] + s[1..];
    }
  }

  lemma {:induction false} InsertDescends(x: Ranked, s: seq<Ranked>)
    requires Descending(s)
    ensures Descending(Insert(x, s))
  {
    if s != [] && x.hit.score < s[0].hit.score {
      InsertDescends(x, s[1..]);
      InsertPermutes(x, s[1..]);
      var tail := Insert(x, s[1..]);
      forall i | 0 <= i < |tail| ensures s[0].hit.score >= tail[i].hit.score {
        assert tail[i] in multiset(tail);
        assert tail[i] == x || tail[i] in s[1..];
      }
    }
  }

  lemma {:induction false} InsertKeepsTies(x: Ranked, s: seq<Ranked>, score: real)
    ensures WithScore(Insert(x, s), score) == (if x.hit.score == score then [x] else []) + WithScore(s, score)
  {
    if s == [] || x.hit.score >= s[0].hit.score {
      assert ([x] + s)[1..] == s;
    } else {
      InsertKeepsTies(x, s[1..], score);
      assert Insert(x, s)[1..] == Insert(x, s[1..]);
      if x.hit.score == score {
        assert WithScore(s, score) == WithScore(s[1..], score);
      }
    }
  }

  lemma {:induction false} SortKeepsTies(s: seq<Ranked>, score: real)
    ensures WithScore(StableSort(s), score) == WithScore(s, score)
  {
    if s != [] {
      SortKeepsTies(s[1..], score);
      InsertKeepsTies(s[0], StableSort(s[1..]), score);
    }
  }

  /** Sorted, a permutation, and stable: equal scores keep their order. */
  lemma {:induction false} StableSortSound(s: seq<Ranked>)
    ensures Descending(StableSort(s))
    ensures multiset(StableSort(s)) == multiset(s)
    ensures forall score :: WithScore(StableSort(s), score) == WithScore(s, score)
  {
    if s != [] {
      StableSortSound(s[1..]);
      InsertDescends(s[0], StableSort(s[1..]));
      InsertPermutes(s[0], StableSort(s[1..]));
      assert s == [s[0]] + s[1..];
    }
    forall score ensures WithScore(StableSort(s), score) == WithScore(s, score) {
      SortKeepsTies(s, score);
    }
  }

  ghost predicate SameTies(s: seq<Ranked>, t: seq<Ranked>) {
    forall score :: WithScore(s, score) == WithScore(t, score)
  }

  /** Descending order and the order among ties leave no choice. */
  lemma {:induction false} StableSortUnique(s: seq<Ranked>, t: seq<Ranked>)
    requires Descending(s) && Descending(t) && SameTies(s, t)
    ensures s == t
  {
    if s != [] && t != [] {
      SameHead(s, t);
      forall score ensures WithScore(s[1..], score) == WithScore(t[1..], score) {
        SameTails(s, t, score);
      }
      StableSortUnique(s[1..], t[1..]);
      assert s == [s[0]] + s[1..] && t == [t[0]] + t[1..];
    } else if s != [] {
      OwnTies(s);
    } else if t != [] {
      OwnTies(t);
    }
  }

  lemma OwnTies(s: seq<Ranked>)
    requires s != []
    ensures WithScore(s, s[0].hit.score) != []
  {
  }

  lemma SameHead(s: seq<Ranked>, t: seq<Ranked>)
    requires Descending(s) && Descending(t) && SameTies(s, t) && s != [] && t != []
    ensures s[0] == t[0]
  {
    var a, b := s[0].hit.score, t[0].hit.score;
    assert WithScore(s, a)[0] == s[0] && WithScore(t, b)[0] == t[0];
    assert WithScore(s, a) == WithScore(t, a) && WithScore(s, b) == WithScore(t, b);
    if a > b {
      NoneAbove(t, a);
    } else if b > a {
      NoneAbove(s, b);
    }
  }

  lemma SameTails(s: seq<Ranked>, t: seq<Ranked>, score: real)
    requires s != [] && t != [] && s[0] == t[0] && WithScore(s, score) == WithScore(t, score)
    ensures WithScore(s[1..], score) == WithScore(t[1..], score)
  {
    if s[0].hit.score == score {
      assert WithScore(s, score)[1..] == WithScore(s[1..], score);
      assert WithScore(t, score)[1..] == WithScore(t[1..], score);
    } else {
      assert WithScore(s, score) == WithScore(s[1..], score);
      assert WithScore(t, score) == WithScore(t[1..], score);
    }
  }

  lemma {:induction false} NoneAbove(s: seq<Ranked>, score: real)
    requires Descending(s) && (s != [] ==> s[0].hit.score < score)
    ensures WithScore(s, score) == []
  {
    if |s| > 1 {
      NoneAbove(s[1..], score);
    }
  }

  lemma SortedIsFixed(s: seq<Ranked>)
    requires Descending(s)
    ensures StableSort(s) == s
  {
    StableSortSound(s);
    StableSortUnique(StableSort(s), s);
  }

  // ----- Merging two sources

  function Take<T>(s: seq<T>, n: nat): seq<T> {
    if n >= |s| then s else s[..n]
  }

  /** Python's `s[:n]`: a negative bound counts from the end. */
  function Slice<T>(s: seq<T>, n: int): seq<T> {
    if n >= 0 then Take(s, n)
    else if |s| + n > 0 then s[..|s| + n]
    else []
  }

  function MergedAndRanked(taskHits: seq<Hit>, sharedHits: seq<Hit>, limit: int): seq<Ranked> {
    Slice(StableSort(Tagged(taskHits, TaskMemory) + Tagged(sharedHits, SharedMemory)), limit)
  }

  method MergeAndRankResults(taskHits: seq<Hit>, sharedHits: seq<Hit>, limit: int := 10)
    returns (ranked: seq<Ranked>)
    ensures ranked == MergedAndRanked(taskHits, sharedHits, limit)
    ensures Descending(ranked)
    ensures multiset(ranked) <= multiset(Tagged(taskHits, TaskMemory)) + multiset(Tagged(sharedHits, SharedMemory))
  {
    var all: seq<Ranked> := [];
    for i := 0 to |taskHits|
      invariant all == Tagged(taskHits, TaskMemory)[..i]
    {
      all := all + [Ranked(taskHits[i], TaskMemory)];
    }
    ghost var fromTask := all;
    for i := 0 to |sharedHits|
      invariant all == fromTask + Tagged(sharedHits, SharedMemory)[..i]
    {
      all := all + [Ranked(sharedHits[i], SharedMemory)];
    }
    ghost var unsorted := all;
    assert unsorted == Tagged(taskHits, TaskMemory) + Tagged(sharedHits, SharedMemory);
    all := StableSort(all);
    StableSortSound(unsorted);
    ranked := Slice(all, limit);
    SliceIsPart(all, limit);
  }

  lemma SliceIsPart<T>(s: seq<T>, n: int)
    ensures multiset(Slice(s, n)) <= multiset(s)
  {
    var r := Slice(s, n);
    assert s == r + s[|r|..];
  }

  /** Stable merge of two sorted lists: the left one first on ties. */
  function Merge(s: seq<Ranked>, t: seq<Ranked>): seq<Ranked> {
    if s == [] then t
    else if t == [] then s
    else if s[0].hit.score >= t[0].hit.score then [s[0]] + Merge(s[1..], t)
    else [t[0]] + Merge(s, t[1..])
  }

  lemma {:induction false} InsertIntoMerge(x: Ranked, s: seq<Ranked>, t: seq<Ranked>)
    requires Descending(s) && Descending(t)
    ensures Insert(x, Merge(s, t)) == Merge(Insert(x, s), t)
  {
    var xs := Insert(x, s);
    if s == [] {
      assert xs == [x];
      InsertSingle(x, t);
    } else if t == [] {
    } else if x.hit.score >= s[0].hit.score {
      assert xs == [x] + s && xs[1..] == s;
      if x.hit.score < t[0].hit.score {
        InsertIntoMerge(x, s, t[1..]);
        assert Merge(s, t) == [t[0]] + Merge(s, t[1..]);
      }
    } else if s[0].hit.score >= t[0].hit.score {
      InsertIntoMerge(x, s[1..], t);
      assert xs[1..] == Insert(x, s[1..]);
    } else {
      InsertIntoMerge(x, s, t[1..]);
    }
  }

  lemma {:induction false} InsertSingle(x: Ranked, t: seq<Ranked>)
    requires Descending(t)
    ensures Insert(x, t) == Merge([x], t)
  {
    assert [x][1..] == [];
    if t != [] && x.hit.score < t[0].hit.score {
      InsertSingle(x, t[1..]);
    }
  }

  /** Sorting a concatenation is merging the sorted halves. */
  lemma {:induction false} SortConcatenation(s: seq<Ranked>, t: seq<Ranked>)
    ensures StableSort(s + t) == Merge(StableSort(s), StableSort(t))
  {
    if s == [] {
      assert s + t == t;
    } else {
      assert (s + t)[1..] == s[1..] + t;
      SortConcatenation(s[1..], t);
      StableSortSound(s[1..]);
      StableSortSound(t);
      InsertIntoMerge(s[0], StableSort(s[1..]), StableSort(t));
    }
  }

  lemma MergeLocalEnd(s: seq<Ranked>, t: seq<Ranked>, n: nat)
    requires n == 0 || s == [] || t == []
    ensures Take(Merge(Take(s, n), Take(t, n)), n) == Take(Merge(s, t), n)
  {
  }

  /** The first `n` of a merge come from the first `n` of each side. */
  lemma {:induction false} MergeLocal(s: seq<Ranked>, t: seq<Ranked>, n: nat)
    ensures Take(Merge(Take(s, n), Take(t, n)), n) == Take(Merge(s, t), n)
    decreases |s| + |t|
  {
    hide Merge;
    var a, b := Take(s, n), Take(t, n);
    if n == 0 || s == [] || t == [] {
      MergeLocalEnd(s, t, n);
    } else if s[0].hit.score >= t[0].hit.score {
      MergeStep(s, t, n);
      MergeStep(a, b, n);
      assert a[1..] == Take(s[1..], n - 1);
      MergeLocal(s[1..], t, n - 1);
      MergeLocal(a[1..], b, n - 1);
      assert Take(a[1..], n - 1) == a[1..] && Take(b, n - 1) == Take(t, n - 1);
    } else {
      MergeStep(s, t, n);
      MergeStep(a, b, n);
      assert b[1..] == Take(t[1..], n - 1);
      MergeLocal(s, t[1..], n - 1);
      MergeLocal(a, b[1..], n - 1);
      assert Take(b[1..], n - 1) == b[1..] && Take(a, n - 1) == Take(s, n - 1);
    }
  }

  lemma MergeStep(s: seq<Ranked>, t: seq<Ranked>, n: nat)
    requires n > 0 && s != [] && t != []
    ensures Take(Merge(s, t), n) ==
      if s[0].hit.score >= t[0].hit.score then [s[0]] + Take(Merge(s[1..], t), n - 1)
      else [t[0]] + Take(Merge(s, t[1..]), n - 1)
  {
    TakeStep(s[0], Merge(s[1..], t), n);
    TakeStep(t[0], Merge(s, t[1..]), n);
  }

  lemma TakeStep(x: Ranked, s: seq<Ranked>, n: nat)
    requires n > 0
    ensures Take([x] + s, n) == [x] + Take(s, n - 1)
  {
  }

  /** What an index holds for a query, and the stable top `n` of it that a search returns. */
  function TopHits(index: seq<Hit>, n: nat): seq<Hit> {
    seq(|Take(StableSort(Tagged(index, TaskMemory)), n)|,
      i requires 0 <= i < |Take(StableSort(Tagged(index, TaskMemory)), n)| =>
        Take(StableSort(Tagged(index, TaskMemory)), n)[i].hit)
  }

  lemma {:induction false} SortTagged(hits: seq<Hit>, source: Source)
    ensures var plain := StableSort(Tagged(hits, TaskMemory));
      var sorted := StableSort(Tagged(hits, source));
      && |sorted| == |plain|
      && forall i :: 0 <= i < |sorted| ==> sorted[i] == Ranked(plain[i].hit, source)
  {
    if hits != [] {
      SortTagged(hits[1..], source);
      assert Tagged(hits, source)[1..] == Tagged(hits[1..], source);
      assert Tagged(hits, TaskMemory)[1..] == Tagged(hits[1..], TaskMemory);
      InsertRetagged(Ranked(hits[0], TaskMemory), StableSort(Tagged(hits[1..], TaskMemory)),
        StableSort(Tagged(hits[1..], source)), source);
    }
  }

  lemma {:induction false} InsertRetagged(x: Ranked, s: seq<Ranked>, t: seq<Ranked>, source: Source)
    requires |s| == |t| && forall i :: 0 <= i < |s| ==> t[i] == Ranked(s[i].hit, source)
    ensures var a, b := Insert(x, s), Insert(Ranked(x.hit, source), t);
      |a| == |b| && forall i :: 0 <= i < |a| ==> b[i] == Ranked(a[i].hit, source)
  {
    if s != [] && x.hit.score < s[0].hit.score {
      InsertRetagged(x, s[1..], t[1..], source);
    }
  }

  lemma TopHitsTagged(index: seq<Hit>, n: nat, source: Source)
    ensures Tagged(TopHits(index, n), source) == Take(StableSort(Tagged(index, source)), n)
  {
    SortTagged(index, source);
  }

  /** Ranking what each index returns as its own top `limit` gives the top `limit` of everything. */
  lemma RankingIsLocal(taskIndex: seq<Hit>, sharedIndex: seq<Hit>, limit: nat)
    ensures MergedAndRanked(TopHits(taskIndex, limit), TopHits(sharedIndex, limit), limit)
         == MergedAndRanked(taskIndex, sharedIndex, limit)
  {
    var s, t := StableSort(Tagged(taskIndex, TaskMemory)), StableSort(Tagged(sharedIndex, SharedMemory));
    var a, b := Take(s, limit), Take(t, limit);
    TopHitsTagged(taskIndex, limit, TaskMemory);
    TopHitsTagged(sharedIndex, limit, SharedMemory);
    StableSortSound(Tagged(taskIndex, TaskMemory));
    StableSortSound(Tagged(sharedIndex, SharedMemory));
    SortedIsFixed(a);
    SortedIsFixed(b);
    SortConcatenation(a, b);
    SortConcatenation(Tagged(taskIndex, TaskMemory), Tagged(sharedIndex, SharedMemory));
    MergeLocal(s, t, limit);
  }

  // ----- The fallback ladder

  const QUERY_TIMEOUT_MS := 250
  const RETRY_JITTER_MS := 50
  const RETRY_BASE_MS := 50

  datatype Error = ConnectionTimeout | ConnectionError | TransportError | OtherError

  predicate IsRetryable(e: Error) {
    e.ConnectionTimeout? || e.ConnectionError? || e.TransportError?
  }

  datatype QueryKind = MultiMatch | SimpleMatch

  /** A search as sent: which index, and how demanding the query is. */
  datatype Query = Query(index: Source, kind: QueryKind, timeoutMs: nat)

  datatype SearchReply = Hits(hits: seq<Hit>) | Raises(error: Error)

  /** What the two indices would answer at one level of the ladder. */
  datatype LevelReplies = LevelReplies(task: SearchReply, shared: SearchReply)

  datatype Attempt = Found(ranked: seq<Ranked>) | Raised(error: Error)

  /** The enabled indices, and how many results are wanted. */
  datatype Wanted = Wanted(task: bool, shared: bool, limit: int)

  /** One level: both searches must answer, task memory being asked first. */
  function LevelOutcome(replies: LevelReplies, wanted: Wanted): Attempt {
    if wanted.task && replies.task.Raises? then Raised(replies.task.error)
    else if wanted.shared && replies.shared.Raises? then Raised(replies.shared.error)
    else Found(MergedAndRanked(if wanted.task then replies.task.hits else [],
                               if wanted.shared then replies.shared.hits else [], wanted.limit))
  }

  function LevelQueries(replies: LevelReplies, wanted: Wanted, kind: QueryKind): seq<Query> {
    (if wanted.task then [Query(TaskMemory, kind, QUERY_TIMEOUT_MS)] else []) +
    (if wanted.shared && !(wanted.task && replies.task.Raises?)
     then [Query(SharedMemory, kind, QUERY_TIMEOUT_MS)] else [])
  }

  /** The first attempt that answered; nothing when none did. */
  function FirstSuccess(attempts: seq<Attempt>): seq<Ranked> {
    if attempts == [] then []
    else if attempts[0].Found? then attempts[0].ranked
    else FirstSuccess(attempts[1..])
  }

  datatype LadderReplies = LadderReplies(full: LevelReplies, retry: LevelReplies, simple: LevelReplies)

  /** The attempts a search may fall back on: a permanent first error ends the ladder. */
  function AttemptsAllowed(r: LadderReplies, wanted: Wanted): seq<Attempt> {
    var first := LevelOutcome(r.full, wanted);
    if !wanted.task && !wanted.shared then []
    else if first.Raised? && !IsRetryable(first.error) then [first]
    else [first, LevelOutcome(r.retry, wanted), LevelOutcome(r.simple, wanted)]
  }

  function EnabledIndices(wanted: Wanted): nat {
    (if wanted.task then 1 else 0) + (if wanted.shared then 1 else 0)
  }

  function TotalTimeout(queries: seq<Query>): nat {
    if queries == [] then 0 else queries[0].timeoutMs + TotalTimeout(queries[1..])
  }

  lemma {:induction false} TotalTimeoutSum(queries: seq<Query>, more: seq<Query>)
    ensures TotalTimeout(queries + more) == TotalTimeout(queries) + TotalTimeout(more)
  {
    if queries == [] {
      assert queries + more == more;
    } else {
      assert (queries + more)[1..] == queries[1..] + more;
      TotalTimeoutSum(queries[1..], more);
    }
  }

  lemma {:induction false} TotalTimeoutBound(queries: seq<Query>)
    requires forall i :: 0 <= i < |queries| ==> queries[i].timeoutMs == QUERY_TIMEOUT_MS
    ensures TotalTimeout(queries) == QUERY_TIMEOUT_MS * |queries|
  {
    if queries != [] {
      TotalTimeoutBound(queries[1..]);
    }
  }

  /** What the ladder returns, level by level. */
  lemma LadderUnfolds(r: LadderReplies, wanted: Wanted)
    requires wanted.task || wanted.shared
    ensures var first, second, third :=
        LevelOutcome(r.full, wanted), LevelOutcome(r.retry, wanted), LevelOutcome(r.simple, wanted);
      FirstSuccess(AttemptsAllowed(r, wanted)) ==
        if first.Found? then first.ranked
        else if !IsRetryable(first.error) then []
        else if second.Found? then second.ranked
        else if third.Found? then third.ranked
        else []
  {
    var attempts := AttemptsAllowed(r, wanted);
    if |attempts| == 3 {
      var rest, last := attempts[1..], [attempts[2]];
      assert rest[1..] == last && last[1..] == [];
      assert FirstSuccess(last) == if last[0].Found? then last[0].ranked else [];
      assert FirstSuccess(rest) == if rest[0].Found? then rest[0].ranked else FirstSuccess(last);
    } else {
      assert attempts[1..] == [];
    }
  }

  /** A level fails when an index that is asked raises; task memory is asked first. */
  predicate LevelFails(replies: LevelReplies, wanted: Wanted) {
    (wanted.task && replies.task.Raises?) || (wanted.shared && replies.shared.Raises?)
  }

  /** The error of a level that fails. */
  function LevelError(replies: LevelReplies, wanted: Wanted): Error
    requires LevelFails(replies, wanted)
  {
    if wanted.task && replies.task.Raises? then replies.task.error else replies.shared.error
  }

  /** The first level failed in a way that may pass: only another error than these three is permanent. */
  predicate Retries(replies: LevelReplies, wanted: Wanted) {
    LevelFails(replies, wanted) && LevelError(replies, wanted) in {ConnectionTimeout, ConnectionError, TransportError}
  }

  /** The searches of a whole ladder: full, full again after a passing failure, then the simple query. */
  function LadderQueries(r: LadderReplies, wanted: Wanted): seq<Query> {
    if !wanted.task && !wanted.shared then []
    else
      LevelQueries(r.full, wanted, MultiMatch) +
      (if Retries(r.full, wanted) then LowerQueries(r, wanted) else [])
  }

  function LowerQueries(r: LadderReplies, wanted: Wanted): seq<Query> {
    LevelQueries(r.retry, wanted, MultiMatch) +
    (if LevelFails(r.retry, wanted) then LevelQueries(r.simple, wanted, SimpleMatch) else [])
  }

  /** The searches of one level, with a timeout of 250 ms each: shared memory is not asked after task
      memory has raised. */
  lemma LevelQueriesExactly(replies: LevelReplies, wanted: Wanted, kind: QueryKind)
    ensures var t, s := Query(TaskMemory, kind, 250), Query(SharedMemory, kind, 250);
      LevelQueries(replies, wanted, kind) ==
        if wanted.task && wanted.shared then (if replies.task.Raises? then [t] else [t, s])
        else if wanted.task then [t] else if wanted.shared then [s] else []
  {
  }

  /** The levels of a ladder: the demanding query, once more after a passing failure, and the simple query
      only after both have failed. */
  lemma LadderQueriesExactly(r: LadderReplies, wanted: Wanted)
    requires wanted.task || wanted.shared
    ensures var full, retry, simple := LevelQueries(r.full, wanted, MultiMatch), LevelQueries(r.retry, wanted, MultiMatch),
                                       LevelQueries(r.simple, wanted, SimpleMatch);
      LadderQueries(r, wanted) ==
        if !LevelFails(r.full, wanted) || LevelError(r.full, wanted) == OtherError then full
        else if !LevelFails(r.retry, wanted) then full + retry
        else full + retry + simple
  {
    var retry := LevelQueries(r.retry, wanted, MultiMatch);
    assert retry + [] == retry;
  }

  lemma LevelFailsExactly(replies: LevelReplies, wanted: Wanted)
    ensures LevelOutcome(replies, wanted).Raised? <==> LevelFails(replies, wanted)
    ensures LevelFails(replies, wanted) ==> LevelOutcome(replies, wanted).error == LevelError(replies, wanted)
    ensures Retries(replies, wanted) <==>
      LevelOutcome(replies, wanted).Raised? && IsRetryable(LevelOutcome(replies, wanted).error)
  {
  }

  /** The search side of a memory store: what it has sent and how long it has slept. */
  class Searcher {
    var sent: seq<Query>
    var sleptMs: nat

    constructor ()
      ensures sent == [] && sleptMs == 0
    {
      sent := [];
      sleptMs := 0;
    }

    method ExecuteFullQuery(replies: LevelReplies, wanted: Wanted) returns (r: Attempt)
      modifies this`sent
      ensures r == LevelOutcome(replies, wanted)
      ensures sent == old(sent) + LevelQueries(replies, wanted, MultiMatch)
      ensures |sent| <= |old(sent)| + EnabledIndices(wanted)
      ensures TotalTimeout(sent) <= TotalTimeout(old(sent)) + QUERY_TIMEOUT_MS * EnabledIndices(wanted)
      ensures r.Found? ==> Descending(r.ranked) && (wanted.limit >= 0 ==> |r.ranked| <= wanted.limit)
    {
      LevelFacts(replies, wanted, MultiMatch);
      TotalTimeoutSum(sent, LevelQueries(replies, wanted, MultiMatch));
      var taskHits: seq<Hit>, sharedHits: seq<Hit> := [], [];
      if wanted.task {
        sent := sent + [Query(TaskMemory, MultiMatch, QUERY_TIMEOUT_MS)];
        if replies.task.Raises? { return Raised(replies.task.error); }
        taskHits := replies.task.hits;
      }
      if wanted.shared {
        sent := sent + [Query(SharedMemory, MultiMatch, QUERY_TIMEOUT_MS)];
        if replies.shared.Raises? { return Raised(replies.shared.error); }
        sharedHits := replies.shared.hits;
      }
      var ranked := MergeAndRankResults(taskHits, sharedHits, wanted.limit);
      r := Found(ranked);
    }

    method ExecuteBm25Query(replies: LevelReplies, wanted: Wanted) returns (r: Attempt)
      modifies this`sent
      ensures r == LevelOutcome(replies, wanted)
      ensures sent == old(sent) + LevelQueries(replies, wanted, SimpleMatch)
      ensures |sent| <= |old(sent)| + EnabledIndices(wanted)
      ensures TotalTimeout(sent) <= TotalTimeout(old(sent)) + QUERY_TIMEOUT_MS * EnabledIndices(wanted)
      ensures r.Found? ==> Descending(r.ranked) && (wanted.limit >= 0 ==> |r.ranked| <= wanted.limit)
    {
      LevelFacts(replies, wanted, SimpleMatch);
      TotalTimeoutSum(sent, LevelQueries(replies, wanted, SimpleMatch));
      var taskHits: seq<Hit>, sharedHits: seq<Hit> := [], [];
      if wanted.task {
        sent := sent + [Query(TaskMemory, SimpleMatch, QUERY_TIMEOUT_MS)];
        if replies.task.Raises? { return Raised(replies.task.error); }
        taskHits := replies.task.hits;
      }
      if wanted.shared {
        sent := sent + [Query(SharedMemory, SimpleMatch, QUERY_TIMEOUT_MS)];
        if replies.shared.Raises? { return Raised(replies.shared.error); }
        sharedHits := replies.shared.hits;
      }
      var ranked := MergeAndRankResults(taskHits, sharedHits, wanted.limit);
      r := Found(ranked);
    }

    method UnifiedSearch(replies: LadderReplies, wanted: Wanted, jitterMs: nat) returns (ranked: seq<Ranked>)
      requires jitterMs <= RETRY_JITTER_MS
      modifies this
      ensures ranked == FirstSuccess(AttemptsAllowed(replies, wanted))
      ensures Descending(ranked) && (wanted.limit >= 0 ==> |ranked| <= wanted.limit)
      ensures old(sent) <= sent && |sent| <= |old(sent)| + 3 * EnabledIndices(wanted)
      ensures TotalTimeout(sent) + sleptMs
           <= TotalTimeout(old(sent)) + old(sleptMs) + 750 * EnabledIndices(wanted) + 100
      ensures sent == old(sent) + LadderQueries(replies, wanted)
      ensures sleptMs == old(sleptMs) + (if Retries(replies.full, wanted) then 50 + jitterMs else 0)
    {
      ranked := Search(replies, wanted, jitterMs);
      LadderBudget(replies, wanted);
      TotalTimeoutSum(old(sent), LadderQueries(replies, wanted));
    }

    /** The search itself; what it costs follows from what it sends. */
    method Search(replies: LadderReplies, wanted: Wanted, jitterMs: nat) returns (ranked: seq<Ranked>)
      modifies this
      ensures ranked == FirstSuccess(AttemptsAllowed(replies, wanted))
      ensures Descending(ranked) && (wanted.limit >= 0 ==> |ranked| <= wanted.limit)
      ensures sent == old(sent) + LadderQueries(replies, wanted)
      ensures sleptMs == old(sleptMs) + (if Retries(replies.full, wanted) then 50 + jitterMs else 0)
    {
      hide FirstSuccess, AttemptsAllowed, LevelOutcome, LadderQueries, LevelQueries, LowerQueries, Descending,
           TotalTimeout, Retries, IsRetryable;
      LadderSplits(replies, wanted);
      if !wanted.task && !wanted.shared {
        return [];
      }
      var attempt := ExecuteFullQuery(replies.full, wanted);
      if attempt.Found? {
        return attempt.ranked;
      }
      if !IsRetryable(attempt.error) {
        return [];
      }
      sleptMs := sleptMs + RETRY_BASE_MS + jitterMs;
      ranked := FallBack(replies, wanted);
    }

    /** The lower levels: the full query once more, and then the simple one. */
    method FallBack(replies: LadderReplies, wanted: Wanted) returns (ranked: seq<Ranked>)
      modifies this`sent
      ensures ranked == FirstSuccess([LevelOutcome(replies.retry, wanted), LevelOutcome(replies.simple, wanted)])
      ensures Descending(ranked) && (wanted.limit >= 0 ==> |ranked| <= wanted.limit)
      ensures sent == old(sent) + LowerQueries(replies, wanted)
    {
      hide FirstSuccess, LevelOutcome, LevelQueries, LevelFails, Descending, TotalTimeout, Retries, IsRetryable;
      LevelFailsExactly(replies.retry, wanted);
      TwoAttempts(LevelOutcome(replies.retry, wanted), LevelOutcome(replies.simple, wanted));
      var attempt := ExecuteFullQuery(replies.retry, wanted);
      if attempt.Found? {
        return attempt.ranked;
      }
      attempt := ExecuteBm25Query(replies.simple, wanted);
      if attempt.Found? {
        return attempt.ranked;
      }
      ranked := [];
      EmptyDescends();
    }
  }

  lemma EmptyDescends()
    ensures Descending([])
  {
  }

  /** The ladder's result and searches, split at its first level. */
  lemma LadderSplits(r: LadderReplies, wanted: Wanted)
    ensures var first := LevelOutcome(r.full, wanted);
      if !wanted.task && !wanted.shared then
        FirstSuccess(AttemptsAllowed(r, wanted)) == [] && LadderQueries(r, wanted) == [] && !Retries(r.full, wanted)
        && Descending([])
      else if first.Found? then
        && FirstSuccess(AttemptsAllowed(r, wanted)) == first.ranked && !Retries(r.full, wanted)
        && LadderQueries(r, wanted) == LevelQueries(r.full, wanted, MultiMatch)
      else if !IsRetryable(first.error) then
        && FirstSuccess(AttemptsAllowed(r, wanted)) == [] && !Retries(r.full, wanted) && Descending([])
        && LadderQueries(r, wanted) == LevelQueries(r.full, wanted, MultiMatch)
      else
        && FirstSuccess(AttemptsAllowed(r, wanted))
           == FirstSuccess([LevelOutcome(r.retry, wanted), LevelOutcome(r.simple, wanted)])
        && Retries(r.full, wanted)
        && LadderQueries(r, wanted) == LevelQueries(r.full, wanted, MultiMatch) + LowerQueries(r, wanted)
  {
    LevelFailsExactly(r.full, wanted);
    if wanted.task || wanted.shared {
      LadderUnfolds(r, wanted);
      TwoAttempts(LevelOutcome(r.retry, wanted), LevelOutcome(r.simple, wanted));
    }
  }

  /** What a ladder may cost: three searches for each index, of 250 ms each. */
  lemma LadderBudget(r: LadderReplies, wanted: Wanted)
    ensures |LadderQueries(r, wanted)| <= 3 * EnabledIndices(wanted)
    ensures TotalTimeout(LadderQueries(r, wanted)) <= 750 * EnabledIndices(wanted)
  {
    var full, retry, simple := LevelQueries(r.full, wanted, MultiMatch), LevelQueries(r.retry, wanted, MultiMatch),
                               LevelQueries(r.simple, wanted, SimpleMatch);
    LevelQueriesBounded(r.full, wanted, MultiMatch);
    LevelQueriesBounded(r.retry, wanted, MultiMatch);
    LevelQueriesBounded(r.simple, wanted, SimpleMatch);
    TotalTimeoutSum(retry, simple);
    TotalTimeoutSum(retry, []);
    TotalTimeoutSum(full, LowerQueries(r, wanted));
    TotalTimeoutSum(full, []);
  }

  lemma TwoAttempts(first: Attempt, second: Attempt)
    ensures FirstSuccess([first, second]) ==
      if first.Found? then first.ranked else if second.Found? then second.ranked else []
  {
    assert [first, second][1..] == [second] && [second][1..] == [];
    assert FirstSuccess([second]) == if second.Found? then second.ranked else FirstSuccess([]);
  }

  lemma LevelQueriesBounded(replies: LevelReplies, wanted: Wanted, kind: QueryKind)
    ensures var queries := LevelQueries(replies, wanted, kind);
      && |queries| <= EnabledIndices(wanted)
      && TotalTimeout(queries) <= QUERY_TIMEOUT_MS * EnabledIndices(wanted)
  {
    TotalTimeoutBound(LevelQueries(replies, wanted, kind));
  }

  lemma SliceDescends(s: seq<Ranked>, n: int)
    requires Descending(s)
    ensures Descending(Slice(s, n)) && (n >= 0 ==> |Slice(s, n)| <= n)
  {
  }

  lemma MergedDescends(taskHits: seq<Hit>, sharedHits: seq<Hit>, limit: int)
    ensures var ranked := MergedAndRanked(taskHits, sharedHits, limit);
      Descending(ranked) && (limit >= 0 ==> |ranked| <= limit)
  {
    var all := Tagged(taskHits, TaskMemory) + Tagged(sharedHits, SharedMemory);
    StableSortSound(all);
    SliceDescends(StableSort(all), limit);
  }

  /** One level asks each enabled index at most once and ranks what it got. */
  lemma LevelFacts(replies: LevelReplies, wanted: Wanted, kind: QueryKind)
    ensures var queries := LevelQueries(replies, wanted, kind);
      && |queries| <= EnabledIndices(wanted)
      && TotalTimeout(queries) <= QUERY_TIMEOUT_MS * EnabledIndices(wanted)
    ensures LevelOutcome(replies, wanted).Found? ==>
      var ranked := LevelOutcome(replies, wanted).ranked;
      Descending(ranked) && (wanted.limit >= 0 ==> |ranked| <= wanted.limit)
  {
    LevelQueriesBounded(replies, wanted, kind);
    if LevelOutcome(replies, wanted).Found? {
      MergedDescends(if wanted.task then replies.task.hits else [],
                     if wanted.shared then replies.shared.hits else [], wanted.limit);
    }
  }

  /** The enabled indices answer a level with their own stable top hits. */
  predicate AnswersWithTop(replies: LevelReplies, wanted: Wanted, taskIndex: seq<Hit>, sharedIndex: seq<Hit>)
    requires wanted.limit >= 0
  {
    && (wanted.task ==> replies.task == Hits(TopHits(taskIndex, wanted.limit)))
    && (wanted.shared ==> replies.shared == Hits(TopHits(sharedIndex, wanted.limit)))
  }

  /** The stable top of everything the enabled indices hold, each hit with its own index's tag. */
  function GlobalTop(wanted: Wanted, taskIndex: seq<Hit>, sharedIndex: seq<Hit>): seq<Ranked>
    requires wanted.limit >= 0
  {
    Take(StableSort((if wanted.task then Tagged(taskIndex, TaskMemory) else [])
                    + (if wanted.shared then Tagged(sharedIndex, SharedMemory) else [])), wanted.limit)
  }

  lemma AnsweredLevelIsTop(replies: LevelReplies, wanted: Wanted, taskIndex: seq<Hit>, sharedIndex: seq<Hit>)
    requires wanted.limit >= 0 && AnswersWithTop(replies, wanted, taskIndex, sharedIndex)
    ensures LevelOutcome(replies, wanted) == Found(GlobalTop(wanted, taskIndex, sharedIndex))
  {
    var t, s := if wanted.task then taskIndex else [], if wanted.shared then sharedIndex else [];
    assert TopHits([], wanted.limit) == [];
    RankingIsLocal(t, s, wanted.limit);
    assert Tagged(t, TaskMemory) == if wanted.task then Tagged(taskIndex, TaskMemory) else [];
    assert Tagged(s, SharedMemory) == if wanted.shared then Tagged(sharedIndex, SharedMemory) else [];
  }

  /** Whatever indices are asked, a search returns the top of everything they hold when the full query is
      answered, or the retry after a passing failure, or the simple query after both have failed. */
  lemma AnsweredSearchIsGlobalTop(taskIndex: seq<Hit>, sharedIndex: seq<Hit>, wanted: Wanted, r: LadderReplies)
    requires wanted.limit >= 0 && (wanted.task || wanted.shared)
    requires
      || AnswersWithTop(r.full, wanted, taskIndex, sharedIndex)
      || (Retries(r.full, wanted) && AnswersWithTop(r.retry, wanted, taskIndex, sharedIndex))
      || (Retries(r.full, wanted) && LevelFails(r.retry, wanted) && AnswersWithTop(r.simple, wanted, taskIndex, sharedIndex))
    ensures FirstSuccess(AttemptsAllowed(r, wanted)) == GlobalTop(wanted, taskIndex, sharedIndex)
  {
    LadderUnfolds(r, wanted);
    LevelFailsExactly(r.full, wanted);
    LevelFailsExactly(r.retry, wanted);
    if AnswersWithTop(r.full, wanted, taskIndex, sharedIndex) {
      AnsweredLevelIsTop(r.full, wanted, taskIndex, sharedIndex);
    } else if AnswersWithTop(r.retry, wanted, taskIndex, sharedIndex) {
      AnsweredLevelIsTop(r.retry, wanted, taskIndex, sharedIndex);
    } else {
      AnsweredLevelIsTop(r.simple, wanted, taskIndex, sharedIndex);
    }
  }

  /** A search returns nothing when no index is enabled, after a permanent failure, and when all levels fail. */
  lemma UnansweredSearchIsEmpty(wanted: Wanted, r: LadderReplies)
    requires
      || (!wanted.task && !wanted.shared)
      || (LevelFails(r.full, wanted) && !Retries(r.full, wanted))
      || (LevelFails(r.full, wanted) && LevelFails(r.retry, wanted) && LevelFails(r.simple, wanted))
    ensures FirstSuccess(AttemptsAllowed(r, wanted)) == []
  {
    if wanted.task || wanted.shared {
      LadderUnfolds(r, wanted);
      LevelFailsExactly(r.full, wanted);
      LevelFailsExactly(r.retry, wanted);
      LevelFailsExactly(r.simple, wanted);
    }
  }

  /** A search of shared memory alone, or of task memory alone, returns that index's own top. */
  lemma OneIndexSearched(index: seq<Hit>, source: Source, limit: nat, r: LadderReplies)
    requires (if source.TaskMemory? then r.full.task else r.full.shared) == Hits(TopHits(index, limit))
    ensures FirstSuccess(AttemptsAllowed(r, Wanted(source.TaskMemory?, source.SharedMemory?, limit)))
         == Take(StableSort(Tagged(index, source)), limit)
  {
    var wanted := Wanted(source.TaskMemory?, source.SharedMemory?, limit);
    AnsweredSearchIsGlobalTop(index, index, wanted, r);
    assert Tagged(index, source) + [] == Tagged(index, source) == [] + Tagged(index, source);
  }

  /** Python's slice with a negative bound drops that many from the end. */
  lemma NegativeSlice<T>(s: seq<T>, n: int)
    requires n < 0
    ensures |s| + n >= 0 ==> |Slice(s, n)| == |s| + n && Slice(s, n) <= s
    ensures |s| + n < 0 ==> Slice(s, n) == []
  {
  }
}
