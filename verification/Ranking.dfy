/** Reciprocal rank fusion of a keyword and a vector ranking (ranking.py), in exact reals. */
module Ranking {
  import opened Results
  import opened Sorting
  import opened Dictionaries

  datatype RetrievalCandidate<+Id> = RetrievalCandidate(chunkId: Id, rank: nat, score: real)

  datatype FusedCandidate<+Id> = FusedCandidate(
    chunkId: Id, score: real, keywordRank: Option<nat>, vectorRank: Option<nat>)

  datatype RankingError = NonPositiveK

  /** The order of the identifiers' texts. */
  ghost predicate IsOrder<Id(!new)>(leq: (Id, Id) -> bool) {
    IsPreorder(leq) && forall a, b :: leq(a, b) && leq(b, a) ==> a == b
  }

  type Candidates<Id> = seq<RetrievalCandidate<Id>>

  predicate Occurs<Id(==)>(list: Candidates<Id>, id: Id) {
    exists i :: 0 <= i < |list| && list[i].chunkId == id
  }

  function Share(k: int, rank: nat): real
    requires k >= 1
  {
    1.0 / (k + rank) as real
  }

  /** The sum of the shares of all occurrences. */
  function Score<Id(==)>(list: Candidates<Id>, id: Id, k: int): real
    requires k >= 1
  {
    if list == [] then 0.0
    else
      var last := list[|list| - 1];
      Score(list[..|list| - 1], id, k) + if last.chunkId == id then Share(k, last.rank) else 0.0
  }

  predicate IsLastRank<Id(==)>(list: Candidates<Id>, id: Id, rank: nat) {
    exists i :: 0 <= i < |list| && list[i].chunkId == id && list[i].rank == rank && forall j :: i < j < |list| ==> list[j].chunkId != id
  }

  /** `{candidate.chunk_id: candidate.rank for ...}.get(id)`: of several occurrences the last counts. */
  function LastRank<Id(==)>(list: Candidates<Id>, id: Id): (r: Option<nat>)
    ensures r.Some? <==> Occurs(list, id)
    ensures r.Some? ==> IsLastRank(list, id, r.value)
  {
    if list == [] then None
    else
      var front, last := list[..|list| - 1], list[|list| - 1];
      assert forall i :: 0 <= i < |front| ==> front[i] == list[i];
      if last.chunkId == id then Some(last.rank) else LastRank(front, id)
  }

  /** The dictionary holds the scores of exactly the ids of the list. */
  ghost predicate Tallies<Id(!new)>(scores: Dictionary<Id, real>, list: Candidates<Id>, k: int)
    requires k >= 1
  {
    && DistinctKeys(scores)
    && forall id :: Get(scores, id) == if Occurs(list, id) then Some(Score(list, id, k)) else None
  }

  function ScoreSoFar<Id(==)>(scores: Dictionary<Id, real>, id: Id): real {
    var found := Get(scores, id);
    if found.Some? then found.value else 0.0
  }

  lemma {:induction false} AbsentScoresNothing<Id>(list: Candidates<Id>, id: Id, k: int)
    requires k >= 1 && !Occurs(list, id)
    ensures Score(list, id, k) == 0.0
  {
    if list != [] {
      var front := list[..|list| - 1];
      assert forall i :: 0 <= i < |front| ==> front[i] == list[i];
      AbsentScoresNothing(front, id, k);
    }
  }

  lemma TallyOneMore<Id(!new)>(scores: Dictionary<Id, real>, list: Candidates<Id>, c: RetrievalCandidate<Id>, k: int)
    requires k >= 1 && Tallies(scores, list, k)
    ensures Tallies(Put(scores, c.chunkId, ScoreSoFar(scores, c.chunkId) + Share(k, c.rank)), list + [c], k)
  {
    var value := ScoreSoFar(scores, c.chunkId) + Share(k, c.rank);
    var longer := list + [c];
    PutKeepsDistinct(scores, c.chunkId, value);
    assert longer[..|longer| - 1] == list;
    forall id
      ensures Get(Put(scores, c.chunkId, value), id)
              == if Occurs(longer, id) then Some(Score(longer, id, k)) else None
    {
      GetOfPut(scores, c.chunkId, value, id);
      OccursOneMore(list, c, id);
      if !Occurs(list, id) { AbsentScoresNothing(list, id, k); }
    }
  }

  lemma OccursOneMore<Id>(list: Candidates<Id>, c: RetrievalCandidate<Id>, id: Id)
    ensures Occurs(list + [c], id) <==> Occurs(list, id) || id == c.chunkId
  {
    var longer := list + [c];
    assert longer[|list|] == c;
    assert forall i :: 0 <= i < |list| ==> longer[i] == list[i];
  }

  /** Sort key `(-score, str(id))`. */
  function NoLater<Id(==)>(leq: (Id, Id) -> bool): (FusedCandidate<Id>, FusedCandidate<Id>) -> bool {
    (a: FusedCandidate<Id>, b: FusedCandidate<Id>) => a.score > b.score || (a.score == b.score && leq(a.chunkId, b.chunkId))
  }

  predicate InUnion<Id(==)>(keyword: Candidates<Id>, vector: Candidates<Id>, id: Id) {
    Occurs(keyword, id) || Occurs(vector, id)
  }

  predicate IsFused<Id(==)>(c: FusedCandidate<Id>, keyword: Candidates<Id>, vector: Candidates<Id>, k: int)
    requires k >= 1
  {
    && InUnion(keyword, vector, c.chunkId)
    && c.score == Score(keyword, c.chunkId, k) + Score(vector, c.chunkId, k)
    && c.keywordRank == LastRank(keyword, c.chunkId)
    && c.vectorRank == LastRank(vector, c.chunkId)
  }

  predicate Lists<Id(==)>(fused: seq<FusedCandidate<Id>>, id: Id) {
    exists i :: 0 <= i < |fused| && fused[i].chunkId == id
  }

  predicate DistinctIds<Id(==)>(fused: seq<FusedCandidate<Id>>) {
    forall i, j :: 0 <= i < j < |fused| ==> fused[i].chunkId != fused[j].chunkId
  }

  /** Each id of the union once, with its exact score and its two ranks, best score first and equal
      scores by id. */
  ghost predicate IsFusion<Id(!new)>(fused: seq<FusedCandidate<Id>>, keyword: Candidates<Id>, vector: Candidates<Id>,
                                     k: int, leq: (Id, Id) -> bool)
    requires k >= 1
  {
    && DistinctIds(fused)
    && (forall i :: 0 <= i < |fused| ==> IsFused(fused[i], keyword, vector, k))
    && (forall id :: InUnion(keyword, vector, id) ==> Lists(fused, id))
    && SortedBy(NoLater(leq), fused)
  }

  /** `reciprocal_rank_fusion` */
  method ReciprocalRankFusion<Id(==, !new)>(keyword: Candidates<Id>, vector: Candidates<Id>, rrfK: int,
                                           leq: (Id, Id) -> bool)
    returns (r: Result<seq<FusedCandidate<Id>>, RankingError>)
    requires IsOrder(leq)
    ensures r.Success? <==> rrfK >= 1
    ensures r.Success? ==> IsFusion(r.value, keyword, vector, rrfK, leq)
  {
    if rrfK < 1 {
      return Failure(NonPositiveK);
    }
    var scores: Dictionary<Id, real> := [];
    for i := 0 to |keyword|
      invariant Tallies(scores, keyword[..i], rrfK)
    {
      var candidate := keyword[i];
      TallyOneMore(scores, keyword[..i], candidate, rrfK);
      assert keyword[..i] + [candidate] == keyword[..i + 1];
      scores := Put(scores, candidate.chunkId, ScoreSoFar(scores, candidate.chunkId) + 1.0 / (rrfK + candidate.rank) as real);
    }
    assert keyword[..|keyword|] == keyword == keyword + vector[..0];
    for i := 0 to |vector|
      invariant Tallies(scores, keyword + vector[..i], rrfK)
    {
      var candidate := vector[i];
      TallyOneMore(scores, keyword + vector[..i], candidate, rrfK);
      assert keyword + vector[..i] + [candidate] == keyword + vector[..i + 1];
      scores := Put(scores, candidate.chunkId, ScoreSoFar(scores, candidate.chunkId) + 1.0 / (rrfK + candidate.rank) as real);
    }
    assert vector[..|vector|] == vector;
    var fused := seq(|scores|, i requires 0 <= i < |scores| =>
      FusedCandidate(scores[i].0, scores[i].1, LastRank(keyword, scores[i].0), LastRank(vector, scores[i].0)));
    EntriesAreFused(scores, fused, keyword, vector, rrfK);
    SortedFusion(fused, keyword, vector, rrfK, leq);
    return Success(SortBy(NoLater(leq), fused));
  }

  lemma {:induction false} ScoreOfBoth<Id>(keyword: Candidates<Id>, vector: Candidates<Id>, id: Id, k: int)
    requires k >= 1
    ensures Score(keyword + vector, id, k) == Score(keyword, id, k) + Score(vector, id, k)
    ensures Occurs(keyword + vector, id) <==> Occurs(keyword, id) || Occurs(vector, id)
  {
    var both := keyword + vector;
    if vector == [] {
      assert both == keyword;
    } else {
      var front, last := vector[..|vector| - 1], vector[|vector| - 1];
      ScoreOfBoth(keyword, front, id, k);
      assert both[..|both| - 1] == keyword + front;
      assert vector == front + [last] && both == (keyword + front) + [last];
      OccursOneMore(front, last, id);
      OccursOneMore(keyword + front, last, id);
    }
  }

  lemma EntriesAreFused<Id(!new)>(scores: Dictionary<Id, real>, fused: seq<FusedCandidate<Id>>,
                                  keyword: Candidates<Id>, vector: Candidates<Id>, k: int)
    requires k >= 1 && Tallies(scores, keyword + vector, k) && |fused| == |scores|
    requires forall i :: 0 <= i < |fused| ==>
               fused[i] == FusedCandidate(scores[i].0, scores[i].1, LastRank(keyword, scores[i].0), LastRank(vector, scores[i].0))
    ensures DistinctIds(fused)
    ensures forall i :: 0 <= i < |fused| ==> IsFused(fused[i], keyword, vector, k)
    ensures forall id :: InUnion(keyword, vector, id) ==> Lists(fused, id)
  {
    hide Score, LastRank, Occurs;
    forall i | 0 <= i < |fused| ensures IsFused(fused[i], keyword, vector, k) {
      var id := scores[i].0;
      GetOfEntry(scores, i);
      assert Get(scores, id) == if Occurs(keyword + vector, id) then Some(Score(keyword + vector, id, k)) else None;
      ScoreOfBoth(keyword, vector, id, k);
    }
    forall id | InUnion(keyword, vector, id) ensures Lists(fused, id) {
      ScoreOfBoth(keyword, vector, id, k);
      assert Get(scores, id).Some?;
      assert Has(scores, id);
      var i :| 0 <= i < |scores| && scores[i].0 == id;
      assert fused[i].chunkId == id;
    }
  }

  lemma IdsAreDistinct<Id>(fused: seq<FusedCandidate<Id>>)
    requires DistinctIds(fused)
    ensures Distinct(fused)
  {
  }

  /** Sorting keeps a fusion's entries and puts them in order. */
  lemma SortedFusion<Id(!new)>(fused: seq<FusedCandidate<Id>>, keyword: Candidates<Id>, vector: Candidates<Id>,
                               k: int, leq: (Id, Id) -> bool)
    requires k >= 1 && IsOrder(leq) && DistinctIds(fused)
    requires forall i :: 0 <= i < |fused| ==> IsFused(fused[i], keyword, vector, k)
    requires forall id :: InUnion(keyword, vector, id) ==> Lists(fused, id)
    ensures IsFusion(SortBy(NoLater(leq), fused), keyword, vector, k, leq)
  {
    hide Score, LastRank, SortBy, NoLater, InUnion, Lists;
    var sorted := SortBy(NoLater(leq), fused);
    NoLaterIsPreorder(leq);
    SortSorts(NoLater(leq), fused);
    SortKeepsElements(NoLater(leq), fused);
    hide IsPreorder, SortedBy, IsFused;
    PermutedEntries(fused, sorted);
    forall id | InUnion(keyword, vector, id) ensures Lists(sorted, id) {
      assert Lists(fused, id);
    }
    forall i, j | 0 <= i < j < |sorted| ensures sorted[i].chunkId != sorted[j].chunkId {
      PermutedIdsDiffer(fused, sorted, i, j);
    }
  }

  lemma PermutedEntries<Id(!new)>(fused: seq<FusedCandidate<Id>>, sorted: seq<FusedCandidate<Id>>)
    requires multiset(sorted) == multiset(fused)
    ensures forall i :: 0 <= i < |sorted| ==> sorted[i] in fused
    ensures forall id :: Lists(fused, id) ==> Lists(sorted, id)
  {
    SameElements(sorted, fused);
    forall id | Lists(fused, id) ensures Lists(sorted, id) {
      var i :| 0 <= i < |fused| && fused[i].chunkId == id;
      assert fused[i] in sorted;
    }
  }

  lemma PermutedIdsDiffer<Id(!new)>(fused: seq<FusedCandidate<Id>>, sorted: seq<FusedCandidate<Id>>, i: nat, j: nat)
    requires DistinctIds(fused) && multiset(sorted) == multiset(fused) && i < j < |sorted|
    ensures sorted[i].chunkId != sorted[j].chunkId
  {
    var x, y := sorted[i], sorted[j];
    SameElements(sorted, fused);
    assert x in fused && y in fused;
    IdsAreDistinct(fused);
    DistinctCounts(fused, x);
    assert sorted == sorted[..j] + [y] + sorted[j + 1..];
    assert x in sorted[..j];
    assert multiset(sorted) == multiset(sorted[..j]) + multiset{y} + multiset(sorted[j + 1..]);
    assert multiset(sorted[..j])[x] >= 1;
    assert x != y;
  }

  lemma NoLaterIsPreorder<Id(!new)>(leq: (Id, Id) -> bool)
    requires IsOrder(leq)
    ensures IsPreorder(NoLater(leq))
  {
    var before := NoLater(leq);
    forall a, b ensures before(a, b) || before(b, a) {
      assert leq(a.chunkId, b.chunkId) || leq(b.chunkId, a.chunkId);
    }
    forall a, b, c | before(a, b) && before(b, c) ensures before(a, c) {
      assert leq(a.chunkId, b.chunkId) && leq(b.chunkId, c.chunkId) ==> leq(a.chunkId, c.chunkId);
    }
  }

  /** What a fused entry of two lists that name each id once holds: its ranks in both, and as score
      1 / (k + rank) for each list that has it. */
  lemma FusedScores<Id(!new)>(c: FusedCandidate<Id>, keyword: Candidates<Id>, vector: Candidates<Id>, k: int)
    requires k >= 1 && IsFused(c, keyword, vector, k) && DistinctCandidates(keyword) && DistinctCandidates(vector)
    ensures c.score == (if c.keywordRank.Some? then 1.0 / (k + c.keywordRank.value) as real else 0.0)
                     + (if c.vectorRank.Some? then 1.0 / (k + c.vectorRank.value) as real else 0.0)
    ensures forall i :: 0 <= i < |keyword| && keyword[i].chunkId == c.chunkId ==> c.keywordRank == Some(keyword[i].rank)
    ensures forall i :: 0 <= i < |vector| && vector[i].chunkId == c.chunkId ==> c.vectorRank == Some(vector[i].rank)
    ensures (c.keywordRank.None? <==> !Occurs(keyword, c.chunkId)) && (c.vectorRank.None? <==> !Occurs(vector, c.chunkId))
  {
    hide Score, LastRank;
    ScoreOfDistinct(keyword, c.chunkId, k);
    ScoreOfDistinct(vector, c.chunkId, k);
    RankOfDistinct(keyword, c.chunkId);
    RankOfDistinct(vector, c.chunkId);
  }

  lemma RankOfDistinct<Id>(list: Candidates<Id>, id: Id)
    requires DistinctCandidates(list)
    ensures forall i :: 0 <= i < |list| && list[i].chunkId == id ==> LastRank(list, id) == Some(list[i].rank)
  {
    hide LastRank;
    forall i | 0 <= i < |list| && list[i].chunkId == id ensures LastRank(list, id) == Some(list[i].rank) {
      var k :| 0 <= k < |list| && list[k].chunkId == id && list[k].rank == LastRank(list, id).value;
      assert i == k;
    }
  }

  /** The description determines the result, so the order of accumulation does not matter. */
  lemma FusionIsUnique<Id(!new)>(a: seq<FusedCandidate<Id>>, b: seq<FusedCandidate<Id>>,
                                 keyword: Candidates<Id>, vector: Candidates<Id>, k: int, leq: (Id, Id) -> bool)
    requires k >= 1 && IsOrder(leq)
    requires IsFusion(a, keyword, vector, k, leq) && IsFusion(b, keyword, vector, k, leq)
    ensures a == b
  {
    FusionListsAll(a, b, keyword, vector, k, leq);
    FusionListsAll(b, a, keyword, vector, k, leq);
    IdsAreDistinct(a);
    IdsAreDistinct(b);
    DistinctSameElements(a, b);
    NoLaterIsPreorder(leq);
    hide Score, LastRank, Occurs, Lists, IsFused;
    forall x, y | x in a && y in a && NoLater(leq)(x, y) && NoLater(leq)(y, x) ensures x == y {
      var i :| 0 <= i < |a| && a[i] == x;
      var j :| 0 <= j < |a| && a[j] == y;
      assert x.chunkId == y.chunkId;
      assert i == j;
    }
    SortedIsUnique(NoLater(leq), a, b);
  }

  lemma FusionListsAll<Id(!new)>(a: seq<FusedCandidate<Id>>, b: seq<FusedCandidate<Id>>,
                                 keyword: Candidates<Id>, vector: Candidates<Id>, k: int, leq: (Id, Id) -> bool)
    requires k >= 1
    requires IsFusion(a, keyword, vector, k, leq) && IsFusion(b, keyword, vector, k, leq)
    ensures forall x :: x in a ==> x in b
  {
    hide Score, LastRank, Occurs;
    forall x | x in a ensures x in b {
      assert IsFused(x, keyword, vector, k);
      assert Lists(b, x.chunkId);
      var j :| 0 <= j < |b| && b[j].chunkId == x.chunkId;
      assert IsFused(b[j], keyword, vector, k);
      assert b[j] == x;
    }
  }

  function Mirrored<Id>(c: FusedCandidate<Id>): FusedCandidate<Id> {
    c.(keywordRank := c.vectorRank, vectorRank := c.keywordRank)
  }

  /** Swapping the two rankings keeps order and scores and swaps the two rank columns. */
  lemma FusionIsSymmetric<Id(!new)>(a: seq<FusedCandidate<Id>>, b: seq<FusedCandidate<Id>>,
                                    keyword: Candidates<Id>, vector: Candidates<Id>, k: int, leq: (Id, Id) -> bool)
    requires k >= 1 && IsOrder(leq)
    requires IsFusion(a, keyword, vector, k, leq) && IsFusion(b, vector, keyword, k, leq)
    ensures |a| == |b| && forall i :: 0 <= i < |a| ==> a[i] == Mirrored(b[i])
  {
    hide Score, LastRank, Occurs;
    var mirrored := seq(|b|, i requires 0 <= i < |b| => Mirrored(b[i]));
    forall i | 0 <= i < |mirrored| ensures IsFused(mirrored[i], keyword, vector, k) {
      assert IsFused(b[i], vector, keyword, k);
    }
    forall id | InUnion(keyword, vector, id) ensures Lists(mirrored, id) {
      assert Lists(b, id);
      var i :| 0 <= i < |b| && b[i].chunkId == id;
      assert mirrored[i].chunkId == id;
    }
    FusionIsUnique(a, mirrored, keyword, vector, k, leq);
  }

  predicate DistinctCandidates<Id(==)>(list: Candidates<Id>) {
    forall i, j :: 0 <= i < j < |list| ==> list[i].chunkId != list[j].chunkId
  }

  /** a is ranked no worse than b; not being listed counts as last. */
  predicate NoWorse<Id(==)>(list: Candidates<Id>, a: Id, b: Id) {
    Occurs(list, b) ==> Occurs(list, a) && LastRank(list, a).value <= LastRank(list, b).value
  }

  predicate Better<Id(==)>(list: Candidates<Id>, a: Id, b: Id) {
    Occurs(list, a) && (Occurs(list, b) ==> LastRank(list, a).value < LastRank(list, b).value)
  }

  lemma {:induction false} ScoreOfDistinct<Id>(list: Candidates<Id>, id: Id, k: int)
    requires k >= 1 && DistinctCandidates(list)
    ensures Score(list, id, k) == if Occurs(list, id) then Share(k, LastRank(list, id).value) else 0.0
  {
    if list != [] {
      var front, last := list[..|list| - 1], list[|list| - 1];
      assert list == front + [last];
      OccursOneMore(front, last, id);
      if last.chunkId == id {
        assert !Occurs(front, id);
        AbsentScoresNothing(front, id, k);
      } else {
        ScoreOfDistinct(front, id, k);
      }
    }
  }

  lemma ShareIsAntitone(k: int, r: nat, r': nat)
    requires k >= 1 && r <= r'
    ensures 0.0 < Share(k, r') <= Share(k, r)
    ensures r < r' ==> Share(k, r') < Share(k, r)
  {
    var x, y := (k + r) as real, (k + r') as real;
    assert 0.0 < x <= y;
    assert 1.0 / x - 1.0 / y == (y - x) / (x * y);
  }

  lemma NoWorseScoresNoLess<Id>(list: Candidates<Id>, a: Id, b: Id, k: int)
    requires k >= 1 && DistinctCandidates(list) && NoWorse(list, a, b)
    ensures Score(list, a, k) >= Score(list, b, k)
    ensures Better(list, a, b) ==> Score(list, a, k) > Score(list, b, k)
  {
    ScoreOfDistinct(list, a, k);
    ScoreOfDistinct(list, b, k);
    hide Score;
    if Occurs(list, b) {
      ShareIsAntitone(k, LastRank(list, a).value, LastRank(list, b).value);
    } else if Occurs(list, a) {
      ShareIsAntitone(k, LastRank(list, a).value, LastRank(list, a).value);
    }
  }

  /** Dominance: an id ranked no worse in both lists never scores lower, so it stands behind the
      other only on a tie that the ids decide; one that is also better in a list stands ahead. */
  lemma DominanceIsKept<Id(!new)>(fused: seq<FusedCandidate<Id>>, keyword: Candidates<Id>, vector: Candidates<Id>,
                                  k: int, leq: (Id, Id) -> bool, i: nat, j: nat)
    requires k >= 1 && IsOrder(leq) && IsFusion(fused, keyword, vector, k, leq)
    requires DistinctCandidates(keyword) && DistinctCandidates(vector)
    requires i < |fused| && j < |fused| && i != j
    requires NoWorse(keyword, fused[i].chunkId, fused[j].chunkId) && NoWorse(vector, fused[i].chunkId, fused[j].chunkId)
    ensures fused[i].score >= fused[j].score
    ensures i < j || (fused[i].score == fused[j].score && leq(fused[j].chunkId, fused[i].chunkId))
    ensures Better(keyword, fused[i].chunkId, fused[j].chunkId) || Better(vector, fused[i].chunkId, fused[j].chunkId) ==> i < j
  {
    hide Score, LastRank, Occurs, Lists;
    var a, b := fused[i].chunkId, fused[j].chunkId;
    NoWorseScoresNoLess(keyword, a, b, k);
    NoWorseScoresNoLess(vector, a, b, k);
    hide NoWorse, Better;
    assert IsFused(fused[i], keyword, vector, k) && IsFused(fused[j], keyword, vector, k);
    assert j < i ==> NoLater(leq)(fused[j], fused[i]);
  }
}
