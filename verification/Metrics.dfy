/** Ranking metrics (metrics.py, `evaluate_ranking`), in exact reals. A location is its key: file
    name, section path and page. */
module Metrics {
  import opened Results
  import opened Sorting
  import opened Dictionaries
  import opened Gains

  datatype EvaluationMetrics = EvaluationMetrics(recall: real, reciprocalRank: real, ndcg: real)

  datatype EvaluationError = NonPositiveLimit

  type Table<K> = Dictionary<K, nat>

  /** `{key(item): item.relevance for item in relevant}` */
  function TableOf<K(==)>(relevant: seq<(K, nat)>): Table<K> {
    if relevant == [] then []
    else
      var last := relevant[|relevant| - 1];
      Put(TableOf(relevant[..|relevant| - 1]), last.0, last.1)
  }

  function Relevance<K(==)>(table: Table<K>, key: K): nat {
    var found := Get(table, key);
    if found.Some? then found.value else 0
  }

  /** The relevances of the listed locations, a repeated one counting nothing. */
  function Relevances<K(==)>(table: Table<K>, keys: seq<K>): (r: seq<nat>)
    ensures |r| == |keys|
  {
    if keys == [] then []
    else
      var front, key := keys[..|keys| - 1], keys[|keys| - 1];
      Relevances(table, front) + [if key in front then 0 else Relevance(table, key)]
  }

  function Values<K>(table: Table<K>): (values: seq<nat>)
    ensures |values| == |table|
    ensures forall i :: 0 <= i < |table| ==> values[i] == table[i].1
  {
    seq(|table|, i requires 0 <= i < |table| => table[i].1)
  }

  function AtLeast(): (nat, nat) -> bool {
    (a: nat, b: nat) => a >= b
  }

  function Ideal<K>(table: Table<K>): (ideal: seq<nat>)
    ensures |ideal| == |table|
  {
    SortKeepsElements(AtLeast(), Values(table));
    SortBy(AtLeast(), Values(table))
  }

  function Keys<K(==, !new)>(table: Table<K>): (keys: set<K>)
    ensures forall key :: key in keys <==> Has(table, key)
  {
    set i | 0 <= i < |table| :: table[i].0
  }

  function Elements<K(==, !new)>(keys: seq<K>): (elements: set<K>)
    ensures forall key :: key in elements <==> key in keys
  {
    set key | key in keys
  }

  /** The first rank of a positive relevance, counted from `rank`. */
  function FirstPositive(relevances: seq<nat>, rank: nat): (r: Option<nat>)
    ensures r.Some? ==> rank <= r.value < rank + |relevances| && relevances[r.value - rank] > 0
                        && forall i :: 0 <= i < r.value - rank ==> relevances[i] == 0
    ensures r.None? ==> AllZero(relevances)
  {
    if relevances == [] then None
    else if relevances[0] > 0 then Some(rank)
    else
      var r := FirstPositive(relevances[1..], rank + 1);
      assert forall i :: 0 < i < |relevances| ==> relevances[i] == relevances[1..][i - 1];
      r
  }

  function Recall<K(==, !new)>(table: Table<K>, keys: seq<K>): real {
    if table == [] then 0.0 else |Elements(keys) * Keys(table)| as real / |table| as real
  }

  function ReciprocalRank<K(==)>(table: Table<K>, keys: seq<K>): real {
    var first := FirstPositive(Relevances(table, keys), 1);
    if first.Some? then 1.0 / first.value as real else 0.0
  }

  function Ndcg<K(==)>(d: Discount, table: Table<K>, keys: seq<K>, limit: nat): real {
    var ideal := TotalGain(d, Top(Ideal(table), limit));
    if ideal != 0.0 then TotalGain(d, Relevances(table, keys)) / ideal else 0.0
  }

  function MetricsOf<K(==, !new)>(d: Discount, ranked: seq<K>, relevant: seq<(K, nat)>, limit: nat): EvaluationMetrics {
    var table, keys := TableOf(relevant), Top(ranked, limit);
    EvaluationMetrics(Recall(table, keys), ReciprocalRank(table, keys), Ndcg(d, table, keys, limit))
  }

  /** `evaluate_ranking` */
  method EvaluateRanking<K(==, !new)>(d: Discount, ranked: seq<K>, relevant: seq<(K, nat)>, limit: int)
    returns (r: Result<EvaluationMetrics, EvaluationError>)
    ensures r == if limit < 1 then Failure(NonPositiveLimit) else Success(MetricsOf(d, ranked, relevant, limit))
  {
    if limit < 1 {
      return Failure(NonPositiveLimit);
    }
    hide TotalGain, SortBy;
    var relevanceByLocation := TableOf(relevant);
    var retrievedKeys := Top(ranked, limit);
    var seen: set<K> := {};
    var retrievedRelevances: seq<nat> := [];
    for i := 0 to |retrievedKeys|
      invariant seen == Elements(retrievedKeys[..i])
      invariant retrievedRelevances == Relevances(relevanceByLocation, retrievedKeys[..i])
    {
      var location := retrievedKeys[i];
      assert retrievedKeys[..i + 1] == retrievedKeys[..i] + [location];
      var relevance := if location !in seen then Relevance(relevanceByLocation, location) else 0;
      retrievedRelevances := retrievedRelevances + [relevance];
      seen := seen + {location};
    }
    assert retrievedKeys[..|retrievedKeys|] == retrievedKeys;
    var found := |seen * Keys(relevanceByLocation)|;
    var recall := if relevanceByLocation == [] then 0.0 else found as real / |relevanceByLocation| as real;
    var firstRelevant := FirstPositive(retrievedRelevances, 1);
    var reciprocalRank := if firstRelevant.Some? then 1.0 / firstRelevant.value as real else 0.0;
    var dcg := DiscountedGain(d, retrievedRelevances);
    var ideal := Top(Ideal(relevanceByLocation), limit);
    var idealDcg := DiscountedGain(d, ideal);
    var ndcg := if idealDcg != 0.0 then dcg / idealDcg else 0.0;
    return Success(EvaluationMetrics(recall, reciprocalRank, ndcg));
  }

  // ---- the table

  /** What every table built from judgements satisfies. */
  predicate IsTable<K(==)>(table: Table<K>) {
    DistinctKeys(table) && forall i :: 0 <= i < |table| ==> table[i].1 > 0
  }

  /** The constructor's check of a judgement. */
  predicate Judged<K>(relevant: seq<(K, nat)>) {
    forall i :: 0 <= i < |relevant| ==> relevant[i].1 > 0
  }

  lemma {:induction false} PutKeepsPositive<K>(table: Table<K>, key: K, value: nat)
    requires IsTable(table) && value > 0
    ensures IsTable(Put(table, key, value))
  {
    PutKeepsDistinct(table, key, value);
    PutStaysPositive(table, key, value);
  }

  lemma {:induction false} PutStaysPositive<K>(table: Table<K>, key: K, value: nat)
    requires (forall i :: 0 <= i < |table| ==> table[i].1 > 0) && value > 0
    ensures forall i :: 0 <= i < |Put(table, key, value)| ==> Put(table, key, value)[i].1 > 0
  {
    if table != [] { PutStaysPositive(table[1..], key, value); }
  }

  lemma {:induction false} TablesAreTables<K>(relevant: seq<(K, nat)>)
    requires Judged(relevant)
    ensures IsTable(TableOf(relevant))
    ensures TableOf(relevant) == [] <==> relevant == []
  {
    if relevant != [] {
      var last := relevant[|relevant| - 1];
      TablesAreTables(relevant[..|relevant| - 1]);
      PutKeepsPositive(TableOf(relevant[..|relevant| - 1]), last.0, last.1);
    }
  }

  lemma {:induction false} IdealIsSorted<K>(table: Table<K>)
    ensures NonIncreasing(Ideal(table)) && multiset(Ideal(table)) == multiset(Values(table))
    ensures |Ideal(table)| == |table|
    ensures IsTable(table) ==> AllPositive(Ideal(table))
  {
    var values := Values(table);
    SortSorts(AtLeast(), values);
    SortKeepsElements(AtLeast(), values);
    SameElements(Ideal(table), values);
    if IsTable(table) {
      forall i | 0 <= i < |Ideal(table)| ensures Ideal(table)[i] > 0 {
        assert Ideal(table)[i] in values;
      }
    }
  }

  // ---- the retrieved relevances are drawn from the table

  /** The entries whose location is not among the keys. */
  function Without<K(==)>(table: Table<K>, keys: seq<K>): Table<K> {
    if table == [] then []
    else (if table[0].0 in keys then [] else [table[0]]) + Without(table[1..], keys)
  }

  lemma {:induction false} WithoutSame<K>(table: Table<K>, keys: seq<K>, more: seq<K>)
    requires forall i :: 0 <= i < |table| ==> (table[i].0 in keys <==> table[i].0 in more)
    ensures Without(table, keys) == Without(table, more)
  {
    if table != [] { WithoutSame(table[1..], keys, more); }
  }

  lemma ValuesOfConcat<K>(a: Table<K>, b: Table<K>)
    ensures multiset(Values(a + b)) == multiset(Values(a)) + multiset(Values(b))
  {
    assert Values(a + b) == Values(a) + Values(b);
  }

  /** Leaving one more listed location out takes exactly its value away. */
  lemma {:induction false} WithoutOneMore<K>(table: Table<K>, keys: seq<K>, key: K)
    requires DistinctKeys(table) && Has(table, key) && key !in keys
    ensures multiset(Values(Without(table, keys)))
            == multiset(Values(Without(table, keys + [key]))) + multiset{Relevance(table, key)}
  {
    hide Relevance, Values;
    var tail, more := table[1..], keys + [key];
    assert forall k :: k in more <==> k in keys || k == key;
    var first := if table[0].0 in keys then [] else [table[0]];
    ValuesOfConcat(first, Without(tail, keys));
    if table[0].0 == key {
      OwnEntry(table, keys, more);
    } else {
      LaterEntry(table, key);
      WithoutOneMore(tail, keys, key);
      ValuesOfConcat(first, Without(tail, more));
    }
  }

  lemma OwnEntry<K>(table: Table<K>, keys: seq<K>, more: seq<K>)
    requires DistinctKeys(table) && table != []
    requires forall k :: k in more <==> k in keys || k == table[0].0
    ensures Without(table[1..], keys) == Without(table, more)
    ensures Values([table[0]]) == [Relevance(table, table[0].0)]
  {
    var tail := table[1..];
    forall i | 0 <= i < |tail| ensures tail[i].0 != table[0].0 { assert tail[i] == table[i + 1]; }
    WithoutSame(tail, keys, more);
    assert Without(table, more) == [] + Without(tail, more) == Without(tail, more);
  }

  lemma LaterEntry<K>(table: Table<K>, key: K)
    requires DistinctKeys(table) && Has(table, key) && table[0].0 != key
    ensures DistinctKeys(table[1..]) && Has(table[1..], key) && Relevance(table[1..], key) == Relevance(table, key)
  {
    var i :| 0 <= i < |table| && table[i].0 == key;
    assert table[1..][i - 1].0 == key;
  }

  /** Conservation: the table's values are the positive relevances of the list and the values of
      the locations the list lacks. */
  lemma {:induction false} ValuesAreConserved<K>(table: Table<K>, keys: seq<K>, v: nat)
    requires IsTable(table) && v > 0
    ensures multiset(Values(table))[v] == multiset(Relevances(table, keys))[v] + multiset(Values(Without(table, keys)))[v]
  {
    if keys == [] {
      WithoutNothing(table);
    } else {
      var front, key := keys[..|keys| - 1], keys[|keys| - 1];
      assert keys == front + [key];
      ValuesAreConserved(table, front, v);
      assert forall k :: k in keys <==> k in front || k == key;
      var last := if key in front then 0 else Relevance(table, key);
      assert multiset(Relevances(table, keys)) == multiset(Relevances(table, front)) + multiset{last};
      if key in front || !Has(table, key) {
        WithoutSame(table, keys, front);
      } else {
        WithoutOneMore(table, front, key);
      }
    }
  }

  lemma {:induction false} WithoutNothing<K>(table: Table<K>)
    ensures Without(table, []) == table
  {
    if table != [] { WithoutNothing(table[1..]); }
  }

  lemma RelevancesFit<K>(table: Table<K>, keys: seq<K>)
    requires IsTable(table)
    ensures Fits(Relevances(table, keys), Ideal(table))
  {
    IdealIsSorted(table);
    hide Ideal, Relevances, IsTable;
    forall v: nat | v > 0 && v in Relevances(table, keys)
      ensures multiset(Relevances(table, keys))[v] <= multiset(Ideal(table))[v]
    {
      ValuesAreConserved(table, keys, v);
    }
  }

  // ---- bounds

  lemma TopMonotone(d: Discount, best: seq<nat>, m: nat, n: nat)
    requires m <= n && AllPositive(best)
    ensures TotalGain(d, Top(best, m)) <= TotalGain(d, Top(best, n))
    ensures TotalGain(d, Top(best, m)) == TotalGain(d, Top(best, n)) ==> |Top(best, m)| == |Top(best, n)|
  {
    var a, b := Top(best, m), Top(best, n);
    var more := b[|a|..];
    assert b == a + more;
    GainOfConcat(d, a, more, 1);
    GainFromIsNonNegative(d, more, 1 + |a|);
    if more != [] { assert more[0] == best[|a|]; }
  }

  /** The ideal bounds every list of at most `limit` locations, repeated or not, and is reached
      just by lists that agree with it. */
  lemma IdealBounds<K>(d: Discount, table: Table<K>, keys: seq<K>, limit: nat)
    requires IsTable(table) && |keys| <= limit
    ensures var list, ideal := Relevances(table, keys), Top(Ideal(table), limit);
            && 0.0 <= TotalGain(d, list) <= TotalGain(d, ideal)
            && (TotalGain(d, list) == TotalGain(d, ideal) <==> Agrees(list, ideal))
            && (TotalGain(d, ideal) == 0.0 <==> table == [] || limit == 0)
  {
    hide Relevances, Ideal, GainFrom, IsTable;
    var list, best := Relevances(table, keys), Ideal(table);
    IdealIsSorted(table);
    RelevancesFit(table, keys);
    hide Fits;
    NothingBeatsTheBest(d, list, best, 1);
    TopMonotone(d, best, |list|, limit);
    GainFromIsNonNegative(d, list, 1);
    var ideal := Top(best, limit);
    GainFromIsNonNegative(d, ideal, 1);
    if ideal == [] { ZerosGainNothing(d, ideal, 1); }
    if Agrees(list, ideal) { AgreeingGains(d, list, ideal); }
    if TotalGain(d, list) == TotalGain(d, ideal) { SameTop(best, |list|, limit); }
  }

  lemma SameTop(best: seq<nat>, m: nat, n: nat)
    ensures |Top(best, m)| == |Top(best, n)| ==> Top(best, m) == Top(best, n)
  {
  }

  lemma AgreeingGains(d: Discount, list: seq<nat>, ideal: seq<nat>)
    requires Agrees(list, ideal)
    ensures TotalGain(d, list) == TotalGain(d, ideal)
  {
    var rest := list[|ideal|..];
    assert list == ideal + rest;
    GainOfConcat(d, ideal, rest, 1);
    ZerosGainNothing(d, rest, 1 + |ideal|);
  }

  lemma QuotientAtMostOne(a: real, b: real)
    requires 0.0 <= a <= b && b > 0.0
    ensures 0.0 <= a / b <= 1.0 && (a / b == 1.0 <==> a == b)
  {
    assert a / b * b == a;
  }

  lemma NdcgOfTable<K(!new)>(d: Discount, ranked: seq<K>, relevant: seq<(K, nat)>, limit: nat)
    requires Judged(relevant) && limit >= 1
    ensures var ndcg, table := MetricsOf(d, ranked, relevant, limit).ndcg, TableOf(relevant);
            && 0.0 <= ndcg <= 1.0
            && (ndcg == 1.0 <==> relevant != [] && Agrees(Relevances(table, Top(ranked, limit)), Top(Ideal(table), limit)))
            && (relevant == [] ==> ndcg == 0.0)
  {
    hide Relevances, Ideal, TotalGain, IsTable, Agrees, TableOf;
    var table, keys := TableOf(relevant), Top(ranked, limit);
    TablesAreTables(relevant);
    IdealBounds(d, table, keys, limit);
    var dcg, ideal := TotalGain(d, Relevances(table, keys)), TotalGain(d, Top(Ideal(table), limit));
    if ideal != 0.0 { QuotientAtMostOne(dcg, ideal); }
  }

  // ---- which rankings reach 1

  /** The first n listed locations are distinct, relevant and in order of non-increasing relevance,
      and no relevant location beyond them is worth more than one of them. */
  predicate ListsTheBest<K(==)>(table: Table<K>, ranked: seq<K>, n: nat) {
    && n <= |ranked|
    && Distinct(ranked[..n])
    && (forall i :: 0 <= i < n ==> Has(table, ranked[i]))
    && (forall i, j :: 0 <= i < j < n ==> Relevance(table, ranked[i]) >= Relevance(table, ranked[j]))
    && (forall i, j :: 0 <= i < |table| && 0 <= j < n && table[i].0 !in ranked[..n] ==>
          table[i].1 <= Relevance(table, ranked[j]))
  }

  lemma {:induction false} RelevanceAt<K>(table: Table<K>, keys: seq<K>, i: nat)
    requires i < |keys|
    ensures Relevances(table, keys)[i] == if keys[i] in keys[..i] then 0 else Relevance(table, keys[i])
  {
    var front := keys[..|keys| - 1];
    if i < |front| {
      RelevanceAt(table, front, i);
      assert front[..i] == keys[..i];
    }
  }

  lemma RelevanceIsPositive<K>(table: Table<K>, key: K)
    requires IsTable(table)
    ensures Relevance(table, key) > 0 <==> Has(table, key)
  {
    if Has(table, key) {
      var i :| 0 <= i < |table| && table[i] == (key, Get(table, key).value);
    }
  }

  lemma {:induction false} WithoutMembers<K>(table: Table<K>, keys: seq<K>)
    ensures forall e :: e in Without(table, keys) <==> e in table && e.0 !in keys
  {
    if table != [] {
      WithoutMembers(table[1..], keys);
      assert table == [table[0]] + table[1..];
    }
  }

  /** Listing the n best of the table, in order, gives the first n ideal relevances. */
  lemma BestListIsIdeal<K>(table: Table<K>, best: seq<K>)
    requires IsTable(table) && ListsTheBest(table, best, |best|)
    ensures |best| <= |table| && Relevances(table, best) == Ideal(table)[..|best|]
  {
    var listed, missing := Relevances(table, best), Without(table, best);
    BestValues(table, best);
    hide ListsTheBest;
    IdealIsSorted(table);
    var rest := Ideal(missing);
    IdealIsSorted(missing);
    BestElements(table, best, listed);
    hide Ideal, Relevances, Without, IsTable;
    BestBeforeRest(table, best, listed, rest);
    IdealIsUnique(table, listed, rest);
  }

  lemma BestValues<K>(table: Table<K>, best: seq<K>)
    requires IsTable(table) && ListsTheBest(table, best, |best|)
    ensures NonIncreasing(Relevances(table, best)) && AllPositive(Relevances(table, best))
    ensures forall i :: 0 <= i < |best| ==> Relevances(table, best)[i] == Relevance(table, best[i])
  {
    assert best[..|best|] == best;
    forall i | 0 <= i < |best|
      ensures Relevances(table, best)[i] == Relevance(table, best[i]) && Relevance(table, best[i]) > 0
    {
      RelevanceAt(table, best, i);
      RelevanceIsPositive(table, best[i]);
    }
  }

  lemma BestElements<K>(table: Table<K>, best: seq<K>, listed: seq<nat>)
    requires IsTable(table) && listed == Relevances(table, best) && AllPositive(listed)
    ensures multiset(Values(table)) == multiset(listed) + multiset(Values(Without(table, best)))
  {
    hide Relevances, IsTable, Without, Values, AllPositive;
    var all: multiset<nat> := multiset(Values(table));
    var some: multiset<nat> := multiset(listed);
    var rest: multiset<nat> := multiset(Values(Without(table, best)));
    forall v: nat ensures all[v] == some[v] + rest[v] {
      if v > 0 {
        ValuesAreConserved(table, best, v);
      } else {
        NoZeroValues(table, best, listed);
      }
    }
    EqualCounts(all, some, rest);
  }

  lemma EqualCounts(a: multiset<nat>, b: multiset<nat>, c: multiset<nat>)
    requires forall v: nat :: a[v] == b[v] + c[v]
    ensures a == b + c
  {
  }

  lemma NoZeroValues<K>(table: Table<K>, keys: seq<K>, listed: seq<nat>)
    requires IsTable(table) && AllPositive(listed)
    ensures multiset(listed)[0] == multiset(Values(table))[0] == multiset(Values(Without(table, keys)))[0] == 0
  {
    ZeroIsAbsent(listed);
    ZeroIsAbsent(Values(table));
    WithoutIsPositive(table, keys);
    ZeroIsAbsent(Values(Without(table, keys)));
  }

  lemma {:induction false} WithoutIsPositive<K>(table: Table<K>, keys: seq<K>)
    requires forall i :: 0 <= i < |table| ==> table[i].1 > 0
    ensures forall i :: 0 <= i < |Without(table, keys)| ==> Without(table, keys)[i].1 > 0
  {
    if table != [] { WithoutIsPositive(table[1..], keys); }
  }

  lemma ZeroIsAbsent(values: seq<nat>)
    requires AllPositive(values)
    ensures multiset(values)[0] == 0
  {
    assert 0 !in values;
  }

  /** Nothing in the rest is worth more than a listed value. */
  lemma BestBeforeRest<K>(table: Table<K>, best: seq<K>, listed: seq<nat>, rest: seq<nat>)
    requires ListsTheBest(table, best, |best|) && |listed| == |best|
    requires forall i :: 0 <= i < |best| ==> listed[i] == Relevance(table, best[i])
    requires NonIncreasing(listed) && NonIncreasing(rest)
    requires multiset(rest) == multiset(Values(Without(table, best)))
    ensures NonIncreasing(listed + rest)
  {
    var missing := Without(table, best);
    WithoutMembers(table, best);
    SameElements(rest, Values(missing));
    assert best[..|best|] == best;
    forall i, j | 0 <= i < |listed| && 0 <= j < |rest| ensures listed[i] >= rest[j] {
      assert rest[j] in Values(missing);
      var m :| 0 <= m < |missing| && missing[m].1 == rest[j];
      assert missing[m] in missing;
      var k :| 0 <= k < |table| && table[k] == missing[m];
      assert table[k].1 <= Relevance(table, best[i]);
    }
    forall i, j | 0 <= i < j < |listed + rest| ensures (listed + rest)[i] >= (listed + rest)[j] {
      if i < |listed| <= j { assert listed[i] >= rest[j - |listed|]; }
    }
  }

  lemma IdealIsUnique<K>(table: Table<K>, listed: seq<nat>, rest: seq<nat>)
    requires NonIncreasing(listed + rest)
    requires multiset(Values(table)) == multiset(listed) + multiset(rest)
    ensures |listed| <= |table| && listed == Ideal(table)[..|listed|]
  {
    IdealIsSorted(table);
    hide Ideal;
    SortedIsUnique(AtLeast(), listed + rest, Ideal(table));
    assert (listed + rest)[..|listed|] == listed;
  }

  function Least(m: nat, n: nat): nat {
    if m <= n then m else n
  }

  lemma NdcgIsOneOnTable<K(!new)>(d: Discount, ranked: seq<K>, relevant: seq<(K, nat)>, limit: nat)
    requires Judged(relevant) && limit >= 1 && relevant != []
    ensures MetricsOf(d, ranked, relevant, limit).ndcg == 1.0
            <==> ListsTheBest(TableOf(relevant), ranked, Least(limit, |TableOf(relevant)|))
  {
    var table, keys := TableOf(relevant), Top(ranked, limit);
    TablesAreTables(relevant);
    NdcgOfTable(d, ranked, relevant, limit);
    hide TableOf, MetricsOf, IsTable, Relevances, Ideal, ListsTheBest, Agrees;
    IdealIsSorted(table);
    var n := Least(limit, |table|);
    if ListsTheBest(table, ranked, n) { BestAgrees(table, ranked, limit); }
    if Agrees(Relevances(table, keys), Top(Ideal(table), limit)) { AgreeingIsBest(table, ranked, limit); }
  }

  lemma BestAgrees<K>(table: Table<K>, ranked: seq<K>, limit: nat)
    requires IsTable(table) && ListsTheBest(table, ranked, Least(limit, |table|))
    ensures Agrees(Relevances(table, Top(ranked, limit)), Top(Ideal(table), limit))
  {
    hide ListsTheBest, Ideal, IsTable, Relevances;
    var n, keys := Least(limit, |table|), Top(ranked, limit);
    EnoughAreListed(table, ranked, n);
    var best := ranked[..n];
    FirstAreBest(table, ranked, n);
    BestListIsIdeal(table, best);
    assert keys[..n] == best;
    RelevancesOfPrefix(table, keys, n);
    RestIsWorthless(table, keys, n);
    assert Top(Ideal(table), limit) == Ideal(table)[..n];
  }

  lemma EnoughAreListed<K>(table: Table<K>, ranked: seq<K>, n: nat)
    requires ListsTheBest(table, ranked, n)
    ensures n <= |ranked|
  {
  }

  lemma FirstAreBest<K>(table: Table<K>, ranked: seq<K>, n: nat)
    requires n <= |ranked|
    ensures ListsTheBest(table, ranked, n) <==> ListsTheBest(table, ranked[..n], n)
  {
    assert ranked[..n][..n] == ranked[..n];
  }

  lemma {:induction false} RelevancesOfPrefix<K>(table: Table<K>, keys: seq<K>, n: nat)
    requires n <= |keys|
    ensures Relevances(table, keys[..n]) == Relevances(table, keys)[..n]
  {
    if n < |keys| {
      var front := keys[..|keys| - 1];
      RelevancesOfPrefix(table, front, n);
      assert front[..n] == keys[..n];
    } else {
      assert keys[..n] == keys;
    }
  }

  /** Behind the first min(limit, number of relevant) ideal entries there is only zero. */
  lemma RestIsWorthless<K>(table: Table<K>, keys: seq<K>, n: nat)
    requires IsTable(table) && n <= |keys| && n <= |table| && (n == |keys| || n == |table|)
    requires Relevances(table, keys)[..n] == Ideal(table)[..n]
    ensures AllZero(Relevances(table, keys)[n..])
  {
    hide Relevances, Ideal, IsTable;
    var list := Relevances(table, keys);
    var rest := list[n..];
    IdealIsSorted(table);
    if n == |table| {
      assert Ideal(table)[..n] == Ideal(table);
      assert list == list[..n] + rest;
      forall v: nat | v > 0 ensures multiset(rest)[v] == 0 {
        ValuesAreConserved(table, keys, v);
        assert multiset(list)[v] == multiset(list[..n])[v] + multiset(rest)[v];
      }
      NothingPositive(rest);
    }
  }

  lemma NothingPositive(values: seq<nat>)
    requires forall v: nat :: v > 0 ==> multiset(values)[v] == 0
    ensures AllZero(values)
  {
    forall i | 0 <= i < |values| ensures values[i] == 0 { assert values[i] in multiset(values); }
  }

  lemma AgreeingIsBest<K>(table: Table<K>, ranked: seq<K>, limit: nat)
    requires IsTable(table) && Agrees(Relevances(table, Top(ranked, limit)), Top(Ideal(table), limit))
    ensures ListsTheBest(table, ranked, Least(limit, |table|))
  {
    hide Ideal, IsTable, Relevances, ListsTheBest;
    var n, keys := Least(limit, |table|), Top(ranked, limit);
    assert n <= |keys|;
    var best := ranked[..n];
    assert keys[..n] == best;
    RelevancesOfPrefix(table, keys, n);
    assert Relevances(table, best) == Ideal(table)[..n];
    IdealPrefixIsBest(table, best);
    FirstAreBest(table, ranked, n);
  }

  lemma IdealPrefixIsBest<K>(table: Table<K>, best: seq<K>)
    requires IsTable(table) && |best| <= |table| && Relevances(table, best) == Ideal(table)[..|best|]
    ensures ListsTheBest(table, best, |best|)
  {
    hide Ideal, IsTable, Relevances;
    IdealIsSorted(table);
    PositiveListing(table, best);
    NothingBetterMissing(table, best);
    assert best[..|best|] == best;
  }

  /** Positive relevances all through: the locations are relevant and none is repeated. */
  lemma PositiveListing<K>(table: Table<K>, best: seq<K>)
    requires IsTable(table) && AllPositive(Relevances(table, best))
    ensures Distinct(best)
    ensures forall i :: 0 <= i < |best| ==>
              Has(table, best[i]) && Relevances(table, best)[i] == Relevance(table, best[i])
  {
    hide Relevances, IsTable, Has;
    forall i | 0 <= i < |best|
      ensures Has(table, best[i]) && Relevances(table, best)[i] == Relevance(table, best[i]) && best[i] !in best[..i]
    {
      RelevanceAt(table, best, i);
      RelevanceIsPositive(table, best[i]);
      assert Relevances(table, best)[i] > 0;
    }
    forall i, j | 0 <= i < j < |best| ensures best[i] != best[j] {
      assert best[..j][i] == best[i];
    }
  }

  lemma NothingBetterMissing<K>(table: Table<K>, best: seq<K>)
    requires IsTable(table) && |best| <= |table| && Relevances(table, best) == Ideal(table)[..|best|]
    requires AllPositive(Relevances(table, best))
    ensures forall i, j :: 0 <= i < |table| && 0 <= j < |best| && table[i].0 !in best ==>
              table[i].1 <= Relevances(table, best)[j]
  {
    hide Relevances, Ideal, IsTable, AllPositive, Values, Without, NonIncreasing;
    var listed, tail := Relevances(table, best), Ideal(table)[|best|..];
    MissingValues(table, best);
    forall i, j | 0 <= i < |table| && 0 <= j < |best| && table[i].0 !in best ensures table[i].1 <= listed[j] {
      MissingIsInTail(table, best, tail, i);
      TailIsNoBetter(Ideal(table), |best|, table[i].1, j) by { IdealIsSorted(table); }
    }
  }

  lemma TailIsNoBetter(ideal: seq<nat>, n: nat, v: nat, j: nat)
    requires NonIncreasing(ideal) && j < n <= |ideal| && v in ideal[n..]
    ensures v <= ideal[..n][j]
  {
    var k :| 0 <= k < |ideal| - n && ideal[n..][k] == v;
    assert ideal[n + k] == v;
  }

  lemma MissingIsInTail<K>(table: Table<K>, best: seq<K>, tail: seq<nat>, i: nat)
    requires i < |table| && table[i].0 !in best
    requires multiset(Values(Without(table, best))) == multiset(tail)
    ensures table[i].1 in tail
  {
    var missing := Without(table, best);
    WithoutMembers(table, best);
    SameElements(Values(missing), tail);
    hide Without;
    assert table[i] in table && table[i] in missing;
    var m :| 0 <= m < |missing| && missing[m] == table[i];
    assert Values(missing)[m] in Values(missing);
  }

  lemma MissingValues<K>(table: Table<K>, best: seq<K>)
    requires IsTable(table) && |best| <= |table| && Relevances(table, best) == Ideal(table)[..|best|]
    requires AllPositive(Relevances(table, best))
    ensures multiset(Values(Without(table, best))) == multiset(Ideal(table)[|best|..])
  {
    hide Relevances, Ideal, IsTable, AllPositive, Values, Without;
    var listed, ideal := Relevances(table, best), Ideal(table);
    IdealIsSorted(table);
    BestElements(table, best, listed);
    assert ideal == listed + ideal[|best|..];
    assert multiset(ideal) == multiset(listed) + multiset(ideal[|best|..]);
    Cancel(multiset(listed), multiset(Values(Without(table, best))), multiset(ideal[|best|..]));
  }

  lemma Cancel(a: multiset<nat>, b: multiset<nat>, c: multiset<nat>)
    requires a + b == a + c
    ensures b == c
  {
    forall v: nat ensures b[v] == c[v] { assert (a + b)[v] == (a + c)[v]; }
  }

  // ---- recall and reciprocal rank

  lemma KeyCount<K(!new)>(table: Table<K>)
    requires DistinctKeys(table)
    ensures |Keys(table)| == |table|
  {
    if table != [] {
      var tail := table[1..];
      forall i | 0 <= i < |tail| ensures tail[i].0 != table[0].0 { assert tail[i] == table[i + 1]; }
      KeyCount(tail);
      forall key ensures key in Keys(table) <==> key in Keys(tail) + {table[0].0} {
        assert Has(table, key) <==> Has(tail, key) || key == table[0].0 by { HasHeadOrTail(table, key); }
      }
      assert Keys(table) == Keys(tail) + {table[0].0};
    }
  }

  lemma HasHeadOrTail<K>(table: Table<K>, key: K)
    requires table != []
    ensures Has(table, key) <==> Has(table[1..], key) || key == table[0].0
  {
    assert forall i :: 0 < i < |table| ==> table[i] == table[1..][i - 1];
    assert forall i :: 0 <= i < |table[1..]| ==> table[1..][i] == table[i + 1];
  }

  lemma RecallOnTable<K(!new)>(d: Discount, ranked: seq<K>, relevant: seq<(K, nat)>, limit: nat)
    requires Judged(relevant) && limit >= 1
    ensures var recall := MetricsOf(d, ranked, relevant, limit).recall;
            && 0.0 <= recall <= 1.0
            && (relevant != [] ==> (recall == 1.0 <==> forall key :: Has(TableOf(relevant), key) ==> key in Top(ranked, limit)))
  {
    hide Ndcg, ReciprocalRank, TableOf;
    var table, keys := TableOf(relevant), Top(ranked, limit);
    TablesAreTables(relevant);
    KeyCount(table);
    if table != [] {
      var hits := Elements(keys) * Keys(table);
      assert hits <= Keys(table);
      SubsetSize(hits, Keys(table));
      QuotientAtMostOne(|hits| as real, |table| as real);
      if forall key :: Has(table, key) ==> key in keys { assert hits == Keys(table); }
    }
  }

  lemma SubsetSize<T>(a: set<T>, b: set<T>)
    requires a <= b
    ensures |a| <= |b| && (|a| == |b| ==> a == b)
  {
    assert b == a + (b - a);
    assert |b| == |a| + |b - a|;
  }

  lemma ReciprocalRankOnTable<K(!new)>(d: Discount, ranked: seq<K>, relevant: seq<(K, nat)>, limit: nat)
    requires Judged(relevant) && limit >= 1
    ensures var rr, table, keys := MetricsOf(d, ranked, relevant, limit).reciprocalRank, TableOf(relevant), Top(ranked, limit);
            && (forall i :: 0 <= i < |keys| && Has(table, keys[i]) && (forall j :: 0 <= j < i ==> !Has(table, keys[j]))
                  ==> rr == 1.0 / (i + 1) as real)
            && ((forall i :: 0 <= i < |keys| ==> !Has(table, keys[i])) ==> rr == 0.0)
  {
    hide Ndcg, Recall, TableOf, Has, Relevance;
    var table, keys := TableOf(relevant), Top(ranked, limit);
    TablesAreTables(relevant);
    var list := Relevances(table, keys);
    forall i | 0 <= i < |keys| ensures list[i] > 0 ==> Has(table, keys[i]) {
      RelevanceAt(table, keys, i);
      RelevanceIsPositive(table, keys[i]);
    }
    forall i | 0 <= i < |keys| && Has(table, keys[i]) && (forall j :: 0 <= j < i ==> !Has(table, keys[j]))
      ensures list[i] > 0
    {
      RelevanceAt(table, keys, i);
      RelevanceIsPositive(table, keys[i]);
      forall j | 0 <= j < i ensures keys[j] != keys[i] { assert !Has(table, keys[j]); }
    }
  }

  // ---- the metrics in terms of the judgements

  /** The judged locations. */
  function Locations<K(==, !new)>(relevant: seq<(K, nat)>): set<K> {
    set i | 0 <= i < |relevant| :: relevant[i].0
  }

  /** The judgement of a location is its last; an unjudged one is worth nothing. */
  ghost predicate IsWorth<K>(relevant: seq<(K, nat)>, key: K, worth: nat) {
    || (worth == 0 && forall i :: 0 <= i < |relevant| ==> relevant[i].0 != key)
    || exists i :: 0 <= i < |relevant| && relevant[i] == (key, worth) && forall j :: i < j < |relevant| ==> relevant[j].0 != key
  }

  function Worth<K(==)>(relevant: seq<(K, nat)>, key: K): nat {
    if relevant == [] then 0
    else if relevant[|relevant| - 1].0 == key then relevant[|relevant| - 1].1
    else Worth(relevant[..|relevant| - 1], key)
  }

  lemma EarlierJudgement<K>(relevant: seq<(K, nat)>, key: K, worth: nat)
    requires relevant != [] && relevant[|relevant| - 1].0 != key && IsWorth(relevant[..|relevant| - 1], key, worth)
    ensures IsWorth(relevant, key, worth)
  {
    var front := relevant[..|relevant| - 1];
    assert forall i :: 0 <= i < |front| ==> front[i] == relevant[i];
    if i :| 0 <= i < |front| && front[i] == (key, worth) && forall j :: i < j < |front| ==> front[j].0 != key {
      assert relevant[i] == (key, worth);
    }
  }

  lemma {:induction false} WorthIsLast<K>(relevant: seq<(K, nat)>, key: K)
    ensures IsWorth(relevant, key, Worth(relevant, key))
  {
    hide IsWorth;
    if relevant == [] {
      NothingJudged(relevant, key);
    } else if relevant[|relevant| - 1].0 == key {
      LastJudged(relevant);
    } else {
      WorthIsLast(relevant[..|relevant| - 1], key);
      EarlierJudgement(relevant, key, Worth(relevant, key));
    }
  }

  lemma NothingJudged<K>(relevant: seq<(K, nat)>, key: K)
    requires relevant == []
    ensures IsWorth(relevant, key, 0)
  {
  }

  lemma LastJudged<K>(relevant: seq<(K, nat)>)
    requires relevant != []
    ensures IsWorth(relevant, relevant[|relevant| - 1].0, relevant[|relevant| - 1].1)
  {
    var last := relevant[|relevant| - 1];
    assert last == (last.0, last.1);
  }

  /** The table holds exactly the judged locations, each with its last judgement. */
  lemma {:induction false} TableHoldsLast<K(!new)>(relevant: seq<(K, nat)>, key: K)
    ensures Get(TableOf(relevant), key) == if key in Locations(relevant) then Some(Worth(relevant, key)) else None
  {
    if relevant != [] {
      var n := |relevant| - 1;
      var front := relevant[..n];
      TableHoldsLast(front, key);
      GetOfPut(TableOf(front), relevant[n].0, relevant[n].1, key);
      assert forall i :: 0 <= i < n ==> front[i] == relevant[i];
      OneMoreLocation(relevant, key);
    }
  }

  lemma OneMoreLocation<K(!new)>(relevant: seq<(K, nat)>, key: K)
    requires relevant != []
    ensures var n := |relevant| - 1; key in Locations(relevant) <==> key in Locations(relevant[..n]) || key == relevant[n].0
  {
    var n := |relevant| - 1;
    assert forall i :: 0 <= i < n ==> relevant[..n][i] == relevant[i];
    if key in Locations(relevant) {
      var i :| 0 <= i < |relevant| && relevant[i].0 == key;
      if i < n { assert relevant[..n][i].0 == key; }
    }
    if key in Locations(relevant[..n]) {
      var i :| 0 <= i < n && relevant[..n][i].0 == key;
      assert relevant[i].0 == key;
    }
  }

  lemma TableOfJudgements<K(!new)>(relevant: seq<(K, nat)>)
    requires Judged(relevant)
    ensures var table := TableOf(relevant);
            && IsTable(table) && Keys(table) == Locations(relevant) && |table| == |Locations(relevant)|
            && (forall key :: Has(table, key) <==> key in Locations(relevant))
            && (forall key :: Relevance(table, key) == (if key in Locations(relevant) then Worth(relevant, key) else 0))
            && (forall i :: 0 <= i < |table| ==> table[i].1 == Worth(relevant, table[i].0))
  {
    hide TableOf, Worth, Locations;
    var table := TableOf(relevant);
    TablesAreTables(relevant);
    forall key ensures Has(table, key) <==> key in Locations(relevant) { TableHoldsLast(relevant, key); }
    forall key ensures Relevance(table, key) == (if key in Locations(relevant) then Worth(relevant, key) else 0) {
      TableHoldsLast(relevant, key);
    }
    assert Keys(table) == Locations(relevant);
    KeyCount(table);
    forall i | 0 <= i < |table| ensures table[i].1 == Worth(relevant, table[i].0) {
      GetOfEntry(table, i);
      TableHoldsLast(relevant, table[i].0);
    }
  }

  lemma UnjudgedIsWorthless<K(!new)>(relevant: seq<(K, nat)>, key: K)
    requires key !in Locations(relevant)
    ensures Worth(relevant, key) == 0
  {
    WorthIsLast(relevant, key);
  }

  /** What the retrieved locations are worth; a repeated one counts nothing. */
  predicate AreWorths<K(==)>(relevant: seq<(K, nat)>, keys: seq<K>, list: seq<nat>) {
    && |list| == |keys|
    && forall i :: 0 <= i < |keys| ==> list[i] == if keys[i] in keys[..i] then 0 else Worth(relevant, keys[i])
  }

  /** Each judged location once, the most relevant first. */
  predicate IsIdealOrder<K(==, !new)>(relevant: seq<(K, nat)>, best: seq<K>) {
    && Distinct(best) && |best| == |Locations(relevant)|
    && (forall i :: 0 <= i < |best| ==> best[i] in Locations(relevant))
    && (forall i, j :: 0 <= i < j < |best| ==> Worth(relevant, best[i]) >= Worth(relevant, best[j]))
  }

  function ByWorth<K(==)>(relevant: seq<(K, nat)>): (K, K) -> bool {
    (a: K, b: K) => Worth(relevant, a) >= Worth(relevant, b)
  }

  function KeyList<K>(table: Table<K>): seq<K> {
    seq(|table|, i requires 0 <= i < |table| => table[i].0)
  }

  lemma IdealOrderExists<K(!new)>(relevant: seq<(K, nat)>) returns (best: seq<K>)
    requires Judged(relevant)
    ensures IsIdealOrder(relevant, best)
  {
    hide TableOf, Worth, Locations, IsTable;
    var table := TableOf(relevant);
    TableOfJudgements(relevant);
    TablesAreTables(relevant);
    var keys := KeyList(table);
    KeysAreDistinct(table);
    best := SortBy(ByWorth(relevant), keys);
    SortSorts(ByWorth(relevant), keys);
    SortKeepsElements(ByWorth(relevant), keys);
    SameElements(best, keys);
    PermutedStaysDistinct(keys, best);
    forall i | 0 <= i < |best| ensures best[i] in Locations(relevant) { assert best[i] in keys; }
    forall i, j | 0 <= i < j < |best| ensures Worth(relevant, best[i]) >= Worth(relevant, best[j]) {
      assert ByWorth(relevant)(best[i], best[j]);
    }
    assert |best| == |multiset(best)| == |multiset(keys)| == |keys|;
  }

  lemma KeysAreDistinct<K>(table: Table<K>)
    requires IsTable(table)
    ensures Distinct(KeyList(table))
    ensures forall i :: 0 <= i < |table| ==> Has(table, KeyList(table)[i])
  {
  }

  lemma RelevancesAreWorths<K(!new)>(relevant: seq<(K, nat)>, keys: seq<K>)
    requires Judged(relevant)
    ensures AreWorths(relevant, keys, Relevances(TableOf(relevant), keys))
  {
    hide TableOf, Worth, Locations, Relevances;
    TableOfJudgements(relevant);
    forall i | 0 <= i < |keys|
      ensures Relevances(TableOf(relevant), keys)[i] == if keys[i] in keys[..i] then 0 else Worth(relevant, keys[i])
    {
      RelevanceAt(TableOf(relevant), keys, i);
      if keys[i] !in Locations(relevant) { UnjudgedIsWorthless(relevant, keys[i]); }
    }
  }

  lemma SameWorths<K>(relevant: seq<(K, nat)>, keys: seq<K>, a: seq<nat>, b: seq<nat>)
    requires AreWorths(relevant, keys, a) && AreWorths(relevant, keys, b)
    ensures a == b
  {
    hide Worth;
  }

  lemma IdealOrderIsIdeal<K(!new)>(relevant: seq<(K, nat)>, best: seq<K>)
    requires Judged(relevant) && IsIdealOrder(relevant, best)
    ensures AreWorths(relevant, best, Ideal(TableOf(relevant)))
  {
    hide TableOf, Worth, Locations, Relevances, Ideal, IsTable;
    var table := TableOf(relevant);
    TableOfJudgements(relevant);
    TablesAreTables(relevant);
    AllAreListed(relevant, best);
    assert ListsTheBest(table, best, |best|) by { BestOfTable(relevant, best, |best|); }
    BestListIsIdeal(table, best);
    IdealIsSorted(table);
    assert Ideal(table)[..|best|] == Ideal(table);
    RelevancesAreWorths(relevant, best);
  }

  lemma AllAreListed<K(!new)>(relevant: seq<(K, nat)>, best: seq<K>)
    requires IsIdealOrder(relevant, best)
    ensures forall key :: key in Locations(relevant) ==> key in best
  {
    hide Worth, Locations;
    var listed := Elements(best);
    DistinctCount(best);
    SubsetSize(listed, Locations(relevant));
  }

  lemma {:induction false} DistinctCount<K(!new)>(keys: seq<K>)
    requires Distinct(keys)
    ensures |Elements(keys)| == |keys|
  {
    if keys != [] {
      var n := |keys| - 1;
      DistinctCount(keys[..n]);
      assert Elements(keys) == Elements(keys[..n]) + {keys[n]};
    }
  }

  /** The first n listed locations are distinct, judged and of non-increasing worth, and no judged
      location beyond them is worth more than one of them. */
  ghost predicate ListsBestOf<K(!new)>(relevant: seq<(K, nat)>, ranked: seq<K>, n: nat) {
    && n <= |ranked| && Distinct(ranked[..n])
    && (forall i :: 0 <= i < n ==> ranked[i] in Locations(relevant))
    && (forall i, j :: 0 <= i < j < n ==> Worth(relevant, ranked[i]) >= Worth(relevant, ranked[j]))
    && (forall key, j :: key in Locations(relevant) && 0 <= j < n && key !in ranked[..n] ==>
          Worth(relevant, key) <= Worth(relevant, ranked[j]))
  }

  lemma BestOfTable<K(!new)>(relevant: seq<(K, nat)>, ranked: seq<K>, n: nat)
    requires Judged(relevant)
    ensures ListsTheBest(TableOf(relevant), ranked, n) <==> ListsBestOf(relevant, ranked, n)
  {
    hide TableOf, Worth, Locations, Relevance, IsTable;
    var table := TableOf(relevant);
    TableOfJudgements(relevant);
    if ListsTheBest(table, ranked, n) {
      forall key, j | key in Locations(relevant) && 0 <= j < n && key !in ranked[..n]
        ensures Worth(relevant, key) <= Worth(relevant, ranked[j])
      {
        var i :| 0 <= i < |table| && table[i].0 == key;
      }
    }
    if ListsBestOf(relevant, ranked, n) {
      forall i, j | 0 <= i < |table| && 0 <= j < n && table[i].0 !in ranked[..n] ensures table[i].1 <= Relevance(table, ranked[j]) {
        assert Has(table, table[i].0);
      }
    }
  }

  /** NDCG is the gain of what was retrieved over the gain of the first locations of any ideal order,
      0 if nothing is judged; it lies between 0 and 1. */
  lemma NdcgIsQuotient<K(!new)>(d: Discount, ranked: seq<K>, relevant: seq<(K, nat)>, limit: nat, best: seq<K>, list: seq<nat>, ideal: seq<nat>)
    requires Judged(relevant) && limit >= 1 && IsIdealOrder(relevant, best)
    requires AreWorths(relevant, Top(ranked, limit), list) && AreWorths(relevant, best, ideal)
    ensures var ndcg := MetricsOf(d, ranked, relevant, limit).ndcg;
            && 0.0 <= ndcg <= 1.0
            && (relevant == [] ==> ndcg == 0.0)
            && (relevant != [] ==> TotalGain(d, Top(ideal, limit)) > 0.0
                                   && ndcg == TotalGain(d, list) / TotalGain(d, Top(ideal, limit)))
            && (ndcg == 1.0 <==> relevant != [] && Agrees(list, Top(ideal, limit)))
  {
    hide TableOf, Relevances, Ideal, AreWorths, IsIdealOrder, TotalGain, IsTable, Agrees;
    var table := TableOf(relevant);
    RelevancesAreWorths(relevant, Top(ranked, limit));
    SameWorths(relevant, Top(ranked, limit), list, Relevances(table, Top(ranked, limit)));
    IdealOrderIsIdeal(relevant, best);
    SameWorths(relevant, best, ideal, Ideal(table));
    NdcgOfTable(d, ranked, relevant, limit);
    TablesAreTables(relevant);
    IdealBounds(d, table, Top(ranked, limit), limit);
  }

  /** NDCG is 1 exactly for rankings that begin with as many of the best judged locations as the
      limit has room for, each once and in non-increasing relevance. */
  lemma NdcgIsOneForTheBest<K(!new)>(d: Discount, ranked: seq<K>, relevant: seq<(K, nat)>, limit: nat)
    requires Judged(relevant) && limit >= 1 && relevant != []
    ensures MetricsOf(d, ranked, relevant, limit).ndcg == 1.0
            <==> ListsBestOf(relevant, ranked, Least(limit, |Locations(relevant)|))
  {
    hide TableOf, MetricsOf, ListsTheBest, ListsBestOf, Locations, IsTable;
    TableOfJudgements(relevant);
    NdcgIsOneOnTable(d, ranked, relevant, limit);
    BestOfTable(relevant, ranked, Least(limit, |Locations(relevant)|));
  }

  /** Recall is the share of the judged locations that were retrieved, 0 if none is judged: between
      0 and 1, and 1 exactly when every judged location is retrieved. */
  lemma RecallIsShare<K(!new)>(d: Discount, ranked: seq<K>, relevant: seq<(K, nat)>, limit: nat)
    requires Judged(relevant) && limit >= 1
    ensures var recall, judged := MetricsOf(d, ranked, relevant, limit).recall, Locations(relevant);
            && 0.0 <= recall <= 1.0
            && (relevant == [] ==> recall == 0.0)
            && (relevant != [] ==>
                  && |judged| > 0
                  && recall == |set key | key in judged && key in Top(ranked, limit)| as real / |judged| as real
                  && (recall == 1.0 <==> forall key :: key in judged ==> key in Top(ranked, limit)))
  {
    hide TableOf, Ndcg, ReciprocalRank, IsTable;
    var table, keys, judged := TableOf(relevant), Top(ranked, limit), Locations(relevant);
    TableOfJudgements(relevant);
    TablesAreTables(relevant);
    RecallOnTable(d, ranked, relevant, limit);
    assert Elements(keys) * Keys(table) == set key | key in judged && key in keys;
    if relevant != [] { assert relevant[0].0 in judged; }
  }

  /** The reciprocal rank is 1 over the rank of the first judged location, 0 if there is none. */
  lemma ReciprocalRankIsFirstHit<K(!new)>(d: Discount, ranked: seq<K>, relevant: seq<(K, nat)>, limit: nat)
    requires Judged(relevant) && limit >= 1
    ensures var rr, judged, keys := MetricsOf(d, ranked, relevant, limit).reciprocalRank, Locations(relevant), Top(ranked, limit);
            && (forall i :: 0 <= i < |keys| && keys[i] in judged && (forall j :: 0 <= j < i ==> keys[j] !in judged)
                  ==> rr == 1.0 / (i + 1) as real)
            && ((forall i :: 0 <= i < |keys| ==> keys[i] !in judged) ==> rr == 0.0)
  {
    hide TableOf, MetricsOf, Has, Locations, IsTable;
    TableOfJudgements(relevant);
    ReciprocalRankOnTable(d, ranked, relevant, limit);
  }
}
