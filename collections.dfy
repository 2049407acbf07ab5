/** Python collection idioms the backend uses: a stable `list.sort(key=..., reverse=True)`,
    slicing `xs[:n]`, a `dict` of lists built by appending (insertion-ordered), and a
    `defaultdict(int)` tally. */
module Collections {

  /** An item paired with the key it is sorted by. */
  datatype Scored<T> = Scored(item: T, score: int)

  predicate SortedDesc<T>(xs: seq<Scored<T>>) {
    forall i, j | 0 <= i < j < |xs| :: xs[i].score >= xs[j].score
  }

  /** The items carrying score `k`, in their order in `xs`. */
  function WithScore<T>(xs: seq<Scored<T>>, k: int): (r: seq<Scored<T>>)
    ensures |r| <= |xs|
  {
    if xs == [] then []
    else if xs[0].score == k then [xs[0]] + WithScore(xs[1..], k)
    else WithScore(xs[1..], k)
  }

  /** Insert `x` in front of the first element whose score does not exceed its own. */
  function InsertDesc<T>(x: Scored<T>, ys: seq<Scored<T>>): (r: seq<Scored<T>>)
    ensures multiset(r) == multiset(ys) + multiset{x}
    ensures |r| == |ys| + 1
  {
    if ys == [] || ys[0].score <= x.score then [x] + ys
    else
      assert ys == [ys[0]] + ys[1..];
      [ys[0]] + InsertDesc(x, ys[1..])
  }

  /** What Python's stable `sort(key=score, reverse=True)` leaves in the list. */
  function SortDesc<T>(xs: seq<Scored<T>>): (r: seq<Scored<T>>)
    ensures multiset(r) == multiset(xs)
    ensures |r| == |xs|
  {
    if xs == [] then []
    else
      assert xs == [xs[0]] + xs[1..];
      InsertDesc(xs[0], SortDesc(xs[1..]))
  }

  lemma {:induction false} InsertDescSorted<T>(x: Scored<T>, ys: seq<Scored<T>>)
    requires SortedDesc(ys)
    ensures SortedDesc(InsertDesc(x, ys))
  {
    if ys != [] && ys[0].score > x.score {
      InsertDescSorted(x, ys[1..]);
      var r := InsertDesc(x, ys);
      var t := InsertDesc(x, ys[1..]);
      assert r == [ys[0]] + t;
      forall j | 0 < j < |r| ensures r[0].score >= r[j].score {
        assert r[j] in multiset(t);
        assert r[j] in multiset(ys[1..]) + multiset{x};
        if r[j] in multiset(ys[1..]) {
          var m :| 0 <= m < |ys[1..]| && ys[1..][m] == r[j];
          assert ys[m + 1] == r[j];
        }
      }
    }
  }

  /** The sorted list is non-increasing in score. */
  lemma {:induction false} SortDescSorted<T>(xs: seq<Scored<T>>)
    ensures SortedDesc(SortDesc(xs))
  {
    if xs != [] {
      SortDescSorted(xs[1..]);
      InsertDescSorted(xs[0], SortDesc(xs[1..]));
    }
  }

  lemma {:induction false} InsertDescStable<T>(x: Scored<T>, ys: seq<Scored<T>>, k: int)
    ensures WithScore(InsertDesc(x, ys), k) == if x.score == k then [x] + WithScore(ys, k) else WithScore(ys, k)
  {
    if ys != [] && ys[0].score > x.score {
      InsertDescStable(x, ys[1..], k);
      assert InsertDesc(x, ys)[1..] == InsertDesc(x, ys[1..]);
    }
  }

  /** Stability: the items of any one score keep their input order. */
  lemma {:induction false} SortDescStable<T>(xs: seq<Scored<T>>, k: int)
    ensures WithScore(SortDesc(xs), k) == WithScore(xs, k)
  {
    if xs != [] {
      SortDescStable(xs[1..], k);
      InsertDescStable(xs[0], SortDesc(xs[1..]), k);
    }
  }

  /** Python's `xs[:n]`, where a negative `n` counts from the end. */
  function PyTake<T>(xs: seq<T>, n: int): (r: seq<T>)
    ensures n >= 0 ==> |r| == if n < |xs| then n else |xs|
    ensures n < 0 ==> |r| == if |xs| + n > 0 then |xs| + n else 0
    ensures r == xs[..|r|]
  {
    if n >= 0 then (if n < |xs| then xs[..n] else xs)
    else if |xs| + n > 0 then xs[..|xs| + n] else []
  }

  /** One entry of an insertion-ordered dict of lists. */
  datatype Group<K, T> = Group(key: K, members: seq<T>)

  /** The members of `xs` whose key is `k`, in order. */
  function Having<T, K(==)>(xs: seq<T>, key: T -> K, k: K): (r: seq<T>)
    ensures |r| <= |xs|
  {
    if xs == [] then []
    else Having(xs[..|xs| - 1], key, k) + (if key(xs[|xs| - 1]) == k then [xs[|xs| - 1]] else [])
  }

  function KeysOf<K, T>(gs: seq<Group<K, T>>): seq<K> {
    seq(|gs|, j requires 0 <= j < |gs| => gs[j].key)
  }

  /** The position of the group with key `k`, or `|gs|` when there is none. */
  function KeyIndex<K(==), T>(gs: seq<Group<K, T>>, k: K): (i: nat)
    ensures i <= |gs|
    ensures i < |gs| ==> gs[i].key == k
    ensures forall j | 0 <= j < i :: gs[j].key != k
  {
    if gs == [] then 0 else if gs[0].key == k then 0 else KeyIndex(gs[1..], k) + 1
  }

  lemma {:induction false} KeyIndexPresent<K, T>(gs: seq<Group<K, T>>, k: K)
    ensures KeyIndex(gs, k) < |gs| <==> k in KeysOf(gs)
  {
    var i := KeyIndex(gs, k);
    if i < |gs| {
      assert KeysOf(gs)[i] == k;
    }
    if k in KeysOf(gs) {
      var j :| 0 <= j < |gs| && KeysOf(gs)[j] == k;
      assert gs[j].key == k;
    }
  }

  /** `grouped[k].append(x)` on a dict whose entries keep insertion order. */
  function AddTo<K(==), T>(gs: seq<Group<K, T>>, k: K, x: T): (r: seq<Group<K, T>>)
    ensures |r| == if k in KeysOf(gs) then |gs| else |gs| + 1
    ensures forall j | 0 <= j < |gs| :: r[j].key == gs[j].key
    ensures k !in KeysOf(gs) ==> r[|gs|] == Group(k, [x])
    decreases |gs|
  {
    if gs == [] then [Group(k, [x])]
    else if gs[0].key == k then
      assert KeysOf(gs)[0] == k;
      [Group(k, gs[0].members + [x])] + gs[1..]
    else
      assert KeysOf(gs) == [gs[0].key] + KeysOf(gs[1..]);
      [gs[0]] + AddTo(gs[1..], k, x)
  }

  /** The first group with key `k` gets `x` appended, or a new group `[x]` goes at the end. */
  function AppendAt<K(==), T>(gs: seq<Group<K, T>>, k: K, x: T): seq<Group<K, T>> {
    var i := KeyIndex(gs, k);
    if i < |gs| then gs[i := Group(k, gs[i].members + [x])] else gs + [Group(k, [x])]
  }

  lemma AppendAtCons<K, T>(gs: seq<Group<K, T>>, k: K, x: T)
    requires gs != [] && gs[0].key != k
    ensures AppendAt(gs, k, x) == [gs[0]] + AppendAt(gs[1..], k, x)
  {
    var tail := gs[1..];
    var i := KeyIndex(tail, k);
    assert KeyIndex(gs, k) == i + 1;
    if i < |tail| {
      var g := Group(k, tail[i].members + [x]);
      assert gs[i + 1].members == tail[i].members;
      assert gs[i + 1 := g] == [gs[0]] + tail[i := g];
    } else {
      assert gs + [Group(k, [x])] == [gs[0]] + (tail + [Group(k, [x])]);
    }
  }

  /** The recursive append agrees with the index-based description. */
  lemma {:induction false} AddToAt<K, T>(gs: seq<Group<K, T>>, k: K, x: T)
    ensures AddTo(gs, k, x) == AppendAt(gs, k, x)
    decreases |gs|
  {
    if gs == [] {
    } else if gs[0].key == k {
      assert KeyIndex(gs, k) == 0;
      assert AddTo(gs, k, x) == [Group(k, gs[0].members + [x])] + gs[1..];
    } else {
      AddToAt(gs[1..], k, x);
      AppendAtCons(gs, k, x);
    }
  }

  /** The dict of lists left by appending each element of `xs`, in order, under its key. */
  function GroupBy<T, K(==)>(xs: seq<T>, key: T -> K): seq<Group<K, T>> {
    if xs == [] then [] else AddTo(GroupBy(xs[..|xs| - 1], key), key(xs[|xs| - 1]), xs[|xs| - 1])
  }

  ghost predicate DistinctKeys<K, T>(gs: seq<Group<K, T>>) {
    forall i, j | 0 <= i < j < |gs| :: gs[i].key != gs[j].key
  }

  /** The index of the first element of `xs` with key `k`, if any. */
  function FirstIndex<T, K(==)>(xs: seq<T>, key: T -> K, k: K): (r: nat)
    ensures r <= |xs|
    ensures r < |xs| ==> key(xs[r]) == k
    ensures forall i | 0 <= i < r :: key(xs[i]) != k
  {
    if xs == [] then 0 else if key(xs[0]) == k then 0 else FirstIndex(xs[1..], key, k) + 1
  }

  /** The property every insertion-ordered grouping keeps: distinct keys, each
      group holds exactly the members with its key, and every key present has a group. */
  ghost predicate GroupsOf<T, K>(gs: seq<Group<K, T>>, xs: seq<T>, key: T -> K) {
    && DistinctKeys(gs)
    && (forall j | 0 <= j < |gs| :: gs[j].members == Having(xs, key, gs[j].key))
    && (forall j | 0 <= j < |gs| :: gs[j].members != [])
    && (forall i | 0 <= i < |xs| :: key(xs[i]) in KeysOf(gs))
  }

  lemma AddToShape<K, T>(gs: seq<Group<K, T>>, k: K, x: T)
    requires DistinctKeys(gs)
    ensures DistinctKeys(AddTo(gs, k, x))
    ensures k in KeysOf(AddTo(gs, k, x))
    ensures k in KeysOf(gs) ==> KeysOf(AddTo(gs, k, x)) == KeysOf(gs)
    ensures k !in KeysOf(gs) ==> KeysOf(AddTo(gs, k, x)) == KeysOf(gs) + [k]
    ensures forall j | 0 <= j < |gs| :: AddTo(gs, k, x)[j].members
              == if gs[j].key == k then gs[j].members + [x] else gs[j].members
    ensures k !in KeysOf(gs) ==> AddTo(gs, k, x)[|gs|] == Group(k, [x])
  {
    AddToKeys(gs, k, x);
    AddToMembers(gs, k, x);
  }

  lemma AddToKeys<K, T>(gs: seq<Group<K, T>>, k: K, x: T)
    requires DistinctKeys(gs)
    ensures KeysOf(AddTo(gs, k, x)) == if k in KeysOf(gs) then KeysOf(gs) else KeysOf(gs) + [k]
    ensures DistinctKeys(AddTo(gs, k, x))
  {
    AddToAt(gs, k, x);
    KeyIndexPresent(gs, k);
    var r, ks := AddTo(gs, k, x), KeysOf(gs);
    if KeyIndex(gs, k) < |gs| {
      assert KeysOf(r) == ks;
    } else {
      assert KeysOf(r) == ks + [k];
      forall i, j | 0 <= i < j < |r| ensures r[i].key != r[j].key {
        assert r[i].key == ks[i];
      }
    }
  }

  lemma AddToMembers<K, T>(gs: seq<Group<K, T>>, k: K, x: T)
    requires DistinctKeys(gs)
    ensures forall j | 0 <= j < |gs| :: AddTo(gs, k, x)[j].members
              == if gs[j].key == k then gs[j].members + [x] else gs[j].members
  {
    AddToAt(gs, k, x);
    KeyIndexPresent(gs, k);
    var i := KeyIndex(gs, k);
    forall j | 0 <= j < |gs| && j != i ensures gs[j].key != k {
      if i < |gs| && i < j {
        assert gs[i].key != gs[j].key;
      }
    }
  }

  /** Grouping is a partition of `xs` by key: the groups have distinct keys, each
      holds exactly the elements with its key in their original order, and every
      element's key has a group. */
  lemma {:induction false} GroupByCorrect<T, K>(xs: seq<T>, key: T -> K)
    ensures GroupsOf(GroupBy(xs, key), xs, key)
  {
    if xs != [] {
      var init, x := xs[..|xs| - 1], xs[|xs| - 1];
      assert xs == init + [x];
      GroupByCorrect(init, key);
      var gs := GroupBy(init, key);
      var r := GroupBy(xs, key);
      AddToShape(gs, key(x), x);
      forall j | 0 <= j < |r| ensures r[j].members == Having(xs, key, r[j].key) && r[j].members != [] {
        if j == |gs| {
          assert key(x) !in KeysOf(gs);
          HavingAbsent(init, key, key(x), gs);
        }
      }
      forall i | 0 <= i < |xs| ensures key(xs[i]) in KeysOf(r) {
        if i < |init| {
          assert xs[i] == init[i];
          assert key(init[i]) in KeysOf(gs);
          var m :| 0 <= m < |gs| && KeysOf(gs)[m] == key(init[i]);
          assert KeysOf(r)[m] == key(init[i]);
        }
      }
    }
  }

  lemma HavingAbsent<T, K, U>(xs: seq<T>, key: T -> K, k: K, gs: seq<Group<K, U>>)
    requires forall i | 0 <= i < |xs| :: key(xs[i]) in KeysOf(gs)
    requires k !in KeysOf(gs)
    ensures Having(xs, key, k) == []
  {
    HavingEmpty(xs, key, k);
  }

  lemma {:induction false} HavingEmpty<T, K>(xs: seq<T>, key: T -> K, k: K)
    requires forall i | 0 <= i < |xs| :: key(xs[i]) != k
    ensures Having(xs, key, k) == []
  {
    if xs != [] {
      HavingEmpty(xs[..|xs| - 1], key, k);
    }
  }

  /** Each group's key occurs in `xs`, and groups are ordered by the first occurrence of their key. */
  ghost predicate FirstAppearanceOrder<T, K>(gs: seq<Group<K, T>>, xs: seq<T>, key: T -> K) {
    && (forall j | 0 <= j < |gs| :: FirstIndex(xs, key, gs[j].key) < |xs|)
    && (forall i, j | 0 <= i < j < |gs| :: FirstIndex(xs, key, gs[i].key) < FirstIndex(xs, key, gs[j].key))
  }

  /** Groups appear in order of their key's first appearance in `xs`. */
  lemma {:induction false} GroupByFirstAppearance<T, K>(xs: seq<T>, key: T -> K)
    ensures FirstAppearanceOrder(GroupBy(xs, key), xs, key)
  {
    if xs != [] {
      var init, x := xs[..|xs| - 1], xs[|xs| - 1];
      assert xs == init + [x];
      GroupByFirstAppearance(init, key);
      GroupByCorrect(init, key);
      assert GroupsOf(GroupBy(init, key), init, key);
      FirstAppearanceStep(GroupBy(init, key), init, x, key);
    }
  }

  lemma FirstAppearanceStep<T, K>(gs: seq<Group<K, T>>, init: seq<T>, x: T, key: T -> K)
    requires FirstAppearanceOrder(gs, init, key)
    requires DistinctKeys(gs)
    requires forall i | 0 <= i < |init| :: key(init[i]) in KeysOf(gs)
    ensures FirstAppearanceOrder(AddTo(gs, key(x), x), init + [x], key)
  {
    var xs := init + [x];
    var r := AddTo(gs, key(x), x);
    forall j | 0 <= j < |r|
      ensures FirstIndex(xs, key, r[j].key) == if j < |gs| then FirstIndex(init, key, gs[j].key) else |init|
    {
      FirstIndexAddTo(gs, init, x, key, j);
    }
    assert forall i | 0 <= i < |r| :: FirstIndex(xs, key, r[i].key) < |xs|;
  }

  /** Where the key of the `j`-th group after the append first occurs. */
  lemma FirstIndexAddTo<T, K>(gs: seq<Group<K, T>>, init: seq<T>, x: T, key: T -> K, j: nat)
    requires FirstAppearanceOrder(gs, init, key)
    requires forall i | 0 <= i < |init| :: key(init[i]) in KeysOf(gs)
    requires j < |AddTo(gs, key(x), x)|
    ensures FirstIndex(init + [x], key, AddTo(gs, key(x), x)[j].key)
      == if j < |gs| then FirstIndex(init, key, gs[j].key) else |init|
  {
    var r := AddTo(gs, key(x), x);
    if j < |gs| {
      assert r[j].key == gs[j].key;
      FirstIndexPrefix(init, x, key, gs[j].key);
    } else {
      assert r[j].key == key(x) && key(x) !in KeysOf(gs);
      FirstIndexNew(init, x, key, gs);
    }
  }

  lemma {:induction false} FirstIndexPrefix<T, K>(init: seq<T>, x: T, key: T -> K, k: K)
    requires FirstIndex(init, key, k) < |init|
    ensures FirstIndex(init + [x], key, k) == FirstIndex(init, key, k)
  {
    if key(init[0]) != k {
      assert (init + [x])[1..] == init[1..] + [x];
      FirstIndexPrefix(init[1..], x, key, k);
    }
  }

  lemma FirstIndexNew<T, K, U>(init: seq<T>, x: T, key: T -> K, gs: seq<Group<K, U>>)
    requires forall i | 0 <= i < |init| :: key(init[i]) in KeysOf(gs)
    requires key(x) !in KeysOf(gs)
    ensures FirstIndex(init + [x], key, key(x)) == |init|
  {
    var xs := init + [x];
    assert key(xs[|init|]) == key(x);
  }

  /** The total number of members over all groups. */
  function TotalMembers<K, T>(gs: seq<Group<K, T>>): nat {
    if gs == [] then 0 else TotalMembers(gs[..|gs| - 1]) + |gs[|gs| - 1].members|
  }

  lemma {:induction false} TotalMembersAddTo<K, T>(gs: seq<Group<K, T>>, k: K, x: T)
    ensures TotalMembers(AddTo(gs, k, x)) == TotalMembers(gs) + 1
    decreases |gs|
  {
    if gs == [] {
      assert AddTo(gs, k, x)[..0] == [];
    } else {
      var r := AddTo(gs, k, x);
      TotalMembersCons(gs);
      TotalMembersCons(r);
      if gs[0].key != k {
        TotalMembersAddTo(gs[1..], k, x);
        assert r[1..] == AddTo(gs[1..], k, x);
      } else {
        assert r[1..] == gs[1..];
      }
    }
  }

  lemma {:induction false} TotalMembersCons<K, T>(gs: seq<Group<K, T>>)
    requires gs != []
    ensures TotalMembers(gs) == |gs[0].members| + TotalMembers(gs[1..])
    decreases |gs|
  {
    if |gs| > 1 {
      TotalMembersCons(gs[..|gs| - 1]);
      assert gs[..|gs| - 1][1..] == gs[1..][..|gs[1..]| - 1];
    } else {
      assert gs[..0] == [];
      assert gs[1..] == [];
    }
  }

  /** Grouping loses and duplicates nothing: the group sizes add up to `|xs|`. */
  lemma {:induction false} GroupByTotal<T, K>(xs: seq<T>, key: T -> K)
    ensures TotalMembers(GroupBy(xs, key)) == |xs|
  {
    if xs != [] {
      GroupByTotal(xs[..|xs| - 1], key);
      TotalMembersAddTo(GroupBy(xs[..|xs| - 1], key), key(xs[|xs| - 1]), xs[|xs| - 1]);
    }
  }

  /** A `defaultdict(int)` tally: each distinct value with its number of
      occurrences, in order of first appearance. */
  function Tally<K(==)>(xs: seq<K>): seq<Scored<K>> {
    if xs == [] then [] else Bump(Tally(xs[..|xs| - 1]), xs[|xs| - 1])
  }

  /** The tally is the counts of grouping the values by themselves. */
  lemma {:induction false} TallyCounts<K>(xs: seq<K>)
    ensures Tally(xs) == Counts(GroupBy(xs, (k: K) => k))
  {
    if xs != [] {
      var init, x := xs[..|xs| - 1], xs[|xs| - 1];
      TallyCounts(init);
      CountsAddTo(GroupBy(init, (k: K) => k), x, x);
    }
  }

  /** The number of occurrences of `k` in `xs`. */
  function Occurrences<K(==)>(xs: seq<K>, k: K): nat {
    if xs == [] then 0 else Occurrences(xs[..|xs| - 1], k) + (if xs[|xs| - 1] == k then 1 else 0)
  }

  lemma {:induction false} HavingIdentity<K>(xs: seq<K>, k: K)
    ensures |Having(xs, (x: K) => x, k)| == Occurrences(xs, k)
  {
    if xs != [] {
      HavingIdentity(xs[..|xs| - 1], k);
    }
  }

  /** Every tally entry is a distinct value of `xs` with its exact number of
      occurrences (at least one), and every value of `xs` has an entry. */
  lemma TallyCorrect<K>(xs: seq<K>)
    ensures forall i, j | 0 <= i < j < |Tally(xs)| :: Tally(xs)[i].item != Tally(xs)[j].item
    ensures forall j | 0 <= j < |Tally(xs)| :: Tally(xs)[j].score == Occurrences(xs, Tally(xs)[j].item) >= 1
    ensures forall i | 0 <= i < |xs| :: exists j | 0 <= j < |Tally(xs)| :: Tally(xs)[j].item == xs[i]
  {
    var id := (k: K) => k;
    var gs := GroupBy(xs, id);
    GroupByCorrect(xs, id);
    TallyCounts(xs);
    var t := Tally(xs);
    forall j | 0 <= j < |t| ensures t[j].score == Occurrences(xs, t[j].item) >= 1 {
      HavingIdentity(xs, gs[j].key);
    }
    forall i | 0 <= i < |xs| ensures exists j | 0 <= j < |t| :: t[j].item == xs[i] {
      assert id(xs[i]) in KeysOf(gs);
      var m :| 0 <= m < |gs| && KeysOf(gs)[m] == xs[i];
      assert t[m].item == xs[i];
    }
  }

  /** `sum(counts)`: the tally accounts for every element exactly once. */
  function SumScores<T>(xs: seq<Scored<T>>): int {
    if xs == [] then 0 else SumScores(xs[..|xs| - 1]) + xs[|xs| - 1].score
  }

  lemma {:induction false} SumScoresTotal<K, T>(gs: seq<Group<K, T>>, t: seq<Scored<K>>)
    requires |t| == |gs|
    requires forall j | 0 <= j < |gs| :: t[j].score == |gs[j].members|
    ensures SumScores(t) == TotalMembers(gs)
  {
    if gs != [] {
      SumScoresTotal(gs[..|gs| - 1], t[..|t| - 1]);
    }
  }

  lemma TallySum<K>(xs: seq<K>)
    ensures SumScores(Tally(xs)) == |xs|
  {
    GroupByTotal(xs, (k: K) => k);
    TallyCounts(xs);
    SumScoresTotal(GroupBy(xs, (k: K) => k), Tally(xs));
  }

  /** A list comprehension `[x for x in xs if p(x)]`. */
  function Filter<T>(xs: seq<T>, p: T -> bool): (r: seq<T>)
    ensures |r| <= |xs|
    ensures forall i | 0 <= i < |r| :: r[i] in xs && p(r[i])
    ensures forall i | 0 <= i < |xs| :: p(xs[i]) ==> xs[i] in r
  {
    if xs == [] then [] else (if p(xs[0]) then [xs[0]] else []) + Filter(xs[1..], p)
  }

  /** Filtering a list extended by one element. */
  lemma {:induction false} FilterSnoc<T>(xs: seq<T>, x: T, p: T -> bool)
    ensures Filter(xs + [x], p) == Filter(xs, p) + (if p(x) then [x] else [])
    decreases |xs|
  {
    if xs == [] {
      assert [x][1..] == [];
    } else {
      FilterSnoc(xs[1..], x, p);
      assert (xs + [x])[1..] == xs[1..] + [x];
    }
  }

  /** `a` is `b` with some elements left out, the rest in their order. */
  ghost predicate IsSubseq<T>(a: seq<T>, b: seq<T>)
    decreases |b|
  {
    if a == [] then true
    else if b == [] then false
    else if a[0] == b[0] then IsSubseq(a[1..], b[1..])
    else IsSubseq(a, b[1..])
  }

  lemma {:induction false} SubseqRefl<T>(a: seq<T>)
    ensures IsSubseq(a, a)
  {
    if a != [] {
      SubseqRefl(a[1..]);
    }
  }

  /** Filtering keeps the survivors in their original order. */
  lemma {:induction false} FilterSubseq<T>(xs: seq<T>, p: T -> bool)
    ensures IsSubseq(Filter(xs, p), xs)
  {
    if xs != [] {
      FilterSubseq(xs[1..], p);
      if p(xs[0]) {
        assert Filter(xs, p) == [xs[0]] + Filter(xs[1..], p);
      } else {
        assert Filter(xs, p) == Filter(xs[1..], p);
      }
    }
  }

  /** Two successive filters are one filter by their conjunction `pq`. */
  lemma {:induction false} FilterFusion<T>(xs: seq<T>, p: T -> bool, q: T -> bool, pq: T -> bool)
    requires forall x :: pq(x) == (p(x) && q(x))
    ensures Filter(Filter(xs, p), q) == Filter(xs, pq)
  {
    if xs != [] {
      FilterFusion(xs[1..], p, q, pq);
      if p(xs[0]) {
        assert Filter(xs, p) == [xs[0]] + Filter(xs[1..], p);
        assert Filter(xs, p)[1..] == Filter(xs[1..], p);
      } else {
        assert Filter(xs, p) == Filter(xs[1..], p);
      }
    }
  }

  lemma {:induction false} SubseqTail<T>(a: seq<T>, b: seq<T>)
    requires a != [] && IsSubseq(a, b)
    ensures IsSubseq(a[1..], b)
    decreases |b|, 0
  {
    if a[0] == b[0] {
      SubseqConsRight(a[1..], b[1..], b[0]);
      assert [b[0]] + b[1..] == b;
    } else {
      SubseqTail(a, b[1..]);
      SubseqConsRight(a[1..], b[1..], b[0]);
      assert [b[0]] + b[1..] == b;
    }
  }

  lemma {:induction false} SubseqConsRight<T>(a: seq<T>, b: seq<T>, x: T)
    requires IsSubseq(a, b)
    ensures IsSubseq(a, [x] + b)
    decreases |b|, 1
  {
    if a != [] {
      var c := [x] + b;
      assert c[1..] == b;
      if a[0] == x {
        SubseqTail(a, b);
      }
    }
  }

  /** A stronger condition keeps a sub-list of what a weaker one keeps. */
  lemma {:induction false} FilterNarrows<T>(xs: seq<T>, p: T -> bool, q: T -> bool)
    requires forall x | x in xs :: q(x) ==> p(x)
    ensures IsSubseq(Filter(xs, q), Filter(xs, p))
  {
    if xs != [] {
      var x := xs[0];
      FilterNarrows(xs[1..], p, q);
      var fq, fp := Filter(xs[1..], q), Filter(xs[1..], p);
      if q(x) {
        assert Filter(xs, q) == [x] + fq;
        assert Filter(xs, p) == [x] + fp;
        assert ([x] + fq)[1..] == fq && ([x] + fp)[1..] == fp;
      } else if p(x) {
        assert Filter(xs, p) == [x] + fp;
        assert Filter(xs, q) == fq;
        SubseqConsRight(fq, fp, x);
      } else {
        assert Filter(xs, p) == fp;
        assert Filter(xs, q) == fq;
      }
    }
  }

  /** A filter every element passes keeps the whole list. */
  lemma {:induction false} FilterKeepsAll<T>(xs: seq<T>, p: T -> bool)
    requires forall x | x in xs :: p(x)
    ensures Filter(xs, p) == xs
  {
    if xs != [] {
      FilterKeepsAll(xs[1..], p);
    }
  }

  /** No value occurs twice. */
  predicate NoDup<T(==)>(xs: seq<T>) {
    forall i, j | 0 <= i < j < |xs| :: xs[i] != xs[j]
  }

  /** A prefix of a list without duplicates has none either. */
  lemma NoDupTake<T>(xs: seq<T>, n: int)
    requires NoDup(xs)
    ensures NoDup(PyTake(xs, n))
  {
    var r := PyTake(xs, n);
    assert forall i | 0 <= i < |r| :: r[i] == xs[i];
  }

  /** Cutting a list to `n` keeps any prefix of length at most `n`. */
  lemma TakeKeepsPrefix<T>(xs: seq<T>, p: seq<T>, n: int)
    requires |p| <= |xs| && xs[..|p|] == p && |p| <= n
    ensures |p| <= |PyTake(xs, n)| && PyTake(xs, n)[..|p|] == p
  {
  }

  /** `counts[k] += 1` on an insertion-ordered `defaultdict(int)`. */
  function Bump<K(==)>(t: seq<Scored<K>>, k: K): (r: seq<Scored<K>>)
    ensures |r| == |t| || |r| == |t| + 1
  {
    if t == [] then [Scored(k, 1)]
    else if t[0].item == k then [Scored(k, t[0].score + 1)] + t[1..]
    else [t[0]] + Bump(t[1..], k)
  }

  /** The counts of a grouping. */
  function Counts<K, T>(gs: seq<Group<K, T>>): (r: seq<Scored<K>>)
    ensures |r| == |gs|
  {
    seq(|gs|, j requires 0 <= j < |gs| => Scored(gs[j].key, |gs[j].members|))
  }

  lemma {:induction false} CountsAddTo<K, T>(gs: seq<Group<K, T>>, k: K, x: T)
    ensures Counts(AddTo(gs, k, x)) == Bump(Counts(gs), k)
    decreases |gs|
  {
    var r := AddTo(gs, k, x);
    if gs == [] {
      assert Counts(r) == [Scored(k, 1)];
    } else {
      CountsCons(gs);
      CountsCons(r);
      if gs[0].key != k {
        CountsAddTo(gs[1..], k, x);
        assert r[1..] == AddTo(gs[1..], k, x);
      } else {
        assert r[1..] == gs[1..];
      }
    }
  }

  lemma CountsCons<K, T>(gs: seq<Group<K, T>>)
    requires gs != []
    ensures Counts(gs) == [Scored(gs[0].key, |gs[0].members|)] + Counts(gs[1..])
  {
    assert Counts(gs)[1..] == Counts(gs[1..]);
  }

  /** Counting one more element is one `Bump` of the tally. */
  lemma TallySnoc<K>(xs: seq<K>, x: K)
    ensures Tally(xs + [x]) == Bump(Tally(xs), x)
  {
    assert (xs + [x])[..|xs|] == xs;
  }

  /** The set of values of a list. */
  function Elements<T>(xs: seq<T>): set<T> {
    set x | x in xs
  }

  /** A list without duplicates has as many values as elements. */
  lemma {:induction false} DistinctCount<T>(xs: seq<T>)
    requires forall i, j | 0 <= i < j < |xs| :: xs[i] != xs[j]
    ensures |Elements(xs)| == |xs|
  {
    if xs != [] {
      var front := xs[..|xs| - 1];
      DistinctCount(front);
      assert Elements(xs) == Elements(front) + {xs[|xs| - 1]};
      assert xs[|xs| - 1] !in Elements(front);
    }
  }

  lemma {:induction false} OccursIn<K>(xs: seq<K>, k: K)
    requires Occurrences(xs, k) >= 1
    ensures k in xs
  {
    if xs[|xs| - 1] != k {
      OccursIn(xs[..|xs| - 1], k);
    }
  }

  /** `len(set(xs))`: the tally has one entry per distinct value. */
  lemma TallyDistinctCount<K>(xs: seq<K>)
    ensures |Tally(xs)| == |Elements(xs)|
  {
    var t := Tally(xs);
    TallyCorrect(xs);
    var items := seq(|t|, j requires 0 <= j < |t| => t[j].item);
    DistinctCount(items);
    forall k | k in Elements(items) ensures k in Elements(xs) {
      var j :| 0 <= j < |t| && items[j] == k;
      OccursIn(xs, k);
    }
    forall k | k in Elements(xs) ensures k in Elements(items) {
      var i :| 0 <= i < |xs| && xs[i] == k;
      var j :| 0 <= j < |t| && t[j].item == xs[i];
      assert items[j] == k;
    }
    assert Elements(items) == Elements(xs);
  }

  /** Filters by two conditions that agree everywhere keep the same elements. */
  lemma {:induction false} FilterExt<T>(xs: seq<T>, p: T -> bool, q: T -> bool)
    requires forall x | x in xs :: p(x) == q(x)
    ensures Filter(xs, p) == Filter(xs, q)
  {
    if xs != [] {
      FilterExt(xs[1..], p, q);
    }
  }
}
