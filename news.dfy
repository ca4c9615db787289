// The balanced retrieval in fetch_news (engine/news.py): the archived items
// are grouped per source, in order of first appearance, and the sources are
// cycled, one item each per round, until 60 items are taken or every source
// is exhausted. The archive read from the database is a parameter.
module News {
  import Sorting

  /** An archived headline; only `source` matters to the interleave. */
  datatype NewsItem = NewsItem(source: string, title: string, summary: string, link: string, time: string)

  /** The number of items the balanced list stops at. */
  const PageSize: nat := 60

  /** No name occurs twice; stated from the end, the way the lists here are built. */
  predicate Distinct(xs: seq<string>)
  {
    xs == [] || (xs[|xs| - 1] !in xs[..|xs| - 1] && Distinct(xs[..|xs| - 1]))
  }

  lemma {:induction false} DistinctPairs(xs: seq<string>, i: nat, j: nat)
    requires Distinct(xs) && i < j < |xs|
    ensures xs[i] != xs[j]
  {
    var init := xs[..|xs| - 1];
    if j == |xs| - 1 {
      assert xs[i] == init[i];
    } else {
      DistinctPairs(init, i, j);
    }
  }

  predicate HasSource(items: seq<NewsItem>, s: string)
  {
    exists i :: 0 <= i < |items| && items[i].source == s
  }

  /** The items of source `s`, in archive order. */
  function Filter(items: seq<NewsItem>, s: string): (r: seq<NewsItem>)
    ensures |r| <= |items|
  {
    if items == [] then []
    else Filter(items[..|items| - 1], s) + (if items[|items| - 1].source == s then [items[|items| - 1]] else [])
  }

  /** The items Filter keeps are items of source `s` from the list, and it keeps one exactly when there is one. */
  lemma {:induction false} FilterFacts(items: seq<NewsItem>, s: string)
    ensures forall i :: 0 <= i < |Filter(items, s)| ==> Filter(items, s)[i].source == s && Filter(items, s)[i] in items
    ensures Filter(items, s) != [] <==> HasSource(items, s)
  {
    if items != [] {
      var init := items[..|items| - 1];
      FilterFacts(init, s);
      assert forall i :: 0 <= i < |init| ==> init[i] == items[i];
      assert items == init + [items[|items| - 1]];
    }
  }

  /** The sources in order of first appearance, each once: the dictionary's key order. */
  function Sources(items: seq<NewsItem>): seq<string>
  {
    if items == [] then []
    else
      var rest := Sources(items[..|items| - 1]);
      var s := items[|items| - 1].source;
      if s in rest then rest else rest + [s]
  }

  /** Every source of the list is listed, once. */
  lemma {:induction false} SourcesFacts(items: seq<NewsItem>)
    ensures forall s :: s in Sources(items) <==> HasSource(items, s)
    ensures Distinct(Sources(items))
  {
    if items != [] {
      var init := items[..|items| - 1];
      var x := items[|items| - 1];
      SourcesFacts(init);
      var rest := Sources(init);
      if x.source !in rest {
        assert (rest + [x.source])[..|rest|] == rest;
      }
      assert forall i :: 0 <= i < |init| ==> init[i] == items[i];
      assert forall s :: HasSource(init, s) ==> HasSource(items, s);
      assert forall s :: HasSource(items, s) ==> HasSource(init, s) || s == x.source;
    }
  }


  /** Per-source queues: a source's name to its items. */
  type Queues = map<string, seq<NewsItem>>

  /** The queue of `s`, empty for a source without one. */
  function Queue(g: Queues, s: string): seq<NewsItem>
  {
    if s in g then g[s] else []
  }

  /** The grouped archive: each source's items, in archive order. */
  function GroupsOf(a: seq<NewsItem>): Queues
  {
    map s | s in Sources(a) :: Filter(a, s)
  }

  /** Every queue holds only items of its own source. */
  predicate Labelled(g: Queues)
  {
    forall t, i :: t in g && 0 <= i < |g[t]| ==> g[t][i].source == t
  }

  /** The sources of `order` whose queue has at least `r` items. */
  function Keep(g: Queues, order: seq<string>, r: nat): seq<string>
  {
    if order == [] then []
    else
      var s := order[|order| - 1];
      Keep(g, order[..|order| - 1], r) + (if |Queue(g, s)| >= r then [s] else [])
  }

  /** Round `r`: the r-th item of every queue of `order` that has one, in `order`'s order. */
  function Round(g: Queues, order: seq<string>, r: nat): seq<NewsItem>
  {
    if order == [] then []
    else
      var s := order[|order| - 1];
      Round(g, order[..|order| - 1], r) + (if |Queue(g, s)| > r then [Queue(g, s)[r]] else [])
  }

  /** Rounds 0 .. n-1, one after the other. */
  function Rounds(g: Queues, order: seq<string>, n: nat): seq<NewsItem>
  {
    if n == 0 then [] else Rounds(g, order, n - 1) + Round(g, order, n - 1)
  }

  function Take(xs: seq<NewsItem>, n: nat): (r: seq<NewsItem>)
    ensures r <= xs && |r| == if |xs| <= n then |xs| else n
  {
    if |xs| <= n then xs else xs[..n]
  }

  /**
   * The balanced list: every round over the archive's sources (no source has
   * more items than the archive, so |a| rounds exhaust them), cut at 60.
   */
  function Interleave(a: seq<NewsItem>): (r: seq<NewsItem>)
    ensures |r| <= PageSize
    ensures a == [] ==> r == []
  {
    Take(Rounds(GroupsOf(a), Sources(a), |a|), PageSize)
  }

  /** `list.remove`: drops the first occurrence of `x`. */
  function Remove(xs: seq<string>, x: string): seq<string>
  {
    if xs == [] then []
    else if xs[0] == x then xs[1..]
    else [xs[0]] + Remove(xs[1..], x)
  }

  // ----- the loops ---------------------------------------------------------------

  /** Group by source: one queue per source, keys in order of first appearance. */
  method GroupBySource(raw: seq<NewsItem>) returns (bySource: Queues, order: seq<string>)
    ensures order == Sources(raw)
    ensures bySource == GroupsOf(raw)
  {
    bySource := map[];
    order := [];
    for i := 0 to |raw|
      invariant order == Sources(raw[..i])
      invariant forall s :: s in bySource <==> s in order
      invariant forall s :: s in bySource ==> bySource[s] == Filter(raw[..i], s)
    {
      var s := raw[i].source;
      assert raw[..i + 1][..i] == raw[..i];
      if s !in bySource {
        SourcesFacts(raw[..i]);
        FilterFacts(raw[..i], s);
        bySource := bySource[s := []];
        order := order + [s];
      }
      bySource := bySource[s := bySource[s] + [raw[i]]];
    }
    assert raw[..|raw|] == raw;
  }

  /** Round robin over the archive's grouping, cut at 60. */
  method BalancedRetrieval(archive: seq<NewsItem>) returns (balanced: seq<NewsItem>)
    ensures balanced == Interleave(archive)
  {
    var bySource, order := GroupBySource(archive);
    SourcesFacts(archive);
    QueuesBounded(archive);
    ghost var r;
    balanced, r := Cycle(bySource, order, bySource, |archive|);
    Finish(bySource, order, |archive|, r, balanced);
  }

  /**
   * The round robin itself: each pass over a copy of the cycle pops one item
   * per source and drops the exhausted ones, until 60 items are taken or the
   * cycle is empty. `bound` bounds every queue's length.
   */
  method Cycle(ghost g: Queues, order: seq<string>, bySource0: Queues, ghost bound: nat)
    returns (balanced: seq<NewsItem>, ghost r: nat)
    requires bySource0 == g && Distinct(order)
    requires forall s :: s in g <==> s in order
    requires forall s :: |Queue(g, s)| <= bound
    ensures balanced == Take(Rounds(g, order, r), PageSize)
    ensures |balanced| < PageSize ==> Keep(g, order, r) == []
  {
    var bySource := bySource0;
    balanced := [];
    var cycle := order;
    r := 0;
    CyclingStart(g, order, bySource);
    while |balanced| < PageSize && cycle != []
      invariant Cycling(g, order, r, balanced, cycle, bySource)
      decreases bound + 1 - r
    {
      LiveBound(g, order, r, cycle, bound);
      balanced, cycle, bySource := Turn(g, order, r, balanced, cycle, bySource);
      r := r + 1;
    }
    CyclingDone(g, order, r, balanced, cycle, bySource);
  }

  /**
   * The round robin's state after r turns: the list is the cut of r rounds
   * and, below the cut, the cycle holds the sources with an r-th item, whose
   * queues have been popped r times.
   */
  ghost predicate Cycling(g: Queues, order: seq<string>, r: nat,
                          balanced: seq<NewsItem>, cycle: seq<string>, bySource: Queues)
  {
    balanced == Take(Rounds(g, order, r), PageSize) &&
    (forall s :: s in bySource <==> s in order) &&
    (|balanced| < PageSize ==> cycle == Keep(g, order, r)) &&
    (|balanced| < PageSize ==> forall s :: s in cycle ==> s in bySource && Popped(g, s, r, bySource[s]))
  }

  lemma CyclingStart(g: Queues, order: seq<string>, bySource: Queues)
    requires bySource == g && forall s :: s in g <==> s in order
    ensures Cycling(g, order, 0, [], order, bySource)
  {
    KeepZero(g, order);
  }

  lemma CyclingDone(g: Queues, order: seq<string>, r: nat,
                    balanced: seq<NewsItem>, cycle: seq<string>, bySource: Queues)
    requires Cycling(g, order, r, balanced, cycle, bySource)
    requires |balanced| >= PageSize || cycle == []
    ensures balanced == Take(Rounds(g, order, r), PageSize)
    ensures |balanced| < PageSize ==> Keep(g, order, r) == []
  {
  }

  /** One turn of the round robin: a pass over the sources still live after r rounds. */
  method Turn(ghost g: Queues, ghost order: seq<string>, ghost r: nat,
              balanced0: seq<NewsItem>, cycle0: seq<string>, bySource0: Queues)
    returns (balanced: seq<NewsItem>, cycle: seq<string>, bySource: Queues)
    requires Distinct(order) && |balanced0| < PageSize
    requires Cycling(g, order, r, balanced0, cycle0, bySource0)
    ensures Cycling(g, order, r + 1, balanced, cycle, bySource)
  {
    KeepDistinct(g, order, r);
    NextRound(g, order, r, balanced0);
    balanced, cycle, bySource := Pass(g, order, r, balanced0, cycle0, bySource0);
  }

  /** The queue of `s` after `r` pops: its items from the r-th on. */
  predicate Popped(g: Queues, s: string, r: nat, q: seq<NewsItem>)
  {
    r <= |Queue(g, s)| && q == Queue(g, s)[r..]
  }

  /** One pass of the inner loop over a copy of the cycle. */
  method Pass(ghost g: Queues, ghost order: seq<string>, ghost r: nat,
              balanced0: seq<NewsItem>, cycle0: seq<string>, bySource0: Queues)
    returns (balanced: seq<NewsItem>, cycle: seq<string>, bySource: Queues)
    requires |balanced0| < PageSize
    requires cycle0 == Keep(g, order, r) && Distinct(cycle0)
    requires forall s :: s in cycle0 ==> s in bySource0 && Popped(g, s, r, bySource0[s])
    ensures balanced == Take(balanced0 + Round(g, order, r), PageSize)
    ensures bySource.Keys == bySource0.Keys
    ensures |balanced| < PageSize ==> cycle == Keep(g, order, r + 1)
    ensures |balanced| < PageSize ==> forall s :: s in cycle ==> s in bySource && Popped(g, s, r + 1, bySource[s])
  {
    balanced, cycle, bySource := balanced0, cycle0, bySource0;
    var snap := cycle0;
    var j := 0;
    ghost var keys := bySource0.Keys;
    PassStart(g, r, snap, balanced0, bySource0);
    while j < |snap| && |balanced| < PageSize
      invariant Visiting(g, r, snap, j, keys, balanced0, balanced, cycle, bySource)
    {
      balanced, cycle, bySource := Visit(g, r, snap, j, keys, balanced0, balanced, cycle, bySource);
      j := j + 1;
    }
    PassEnd(g, order, r, snap, j, keys, balanced0, balanced, cycle, bySource);
  }

  /**
   * The pass after visiting the first j sources of `snap`: their r-th items
   * appended, the exhausted ones dropped from the cycle, the visited queues
   * popped once more.
   */
  ghost predicate Visiting(g: Queues, r: nat, snap: seq<string>, j: nat, keys: set<string>,
                           balanced0: seq<NewsItem>, balanced: seq<NewsItem>, cycle: seq<string>, bySource: Queues)
  {
    j <= |snap| && Distinct(snap) &&
    balanced == balanced0 + Round(g, snap[..j], r) && |balanced| <= PageSize &&
    cycle == Keep(g, snap[..j], r + 1) + snap[j..] &&
    bySource.Keys == keys &&
    QueuesVisited(g, r, snap, j, bySource)
  }

  lemma PassStart(g: Queues, r: nat, snap: seq<string>, balanced0: seq<NewsItem>, bySource: Queues)
    requires |balanced0| < PageSize && Distinct(snap)
    requires forall s :: s in snap ==> s in bySource && Popped(g, s, r, bySource[s])
    ensures Visiting(g, r, snap, 0, bySource.Keys, balanced0, balanced0, snap, bySource)
  {
    assert snap[..0] == [] && snap[0..] == snap;
  }

  /** Visits the j-th source of a pass: pops its queue onto the list, or drops it from the cycle when it is empty. */
  method Visit(ghost g: Queues, ghost r: nat, snap: seq<string>, j: nat, ghost keys: set<string>,
               ghost balanced0: seq<NewsItem>, balanced1: seq<NewsItem>, cycle1: seq<string>, bySource1: Queues)
    returns (balanced: seq<NewsItem>, cycle: seq<string>, bySource: Queues)
    requires j < |snap| && |balanced1| < PageSize
    requires Visiting(g, r, snap, j, keys, balanced0, balanced1, cycle1, bySource1)
    ensures Visiting(g, r, snap, j + 1, keys, balanced0, balanced, cycle, bySource)
  {
    var s := snap[j];
    QueueAhead(g, r, snap, j, bySource1);
    NotBefore(snap, j);
    NotAfter(snap, j);
    RoundStep(g, snap, j, r);
    balanced, cycle, bySource := balanced1, cycle1, bySource1;
    if bySource[s] != [] {
      PopStep(g, s, r, bySource[s]);
      CycleKept(g, snap, j, r, cycle);
      Sorting.Assoc(balanced0, Round(g, snap[..j], r), [bySource[s][0]]);
      balanced := balanced + [bySource[s][0]];
      bySource := bySource[s := bySource[s][1..]];
    } else {
      CycleDropped(g, snap, j, r, cycle);
      cycle := Remove(cycle, s);
      assert Round(g, snap[..j + 1], r) == Round(g, snap[..j], r) + [];
    }
    QueuesStep(g, r, snap, j, bySource1, bySource);
  }

  /** Where the pass stops, the state is the next round's. */
  lemma PassEnd(g: Queues, order: seq<string>, r: nat, snap: seq<string>, j: nat, keys: set<string>,
                balanced0: seq<NewsItem>, balanced: seq<NewsItem>, cycle: seq<string>, bySource: Queues)
    requires snap == Keep(g, order, r)
    requires Visiting(g, r, snap, j, keys, balanced0, balanced, cycle, bySource)
    requires j >= |snap| || |balanced| >= PageSize
    ensures balanced == Take(balanced0 + Round(g, order, r), PageSize)
    ensures bySource.Keys == keys
    ensures |balanced| < PageSize ==> cycle == Keep(g, order, r + 1)
    ensures |balanced| < PageSize ==> forall s :: s in cycle ==> s in bySource && Popped(g, s, r + 1, bySource[s])
  {
    PassEndList(g, order, r, snap, j, balanced0, balanced);
    if |balanced| < PageSize {
      assert snap[..j] == snap && snap[j..] == [];
      PassEndCycle(g, order, r, snap, cycle, bySource);
    }
  }

  /** Equal parts give equal concatenations. */
  lemma AppendCongruent<T>(whole: seq<T>, left: seq<T>, right: seq<T>, left': seq<T>, right': seq<T>, goal: seq<T>)
    requires whole == left + right && left == left' && right == right' && goal == left' + right'
    ensures whole == goal
  {
  }

  /** Where the pass stops, the list holds the round's items up to the cut. */
  lemma PassEndList(g: Queues, order: seq<string>, r: nat, snap: seq<string>, j: nat,
                    balanced0: seq<NewsItem>, balanced: seq<NewsItem>)
    requires snap == Keep(g, order, r) && j <= |snap|
    requires balanced == balanced0 + Round(g, snap[..j], r) && |balanced| <= PageSize
    requires j == |snap| || |balanced| >= PageSize
    ensures balanced == Take(balanced0 + Round(g, order, r), PageSize)
  {
    var head, tail := Round(g, snap[..j], r), Round(g, snap[j..], r);
    assert snap == snap[..j] + snap[j..];
    RoundKeep(g, order, r);
    RoundAppend(g, snap[..j], snap[j..], r);
    Sorting.Assoc(balanced0, head, tail);
    if j == |snap| {
      assert snap[j..] == [];
    }
    PrefixTake(balanced, balanced0 + head + tail);
  }

  /** Where a pass that stays under the cut stops, the cycle is the next round's and its queues are popped once more. */
  lemma PassEndCycle(g: Queues, order: seq<string>, r: nat, snap: seq<string>, cycle: seq<string>, qs: Queues)
    requires snap == Keep(g, order, r)
    requires cycle == Keep(g, snap, r + 1)
    requires QueuesVisited(g, r, snap, |snap|, qs)
    ensures cycle == Keep(g, order, r + 1)
    ensures forall s :: s in cycle ==> s in qs && Popped(g, s, r + 1, qs[s])
  {
    KeepKeep(g, order, r);
    KeepFacts(g, order, r);
    KeepFacts(g, order, r + 1);
    assert snap[..|snap|] == snap;
  }

  /** A source with an r-th item stays in the cycle. */
  lemma CycleKept(g: Queues, snap: seq<string>, j: nat, r: nat, c: seq<string>)
    requires j < |snap| && |Queue(g, snap[j])| > r
    requires c == Keep(g, snap[..j], r + 1) + snap[j..]
    ensures c == Keep(g, snap[..j + 1], r + 1) + snap[j + 1..]
  {
    var s, rest := snap[j], snap[j + 1..];
    var k := Keep(g, snap[..j], r + 1);
    assert snap[j..] == [s] + rest;
    KeepStep(g, snap, j, r + 1);
    Sorting.Assoc(k, [s], rest);
  }

  /** An exhausted source leaves the cycle: `list.remove` takes out its only occurrence. */
  lemma CycleDropped(g: Queues, snap: seq<string>, j: nat, r: nat, c: seq<string>)
    requires j < |snap| && snap[j] !in snap[..j] && |Queue(g, snap[j])| <= r
    requires c == Keep(g, snap[..j], r + 1) + snap[j..]
    ensures Remove(c, snap[j]) == Keep(g, snap[..j + 1], r + 1) + snap[j + 1..]
  {
    var s, rest := snap[j], snap[j + 1..];
    var k := Keep(g, snap[..j], r + 1);
    assert c == k + [s] + rest by {
      assert snap[j..] == [s] + rest;
    }
    assert s !in k by {
      KeepFacts(g, snap[..j], r + 1);
    }
    RemoveAfter(k, s, rest);
    KeepStep(g, snap, j, r + 1);
  }

  /**
   * The queues after visiting the first j sources of a pass: the visited
   * ones that had an r-th item are popped r + 1 times, the others r times.
   */
  ghost predicate QueuesVisited(g: Queues, r: nat, snap: seq<string>, j: nat, qs: Queues)
    requires j <= |snap|
  {
    PoppedAgain(g, r, snap[..j], qs) && PoppedOnce(g, r, snap[j..], qs)
  }

  /** The sources of `names` that had an r-th item are popped r + 1 times. */
  ghost predicate PoppedAgain(g: Queues, r: nat, names: seq<string>, qs: Queues)
  {
    forall t :: t in names && |Queue(g, t)| > r ==> t in qs && Popped(g, t, r + 1, qs[t])
  }

  /** The sources of `names` are popped r times. */
  ghost predicate PoppedOnce(g: Queues, r: nat, names: seq<string>, qs: Queues)
  {
    forall t :: t in names ==> t in qs && Popped(g, t, r, qs[t])
  }

  lemma QueueAhead(g: Queues, r: nat, snap: seq<string>, j: nat, qs: Queues)
    requires j < |snap| && QueuesVisited(g, r, snap, j, qs)
    ensures snap[j] in qs && Popped(g, snap[j], r, qs[snap[j]])
  {
    assert snap[j] in snap[j..];
  }

  /** Popping (or skipping) the j-th source of a pass keeps QueuesVisited. */
  lemma QueuesStep(g: Queues, r: nat, snap: seq<string>, j: nat, qs: Queues, qs': Queues)
    requires j < |snap| && snap[j] !in snap[j + 1..] && QueuesVisited(g, r, snap, j, qs) && snap[j] in qs
    requires qs' == if qs[snap[j]] != [] then qs[snap[j] := qs[snap[j]][1..]] else qs
    ensures QueuesVisited(g, r, snap, j + 1, qs')
  {
    var s := snap[j];
    QueueAhead(g, r, snap, j, qs);
    assert snap[..j + 1] == snap[..j] + [s];
    assert snap[j..] == [s] + snap[j + 1..];
    PoppedAgainStep(g, r, snap[..j], s, qs, qs');
    PoppedOnceStep(g, r, snap[j + 1..], s, qs, qs');
  }

  lemma PoppedAgainStep(g: Queues, r: nat, names: seq<string>, s: string, qs: Queues, qs': Queues)
    requires PoppedAgain(g, r, names, qs) && s in qs && Popped(g, s, r, qs[s])
    requires qs' == if qs[s] != [] then qs[s := qs[s][1..]] else qs
    ensures PoppedAgain(g, r, names + [s], qs')
  {
    if qs[s] != [] {
      PopStep(g, s, r, qs[s]);
    }
  }

  lemma PoppedOnceStep(g: Queues, r: nat, names: seq<string>, s: string, qs: Queues, qs': Queues)
    requires PoppedOnce(g, r, [s] + names, qs) && s !in names
    requires qs' == if qs[s] != [] then qs[s := qs[s][1..]] else qs
    ensures PoppedOnce(g, r, names, qs')
  {
    forall t | t in names
      ensures t in qs' && Popped(g, t, r, qs'[t])
    {
      assert t in [s] + names;
    }
  }

  /** Extending the visited prefix by one source extends the round by that source's r-th item, if any. */
  lemma RoundStep(g: Queues, snap: seq<string>, j: nat, r: nat)
    requires j < |snap|
    ensures Round(g, snap[..j + 1], r) == Round(g, snap[..j], r) +
              (if |Queue(g, snap[j])| > r then [Queue(g, snap[j])[r]] else [])
  {
    assert snap[..j + 1][..j] == snap[..j];
  }

  /** Extending the visited prefix by one source keeps that source when its queue is long enough. */
  lemma KeepStep(g: Queues, snap: seq<string>, j: nat, r: nat)
    requires j < |snap|
    ensures Keep(g, snap[..j + 1], r) == Keep(g, snap[..j], r) + (if |Queue(g, snap[j])| >= r then [snap[j]] else [])
  {
    assert snap[..j + 1][..j] == snap[..j];
  }

  // ----- lemmas the loops use ---------------------------------------------------

  /** A source's queue is its filtered archive, for every name. */
  lemma QueueIsFilter(a: seq<NewsItem>, s: string)
    ensures Queue(GroupsOf(a), s) == Filter(a, s)
  {
    SourcesFacts(a);
    FilterFacts(a, s);
  }

  /** No queue is longer than the archive, and the grouped queues hold only their own source's items. */
  lemma QueuesBounded(a: seq<NewsItem>)
    ensures forall s :: |Queue(GroupsOf(a), s)| <= |a|
    ensures Labelled(GroupsOf(a))
  {
    forall s
      ensures |Queue(GroupsOf(a), s)| <= |a|
    {
      QueueIsFilter(a, s);
    }
    forall t, i | t in GroupsOf(a) && 0 <= i < |GroupsOf(a)[t]|
      ensures GroupsOf(a)[t][i].source == t
    {
      FilterFacts(a, t);
    }
  }

  lemma {:induction false} KeepFacts(g: Queues, order: seq<string>, r: nat)
    ensures forall s :: s in Keep(g, order, r) <==> s in order && |Queue(g, s)| >= r
  {
    if order != [] {
      var init := order[..|order| - 1];
      KeepFacts(g, init, r);
      assert order == init + [order[|order| - 1]];
    }
  }

  lemma {:induction false} KeepZero(g: Queues, order: seq<string>)
    ensures Keep(g, order, 0) == order
  {
    if order != [] {
      KeepZero(g, order[..|order| - 1]);
    }
  }

  lemma {:induction false} KeepDistinct(g: Queues, order: seq<string>, r: nat)
    requires Distinct(order)
    ensures Distinct(Keep(g, order, r))
  {
    if order != [] {
      var init := order[..|order| - 1];
      KeepDistinct(g, init, r);
      KeepFacts(g, init, r);
      var k := Keep(g, init, r);
      var t := order[|order| - 1];
      if |Queue(g, t)| >= r {
        assert Keep(g, order, r) == k + [t];
        assert t !in init;
        assert t !in k;
        assert (k + [t])[..|k + [t]| - 1] == k;
      } else {
        assert Keep(g, order, r) == k;
      }
    }
  }

  lemma NotBefore(snap: seq<string>, j: nat)
    requires Distinct(snap) && j < |snap|
    ensures snap[j] !in snap[..j]
  {
    forall k | 0 <= k < j
      ensures snap[..j][k] != snap[j]
    {
      DistinctPairs(snap, k, j);
    }
  }

  /** Popping a non-empty queue after r pops yields its r-th item and leaves it popped r + 1 times. */
  lemma PopStep(g: Queues, s: string, r: nat, q: seq<NewsItem>)
    requires Popped(g, s, r, q) && q != []
    ensures |Queue(g, s)| > r && q[0] == Queue(g, s)[r] && Popped(g, s, r + 1, q[1..])
  {
  }

  lemma NotAfter(snap: seq<string>, j: nat)
    requires Distinct(snap) && j < |snap|
    ensures snap[j] !in snap[j + 1..]
  {
    forall k | j < k < |snap|
      ensures snap[k] != snap[j]
    {
      DistinctPairs(snap, j, k);
    }
  }

  lemma {:induction false} RemoveAfter(xs: seq<string>, x: string, ys: seq<string>)
    requires x !in xs
    ensures Remove(xs + [x] + ys, x) == xs + ys
  {
    if xs != [] {
      assert (xs + [x] + ys)[1..] == xs[1..] + [x] + ys;
      RemoveAfter(xs[1..], x, ys);
    }
  }

  lemma {:induction false} RoundAppend(g: Queues, xs: seq<string>, ys: seq<string>, r: nat)
    ensures Round(g, xs + ys, r) == Round(g, xs, r) + Round(g, ys, r)
    decreases |ys|
  {
    if ys == [] {
      assert xs + ys == xs;
    } else {
      var yi := ys[..|ys| - 1];
      assert (xs + ys)[..|xs + ys| - 1] == xs + yi;
      RoundAppend(g, xs, yi, r);
    }
  }

  /** A source with fewer than r items contributes nothing to round r: the pass over the live sources is the whole round. */
  lemma {:induction false} RoundKeep(g: Queues, order: seq<string>, r: nat)
    ensures Round(g, Keep(g, order, r), r) == Round(g, order, r)
  {
    if order != [] {
      var init := order[..|order| - 1];
      var s := order[|order| - 1];
      RoundKeep(g, init, r);
      var k := Keep(g, init, r);
      if |Queue(g, s)| >= r {
        assert (k + [s])[..|k + [s]| - 1] == k;
        assert Keep(g, order, r) == k + [s];
      } else {
        assert Keep(g, order, r) == k;
      }
    }
  }

  lemma {:induction false} KeepKeep(g: Queues, order: seq<string>, r: nat)
    ensures Keep(g, Keep(g, order, r), r + 1) == Keep(g, order, r + 1)
  {
    if order != [] {
      var init := order[..|order| - 1];
      var s := order[|order| - 1];
      KeepKeep(g, init, r);
      var k := Keep(g, init, r);
      if |Queue(g, s)| >= r {
        assert (k + [s])[..|k + [s]| - 1] == k;
        assert Keep(g, order, r) == k + [s];
      } else {
        assert Keep(g, order, r) == k;
      }
    }
  }

  /** A source is still live after r rounds only if r is within every queue's bound. */
  lemma LiveBound(g: Queues, order: seq<string>, r: nat, cycle: seq<string>, bound: nat)
    requires forall s :: |Queue(g, s)| <= bound
    requires cycle == Keep(g, order, r) && cycle != []
    ensures r <= bound
  {
    KeepFacts(g, order, r);
    assert cycle[0] in cycle;
  }

  /** Below the cut, the list is all of the first r rounds, so adding round r gives the cut of r + 1 rounds. */
  lemma NextRound(g: Queues, order: seq<string>, r: nat, balanced: seq<NewsItem>)
    requires |balanced| < PageSize && balanced == Take(Rounds(g, order, r), PageSize)
    ensures Take(balanced + Round(g, order, r), PageSize) == Take(Rounds(g, order, r + 1), PageSize)
  {
    assert balanced == Rounds(g, order, r);
  }

  /** A prefix of `whole` that is all of it or already 60 long is its cut. */
  lemma PrefixTake(b: seq<NewsItem>, whole: seq<NewsItem>)
    requires |b| <= PageSize && b <= whole
    requires |b| < PageSize ==> b == whole
    ensures b == Take(whole, PageSize)
  {
  }

  lemma {:induction false} RoundsPrefix(g: Queues, order: seq<string>, m: nat, n: nat)
    requires m <= n
    ensures Rounds(g, order, m) <= Rounds(g, order, n)
    decreases n
  {
    if m < n {
      RoundsPrefix(g, order, m, n - 1);
    }
  }

  lemma {:induction false} RoundEmpty(g: Queues, order: seq<string>, r: nat)
    requires forall s :: s in order ==> |Queue(g, s)| <= r
    ensures Round(g, order, r) == []
  {
    if order != [] {
      RoundEmpty(g, order[..|order| - 1], r);
    }
  }

  /** Once every queue is exhausted, further rounds add nothing. */
  lemma {:induction false} RoundsStable(g: Queues, order: seq<string>, m: nat, n: nat)
    requires m <= n
    requires forall s :: s in order ==> |Queue(g, s)| <= m
    ensures Rounds(g, order, n) == Rounds(g, order, m)
    decreases n
  {
    if m < n {
      assert Rounds(g, order, n - 1) == Rounds(g, order, m) by {
        RoundsStable(g, order, m, n - 1);
      }
      assert Round(g, order, n - 1) == [] by {
        RoundEmpty(g, order, n - 1);
      }
      assert Rounds(g, order, n) == Rounds(g, order, n - 1) + Round(g, order, n - 1);
    }
  }

  /** The state the round robin ends in is the cut of all `bound` rounds. */
  lemma Finish(g: Queues, order: seq<string>, bound: nat, r: nat, balanced: seq<NewsItem>)
    requires forall s :: |Queue(g, s)| <= bound
    requires balanced == Take(Rounds(g, order, r), PageSize)
    requires |balanced| < PageSize ==> Keep(g, order, r) == []
    ensures balanced == Take(Rounds(g, order, bound), PageSize)
  {
    if |balanced| >= PageSize {
      if r <= bound {
        RoundsPrefix(g, order, r, bound);
      } else {
        RoundsStable(g, order, bound, r);
      }
    } else {
      var m := if r <= bound then r else bound;
      KeepFacts(g, order, r);
      assert forall s :: s in order ==> |Queue(g, s)| <= m by {
        forall s | s in order
          ensures |Queue(g, s)| <= m
        {
          assert s !in Keep(g, order, r);
        }
      }
      RoundsStable(g, order, m, r);
      RoundsStable(g, order, m, bound);
    }
  }

  // ----- properties ----------------------------------------------------------------

  /** Σ over `order` of min(|queue of s|, n). */
  function SumMin(g: Queues, order: seq<string>, n: nat): nat
  {
    if order == [] then 0
    else
      var q := Queue(g, order[|order| - 1]);
      SumMin(g, order[..|order| - 1], n) + (if |q| <= n then |q| else n)
  }

  /** Σ over `order` of |items of s|. */
  function SumLen(a: seq<NewsItem>, order: seq<string>): nat
  {
    if order == [] then 0
    else SumLen(a, order[..|order| - 1]) + |Filter(a, order[|order| - 1])|
  }

  lemma {:induction false} SumMinStep(g: Queues, order: seq<string>, n: nat)
    ensures SumMin(g, order, n + 1) == SumMin(g, order, n) + |Round(g, order, n)|
  {
    if order != [] {
      SumMinStep(g, order[..|order| - 1], n);
    }
  }

  lemma {:induction false} SumMinZero(g: Queues, order: seq<string>)
    ensures SumMin(g, order, 0) == 0
  {
    if order != [] {
      SumMinZero(g, order[..|order| - 1]);
    }
  }

  lemma {:induction false} RoundsLength(g: Queues, order: seq<string>, n: nat)
    ensures |Rounds(g, order, n)| == SumMin(g, order, n)
  {
    if n == 0 {
      SumMinZero(g, order);
    } else {
      RoundsLength(g, order, n - 1);
      SumMinStep(g, order, n - 1);
    }
  }

  /** With every queue of the archive's grouping at most n long, the capped sum is the plain sum. */
  lemma {:induction false} SumMinAll(a: seq<NewsItem>, order: seq<string>)
    ensures SumMin(GroupsOf(a), order, |a|) == SumLen(a, order)
  {
    if order != [] {
      SumMinAll(a, order[..|order| - 1]);
      QueueIsFilter(a, order[|order| - 1]);
    }
  }

  /** Adding one item to the archive adds one to the sum exactly when its source is listed (once). */
  lemma {:induction false} SumLenSnoc(a: seq<NewsItem>, x: NewsItem, order: seq<string>)
    requires Distinct(order)
    ensures SumLen(a + [x], order) == SumLen(a, order) + (if x.source in order then 1 else 0)
  {
    if order != [] {
      var init := order[..|order| - 1];
      var s := order[|order| - 1];
      assert (a + [x])[..|a + [x]| - 1] == a;
      assert order == init + [s];
      SumLenSnoc(a, x, init);
    }
  }

  /** Every archive item belongs to exactly one listed source. */
  lemma {:induction false} SourcesCover(a: seq<NewsItem>)
    ensures SumLen(a, Sources(a)) == |a|
  {
    if a != [] {
      var init := a[..|a| - 1];
      var x := a[|a| - 1];
      assert a == init + [x];
      SourcesCover(init);
      var rest := Sources(init);
      SourcesFacts(init);
      SumLenSnoc(init, x, rest);
      if x.source !in rest {
        FilterFacts(init, x.source);
        assert Filter(init, x.source) == [];
        assert (rest + [x.source])[..|rest|] == rest;
      }
    }
  }

  /** The balanced list holds min(60, |archive|) items: nothing is lost before the cut. */
  lemma InterleaveLength(a: seq<NewsItem>)
    ensures |Interleave(a)| == if |a| <= PageSize then |a| else PageSize
  {
    var order := Sources(a);
    RoundsLength(GroupsOf(a), order, |a|);
    SumMinAll(a, order);
    SourcesCover(a);
  }

  lemma {:induction false} FilterAppend(xs: seq<NewsItem>, ys: seq<NewsItem>, s: string)
    ensures Filter(xs + ys, s) == Filter(xs, s) + Filter(ys, s)
    decreases |ys|
  {
    if ys == [] {
      assert xs + ys == xs;
    } else {
      var yi := ys[..|ys| - 1];
      assert (xs + ys)[..|xs + ys| - 1] == xs + yi;
      FilterAppend(xs, yi, s);
    }
  }

  /** Round r holds at most the r-th item of source s, and only when s is listed. */
  lemma {:induction false} FilterRound(g: Queues, order: seq<string>, r: nat, s: string)
    requires Distinct(order) && Labelled(g)
    ensures Filter(Round(g, order, r), s) ==
              if s in order && |Queue(g, s)| > r then [Queue(g, s)[r]] else []
  {
    if order != [] {
      var init, t := order[..|order| - 1], order[|order| - 1];
      var head := Round(g, init, r);
      var tail: seq<NewsItem> := if |Queue(g, t)| > r then [Queue(g, t)[r]] else [];
      var q := Queue(g, s);
      var a: seq<NewsItem> := if s in init && |q| > r then [q[r]] else [];
      var b: seq<NewsItem> := if t == s && |q| > r then [q[r]] else [];
      assert Filter(head, s) == a by {
        FilterRound(g, init, r, s);
      }
      assert Filter(tail, s) == b by {
        if |Queue(g, t)| > r {
          assert tail[..0] == [];
        }
      }
      FilterAppend(head, tail, s);
      assert (if s in order && |q| > r then [q[r]] else []) == a + b by {
        assert order == init + [t];
        assert s == t ==> s !in init;
      }
      AppendCongruent(Filter(head + tail, s), Filter(head, s), Filter(tail, s), a, b,
                      if s in order && |q| > r then [q[r]] else []);
    }
  }

  /** When `order` names every source, round r gives each source's r-th item, if any. */
  lemma FilterRoundCovered(g: Queues, order: seq<string>, r: nat, s: string)
    requires Distinct(order) && Labelled(g)
    requires forall t :: t in g ==> t in order
    ensures Filter(Round(g, order, r), s) == if |Queue(g, s)| > r then [Queue(g, s)[r]] else []
  {
    FilterRound(g, order, r, s);
    if s !in order {
      assert s !in g;
    }
  }

  /** After n rounds, source s has given exactly its first n items, in order. */
  lemma FilterRounds(g: Queues, order: seq<string>, n: nat, s: string)
    requires Distinct(order) && Labelled(g)
    requires forall t :: t in g ==> t in order
    ensures Filter(Rounds(g, order, n), s) == Take(Queue(g, s), n)
  {
    forall r: nat
      ensures Filter(Round(g, order, r), s) == Nth(Queue(g, s), r)
    {
      FilterRoundCovered(g, order, r, s);
    }
    RoundsGive(g, order, n, s);
  }

  /** The r-th item of a queue as a list of at most one item. */
  function Nth(q: seq<NewsItem>, r: nat): (x: seq<NewsItem>)
    ensures |x| <= 1
  {
    if |q| > r then [q[r]] else []
  }

  /** If every round gives one item of s, n rounds give its first n. */
  lemma {:induction false} RoundsGive(g: Queues, order: seq<string>, n: nat, s: string)
    requires forall r: nat :: Filter(Round(g, order, r), s) == Nth(Queue(g, s), r)
    ensures Filter(Rounds(g, order, n), s) == Take(Queue(g, s), n)
  {
    var q := Queue(g, s);
    if n > 0 {
      var prev, cur := Rounds(g, order, n - 1), Round(g, order, n - 1);
      assert Filter(prev, s) == Take(q, n - 1) by {
        RoundsGive(g, order, n - 1, s);
      }
      FilterRoundsStep(prev, cur, q, n, s);
    } else {
      assert Take(q, 0) == [];
    }
  }

  /** One more round adds the next item of the source, if it has one. */
  lemma FilterRoundsStep(prev: seq<NewsItem>, cur: seq<NewsItem>, q: seq<NewsItem>, n: nat, s: string)
    requires n > 0
    requires Filter(prev, s) == Take(q, n - 1)
    requires Filter(cur, s) == Nth(q, n - 1)
    ensures Filter(prev + cur, s) == Take(q, n)
  {
    FilterAppend(prev, cur, s);
    TakeStep(q, n);
  }

  lemma TakeStep(q: seq<NewsItem>, n: nat)
    requires n > 0
    ensures Take(q, n) == Take(q, n - 1) + Nth(q, n - 1)
  {
    if |q| > n - 1 {
      assert q[..n] == q[..n - 1] + [q[n - 1]];
    }
  }

  /** Within each source, the balanced list keeps archive order and takes a prefix of that source's items. */
  lemma PerSourceOrder(a: seq<NewsItem>, s: string)
    ensures Filter(Interleave(a), s) <= Filter(a, s)
  {
    var g, order := GroupsOf(a), Sources(a);
    var all := Rounds(g, order, |a|);
    assert Filter(all, s) == Filter(a, s) by {
      SourcesFacts(a);
      QueuesBounded(a);
      QueueIsFilter(a, s);
      FilterRounds(g, order, |a|, s);
      assert Take(Filter(a, s), |a|) == Filter(a, s);
    }
    FilterTake(all, PageSize, s);
  }

  /** Cutting a list keeps a prefix of each source's items. */
  lemma FilterTake(xs: seq<NewsItem>, n: nat, s: string)
    ensures Filter(Take(xs, n), s) <= Filter(xs, s)
  {
    var cut := Take(xs, n);
    assert xs == cut + xs[|cut|..];
    FilterAppend(cut, xs[|cut|..], s);
  }

  lemma {:induction false} FilterCount(xs: seq<NewsItem>, x: NewsItem)
    ensures multiset(Filter(xs, x.source))[x] == multiset(xs)[x]
  {
    if xs != [] {
      var init := xs[..|xs| - 1];
      assert xs == init + [xs[|xs| - 1]];
      FilterCount(init, x);
    }
  }

  /** Every item of the balanced list comes from the archive, and none is taken more often than it is archived. */
  lemma TakenAtMostOnce(a: seq<NewsItem>, x: NewsItem)
    ensures multiset(Interleave(a))[x] <= multiset(a)[x]
    ensures x in Interleave(a) ==> x in a
  {
    var out := Interleave(a);
    var f := Filter(a, x.source);
    PerSourceOrder(a, x.source);
    FilterCount(out, x);
    FilterCount(a, x);
    var p := Filter(out, x.source);
    assert f == p + f[|p|..];
  }

  lemma {:induction false} FirstRoundAll(g: Queues, order: seq<string>)
    requires forall s :: s in order ==> Queue(g, s) != []
    ensures |Round(g, order, 0)| == |order|
    ensures forall i :: 0 <= i < |order| ==> Round(g, order, 0)[i] == Queue(g, order[i])[0]
  {
    if order != [] {
      var init := order[..|order| - 1];
      assert forall s :: s in init ==> s in order;
      FirstRoundAll(g, init);
    }
  }

  /** With every listed queue non-empty, the i-th item of the cut is the i-th source's first item. */
  lemma FirstRoundCut(g: Queues, order: seq<string>, n: nat, i: nat)
    requires forall s :: s in order ==> Queue(g, s) != []
    requires 0 < n && i < |order| && i < PageSize
    ensures i < |Take(Rounds(g, order, n), PageSize)|
    ensures Take(Rounds(g, order, n), PageSize)[i] == Queue(g, order[i])[0]
  {
    FirstRoundAll(g, order);
    RoundsPrefix(g, order, 1, n);
    var cut := Take(Rounds(g, order, n), PageSize);
  }

  /** The first round takes each source's first archived item, sources in order of first appearance. */
  lemma FirstRound(a: seq<NewsItem>, i: nat)
    requires i < |Sources(a)| && i < PageSize
    ensures Filter(a, Sources(a)[i]) != []
    ensures i < |Interleave(a)| && Interleave(a)[i] == Filter(a, Sources(a)[i])[0]
  {
    var g := GroupsOf(a);
    var order := Sources(a);
    SourcesFacts(a);
    forall s | s in order
      ensures Queue(g, s) != []
    {
      FilterFacts(a, s);
      QueueIsFilter(a, s);
    }
    QueueIsFilter(a, order[i]);
    assert a != [];
    FirstRoundCut(g, order, |a|, i);
  }
}
