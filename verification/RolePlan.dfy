/**
 Role allocation for the free nodes of a worker pool: samplers first, then evaluators, for the
 largest number of active runs whose bundles are complete.
 */
module RolePlan {
  import opened Basics
  import opened Roles

  type Kind = Node -> bool

  /** The position of the node to take next. */
  type Chooser = seq<Node> -> Option<nat>

  function Can(requirements: Requirements): Kind {
    (node: Node) => Satisfies(node.capabilities, requirements)
  }

  function Both(a: Kind, b: Kind): Kind {
    (node: Node) => a(node) && b(node)
  }

  function Only(a: Kind, b: Kind): Kind {
    (node: Node) => a(node) && !b(node)
  }

  function Best(requirements: Requirements, other: Option<Requirements>): Chooser {
    (nodes: seq<Node>) => Least(Keys(nodes, requirements, other))
  }

  // Counting

  function Number(nodes: seq<Node>, kind: Kind): nat {
    if nodes == [] then 0 else Number(nodes[1..], kind) + if kind(nodes[0]) then 1 else 0
  }

  function Without(nodes: seq<Node>, i: nat): seq<Node>
    requires i < |nodes|
  {
    nodes[..i] + nodes[i + 1..]
  }

  lemma {:induction false} NumberWithout(nodes: seq<Node>, i: nat, kind: Kind)
    requires i < |nodes|
    ensures Number(nodes, kind) == Number(Without(nodes, i), kind) + if kind(nodes[i]) then 1 else 0
  {
    if i == 0 {
      assert Without(nodes, 0) == nodes[1..];
    } else {
      assert Without(nodes, i)[1..] == Without(nodes[1..], i - 1);
      NumberWithout(nodes[1..], i - 1, kind);
    }
  }

  lemma WithoutMultiset(nodes: seq<Node>, i: nat)
    requires i < |nodes|
    ensures multiset(nodes) == multiset(Without(nodes, i)) + multiset{nodes[i]}
  {
    assert nodes == nodes[..i] + [nodes[i]] + nodes[i + 1..];
  }

  lemma {:induction false} NumberZero(nodes: seq<Node>, kind: Kind)
    ensures Number(nodes, kind) == 0 <==> forall i :: 0 <= i < |nodes| ==> !kind(nodes[i])
  {
    if nodes != [] {
      NumberZero(nodes[1..], kind);
      assert forall i :: 0 < i < |nodes| ==> nodes[i] == nodes[1..][i - 1];
    }
  }

  lemma {:induction false} NumberIncluded(part: seq<Node>, nodes: seq<Node>, kind: Kind)
    requires multiset(part) <= multiset(nodes)
    ensures Number(part, kind) <= Number(nodes, kind)
  {
    if part != [] {
      assert part == [part[0]] + part[1..];
      assert multiset(part) == multiset{part[0]} + multiset(part[1..]);
      assert part[0] in multiset(part) && part[0] in multiset(nodes);
      var i :| 0 <= i < |nodes| && nodes[i] == part[0];
      WithoutMultiset(nodes, i);
      assert multiset(part) - multiset{part[0]} == multiset(part[1..]);
      NumberIncluded(part[1..], Without(nodes, i), kind);
      NumberWithout(nodes, i, kind);
    }
  }

  lemma {:induction false} NumberAppend(p: seq<Node>, q: seq<Node>, kind: Kind)
    ensures Number(p + q, kind) == Number(p, kind) + Number(q, kind)
  {
    if p == [] {
      assert p + q == q;
    } else {
      assert (p + q)[1..] == p[1..] + q;
      NumberAppend(p[1..], q, kind);
    }
  }

  lemma {:induction false} NumberSplits(nodes: seq<Node>, a: Kind, b: Kind)
    requires forall i :: 0 <= i < |nodes| ==> a(nodes[i])
    ensures |nodes| == Number(nodes, Both(a, b)) + Number(nodes, Only(a, b))
    ensures |nodes| == Number(nodes, Both(b, a)) + Number(nodes, Only(a, b))
  {
    if nodes != [] {
      NumberSplits(nodes[1..], a, b);
    }
  }

  // Taking nodes one by one

  ghost predicate Chooses(best: Chooser, can: Kind) {
    forall nodes :: ChoosesFrom(nodes, Next(nodes, best), can)
  }

  ghost predicate ChoosesFrom(nodes: seq<Node>, next: Option<nat>, can: Kind)
    requires next.Some? ==> next.value < |nodes|
  {
    match next
    case Some(i) => can(nodes[i])
    case None => forall i :: 0 <= i < |nodes| ==> !can(nodes[i])
  }

  /** While a node that can do nothing else is left, one of those is chosen. */
  ghost predicate Spares(best: Chooser, can: Kind, other: Kind) {
    forall nodes :: Next(nodes, best).Some? && Number(nodes, Only(can, other)) > 0 ==>
      !other(nodes[Next(nodes, best).value])
  }

  /** The position chosen, if it is one. */
  function Next(nodes: seq<Node>, best: Chooser): (next: Option<nat>)
    ensures next.Some? ==> next.value < |nodes|
  {
    var next := best(nodes);
    if next.Some? && next.value < |nodes| then next else None
  }

  /** The nodes taken, in order, and those left. */
  function Take(nodes: seq<Node>, best: Chooser, limit: nat): (seq<Node>, seq<Node>)
    decreases limit
  {
    var next := Next(nodes, best);
    if limit == 0 || next.None? then ([], nodes) else Put(nodes[next.value], Take(Without(nodes, next.value), best, limit - 1))
  }

  function Put(node: Node, more: (seq<Node>, seq<Node>)): (seq<Node>, seq<Node>) {
    ([node] + more.0, more.1)
  }

  /** One more round on what is left. */
  function Again(taken: seq<Node>, rest: seq<Node>, best: Chooser): (seq<Node>, seq<Node>) {
    var next := Next(rest, best);
    if next.None? then (taken, rest) else (taken + [rest[next.value]], Without(rest, next.value))
  }

  lemma {:induction false} TakeOneMore(nodes: seq<Node>, best: Chooser, limit: nat)
    requires |Take(nodes, best, limit).0| == limit
    ensures Take(nodes, best, limit + 1) == Again(Take(nodes, best, limit).0, Take(nodes, best, limit).1, best)
    decreases limit
  {
    if limit == 0 {
      assert forall x: Node :: [x] + [] == [] + [x];
    } else {
      var i := Next(nodes, best).value;
      TakeOneMore(Without(nodes, i), best, limit - 1);
      var (taken, rest) := Take(Without(nodes, i), best, limit - 1);
      assert forall x: Node :: [nodes[i]] + (taken + [x]) == [nodes[i]] + taken + [x];
    }
  }

  lemma {:induction false} TakeNoMore(nodes: seq<Node>, best: Chooser, limit: nat, more: nat)
    requires |Take(nodes, best, limit).0| == limit <= more && Next(Take(nodes, best, limit).1, best).None?
    ensures Take(nodes, best, more) == Take(nodes, best, limit)
    decreases limit
  {
    if limit > 0 {
      TakeNoMore(Without(nodes, Next(nodes, best).value), best, limit - 1, more - 1);
    }
  }

  lemma BestIsLeast(nodes: seq<Node>, requirements: Requirements, other: Option<Requirements>)
    ensures Next(nodes, Best(requirements, other)) == Least(Keys(nodes, requirements, other))
  {}

  method TakeBest(nodes: seq<Node>, requirements: Requirements, other: Option<Requirements>, limit: nat)
    returns (taken: seq<Node>, rest: seq<Node>)
    ensures (taken, rest) == Take(nodes, Best(requirements, other), limit)
  {
    ghost var best := Best(requirements, other);
    taken, rest := [], nodes;
    while |taken| < limit
      invariant |taken| <= limit && (taken, rest) == Take(nodes, best, |taken|)
    {
      var next := FirstLeast(Keys(rest, requirements, other));
      BestIsLeast(rest, requirements, other);
      if next.None? {
        TakeNoMore(nodes, best, |taken|, limit);
        return;
      }
      TakeOneMore(nodes, best, |taken|);
      taken, rest := taken + [rest[next.value]], Without(rest, next.value);
    }
  }

  /** The nodes taken come out of the nodes one by one. */
  ghost predicate Parts(nodes: seq<Node>, taken: seq<Node>, rest: seq<Node>)
    decreases |taken|
  {
    if taken == [] then nodes == rest
    else exists i: nat :: i < |nodes| && nodes[i] == taken[0] && Parts(Without(nodes, i), taken[1..], rest)
  }

  lemma PutParts(nodes: seq<Node>, i: nat, taken: seq<Node>, rest: seq<Node>)
    requires i < |nodes| && Parts(Without(nodes, i), taken, rest)
    ensures Parts(nodes, [nodes[i]] + taken, rest)
  {
    assert ([nodes[i]] + taken)[1..] == taken;
  }

  /** Putting back the first node taken. */
  lemma PutBackMultiset(nodes: seq<Node>, i: nat, taken: seq<Node>, rest: seq<Node>)
    requires i < |nodes| && taken != [] && nodes[i] == taken[0]
    requires multiset(Without(nodes, i)) == multiset(taken[1..]) + multiset(rest)
    ensures multiset(nodes) == multiset(taken) + multiset(rest)
  {
    WithoutMultiset(nodes, i);
    assert taken == [taken[0]] + taken[1..];
    assert multiset(taken) == multiset{taken[0]} + multiset(taken[1..]);
  }

  lemma {:induction false} PartsMultiset(nodes: seq<Node>, taken: seq<Node>, rest: seq<Node>)
    requires Parts(nodes, taken, rest)
    ensures multiset(nodes) == multiset(taken) + multiset(rest)
    decreases |taken|
  {
    if taken != [] {
      var i: nat :| i < |nodes| && nodes[i] == taken[0] && Parts(Without(nodes, i), taken[1..], rest);
      PartsMultiset(Without(nodes, i), taken[1..], rest);
      PutBackMultiset(nodes, i, taken, rest);
    }
  }

  /** What is taken is disjoint from what is left. */
  lemma {:induction false} TakeSplits(nodes: seq<Node>, best: Chooser, limit: nat)
    ensures Parts(nodes, Take(nodes, best, limit).0, Take(nodes, best, limit).1)
    ensures |Take(nodes, best, limit).0| <= limit
    decreases limit
  {
    var next := Next(nodes, best);
    if limit > 0 && next.Some? {
      var (taken, rest) := Take(Without(nodes, next.value), best, limit - 1);
      TakeSplits(Without(nodes, next.value), best, limit - 1);
      PutParts(nodes, next.value, taken, rest);
    }
  }

  lemma {:induction false} TakeIsSound(nodes: seq<Node>, best: Chooser, can: Kind, limit: nat)
    requires Chooses(best, can)
    ensures forall i :: 0 <= i < |Take(nodes, best, limit).0| ==> can(Take(nodes, best, limit).0[i])
    decreases limit
  {
    var next := Next(nodes, best);
    if limit > 0 && next.Some? {
      assert ChoosesFrom(nodes, next, can);
      TakeIsSound(Without(nodes, next.value), best, can, limit - 1);
    }
  }

  function Min(a: nat, b: nat): nat {
    if a < b then a else b
  }

  lemma NoneLeft(nodes: seq<Node>, can: Kind, other: Kind)
    requires forall i :: 0 <= i < |nodes| ==> !can(nodes[i])
    ensures Number(nodes, Only(can, other)) == Number(nodes, Both(can, other)) == Number(nodes, Both(other, can)) == 0
  {
    NumberZero(nodes, Only(can, other));
    NumberZero(nodes, Both(can, other));
    NumberZero(nodes, Both(other, can));
  }

  lemma NumberSymmetric(nodes: seq<Node>, a: Kind, b: Kind)
    ensures Number(nodes, Both(a, b)) == Number(nodes, Both(b, a))
  {
    if nodes != [] {
      NumberSymmetric(nodes[1..], a, b);
    }
  }

  lemma NoNextNoneLeft(nodes: seq<Node>, best: Chooser, can: Kind, other: Kind)
    requires Chooses(best, can) && Next(nodes, best).None?
    ensures Number(nodes, Only(can, other)) == Number(nodes, Both(can, other)) == 0
  {
    assert ChoosesFrom(nodes, Next(nodes, best), can);
    NoneLeft(nodes, can, other);
  }

  lemma NextNumbers(nodes: seq<Node>, best: Chooser, can: Kind, other: Kind)
    requires Chooses(best, can) && Next(nodes, best).Some?
    ensures var i := Next(nodes, best).value;
      var rest := Without(nodes, i);
      && Number(nodes, Both(can, other)) == Number(rest, Both(can, other)) + (if other(nodes[i]) then 1 else 0)
      && Number(nodes, Only(can, other)) == Number(rest, Only(can, other)) + (if other(nodes[i]) then 0 else 1)
      && Number(nodes, Only(other, can)) == Number(rest, Only(other, can))
  {
    var i := Next(nodes, best).value;
    assert ChoosesFrom(nodes, Next(nodes, best), can);
    NumberWithout(nodes, i, Both(can, other));
    NumberWithout(nodes, i, Only(can, other));
    NumberWithout(nodes, i, Only(other, can));
  }

  lemma {:induction false} TakeTakesAll(nodes: seq<Node>, best: Chooser, can: Kind, other: Kind, limit: nat)
    requires Chooses(best, can)
    ensures |Take(nodes, best, limit).0| == Min(limit, Number(nodes, Both(can, other)) + Number(nodes, Only(can, other)))
    decreases limit
  {
    var next := Next(nodes, best);
    if next.None? {
      NoNextNoneLeft(nodes, best, can, other);
    } else if limit > 0 {
      NextNumbers(nodes, best, can, other);
      TakeTakesAll(Without(nodes, next.value), best, can, other, limit - 1);
    }
  }

  /** Nodes that can only do the other job are not touched. */
  lemma {:induction false} TakeLeavesOthers(nodes: seq<Node>, best: Chooser, can: Kind, other: Kind, limit: nat)
    requires Chooses(best, can)
    ensures Number(Take(nodes, best, limit).1, Only(other, can)) == Number(nodes, Only(other, can))
    decreases limit
  {
    var next := Next(nodes, best);
    if limit > 0 && next.Some? {
      NextNumbers(nodes, best, can, other);
      TakeLeavesOthers(Without(nodes, next.value), best, can, other, limit - 1);
    }
  }

  /** Nodes that can do nothing else are used up before any that can. */
  lemma {:induction false} TakeSparesOthers(nodes: seq<Node>, best: Chooser, can: Kind, other: Kind, limit: nat)
    requires Chooses(best, can) && Spares(best, can, other)
    ensures var (taken, rest) := Take(nodes, best, limit);
      Number(rest, Both(can, other)) ==
        Number(nodes, Both(can, other)) - (|taken| - Min(|taken|, Number(nodes, Only(can, other))))
    decreases limit
  {
    var next := Next(nodes, best);
    if limit > 0 && next.Some? {
      NextNumbers(nodes, best, can, other);
      TakeSparesOthers(Without(nodes, next.value), best, can, other, limit - 1);
    }
  }

  // The two choosers

  lemma BestChooses(requirements: Requirements, other: Option<Requirements>)
    ensures Chooses(Best(requirements, other), Can(requirements))
  {
    forall nodes ensures ChoosesFrom(nodes, Next(nodes, Best(requirements, other)), Can(requirements)) {
      var keys := Keys(nodes, requirements, other);
      LeastIsFirst(keys);
      assert forall i :: 0 <= i < |nodes| ==> keys[i] == KeyOf(nodes[i], requirements, other);
    }
  }

  lemma BestSpares(requirements: Requirements, other: Requirements)
    ensures Spares(Best(requirements, Some(other)), Can(requirements), Can(other))
  {
    var best, only := Best(requirements, Some(other)), Only(Can(requirements), Can(other));
    forall nodes | Next(nodes, best).Some? && Number(nodes, only) > 0
      ensures !Can(other)(nodes[Next(nodes, best).value])
    {
      NumberZero(nodes, only);
      var i :| 0 <= i < |nodes| && only(nodes[i]);
      var keys := Keys(nodes, requirements, Some(other));
      LeastIsFirst(keys);
      assert !KeyBefore(keys[i].value, keys[Least(keys).value].value);
    }
  }

  // Plans

  function SaturatingAdd(a: nat, b: nat): nat {
    Min(a + b, USIZE_MAX)
  }

  function SaturatingMul(a: nat, b: nat): nat {
    Min(a * b, USIZE_MAX)
  }

  datatype Pool = Pool(
    free: seq<Node>,
    sampler: Requirements,
    evaluator: Requirements,
    // Samplers and evaluators an operator has already assigned.
    samplers: nat,
    evaluators: nat,
    maxSamplers: nat,
    minEvaluators: nat,
    evaluatorLimit: nat)

  /** Disjoint free nodes that can do the jobs they are given. */
  ghost predicate Choice(p: Pool, samplers: seq<Node>, evaluators: seq<Node>) {
    && multiset(samplers + evaluators) <= multiset(p.free)
    && (forall i :: 0 <= i < |samplers| ==> Can(p.sampler)(samplers[i]))
    && (forall i :: 0 <= i < |evaluators| ==> Can(p.evaluator)(evaluators[i]))
  }

  /** A choice completes the bundles of `active` runs. */
  ghost predicate Completes(p: Pool, active: nat, samplers: seq<Node>, evaluators: seq<Node>) {
    && Choice(p, samplers, evaluators) && |evaluators| <= p.evaluatorLimit
    && p.samplers + |samplers| >= active
    && SaturatingAdd(p.evaluators, |evaluators|) >= SaturatingMul(active, p.minEvaluators)
  }

  /** No choice with that many samplers has room for more evaluators. */
  lemma ChoiceBound(free: seq<Node>, s: Kind, e: Kind, samplers: seq<Node>, evaluators: seq<Node>)
    requires multiset(samplers + evaluators) <= multiset(free)
    requires forall i :: 0 <= i < |samplers| ==> s(samplers[i])
    requires forall i :: 0 <= i < |evaluators| ==> e(evaluators[i])
    ensures var only, both := Number(free, Only(s, e)), Number(free, Both(s, e));
      && |samplers| <= only + both
      && |evaluators| <= both - (|samplers| - Min(|samplers|, only)) + Number(free, Only(e, s))
  {
    NumberSplits(samplers, s, e);
    NumberSplits(evaluators, e, s);
    var all := samplers + evaluators;
    NumberIncluded(all, free, Only(s, e));
    NumberIncluded(all, free, Both(s, e));
    NumberIncluded(all, free, Only(e, s));
    NumberAppend(samplers, evaluators, Only(s, e));
    NumberAppend(samplers, evaluators, Both(s, e));
    NumberAppend(samplers, evaluators, Only(e, s));
  }

  /** Exchange: no choice of as many samplers leaves more evaluators than the two passes. */
  lemma Exchange(free: seq<Node>, s: Kind, e: Kind, bestS: Chooser, bestE: Chooser, missing: nat, limit: nat,
                 samplers: seq<Node>, evaluators: seq<Node>)
    requires Chooses(bestS, s) && Spares(bestS, s, e) && Chooses(bestE, e)
    requires multiset(samplers + evaluators) <= multiset(free)
    requires forall i :: 0 <= i < |samplers| ==> s(samplers[i])
    requires forall i :: 0 <= i < |evaluators| ==> e(evaluators[i])
    requires missing <= |samplers| && |evaluators| <= limit
    ensures var (taken, rest) := Take(free, bestS, missing);
      |taken| == missing && |Take(rest, bestE, limit).0| >= |evaluators|
  {
    var rest := Take(free, bestS, missing).1;
    TakeTakesAll(free, bestS, s, e, missing);
    TakeSparesOthers(free, bestS, s, e, missing);
    TakeLeavesOthers(free, bestS, s, e, missing);
    TakeTakesAll(rest, bestE, e, s, limit);
    NumberSymmetric(rest, e, s);
    ChoiceBound(free, s, e, samplers, evaluators);
  }

  function Missing(p: Pool, active: nat): nat {
    if active > p.samplers then active - p.samplers else 0
  }

  /** What the two passes take for one value of `active`. */
  function Greedy(p: Pool, active: nat): (seq<Node>, seq<Node>) {
    var (samplers, rest) := Take(p.free, Best(p.sampler, Some(p.evaluator)), Missing(p, active));
    (samplers, Take(rest, Best(p.evaluator, None), p.evaluatorLimit).0)
  }

  lemma GreedyIsOptimal(p: Pool, active: nat, samplers: seq<Node>, evaluators: seq<Node>)
    requires Choice(p, samplers, evaluators) && p.samplers + |samplers| >= active && |evaluators| <= p.evaluatorLimit
    ensures |Greedy(p, active).0| == Missing(p, active) && |Greedy(p, active).1| >= |evaluators|
  {
    BestChooses(p.sampler, Some(p.evaluator));
    BestSpares(p.sampler, p.evaluator);
    BestChooses(p.evaluator, None);
    Exchange(p.free, Can(p.sampler), Can(p.evaluator), Best(p.sampler, Some(p.evaluator)), Best(p.evaluator, None),
             Missing(p, active), p.evaluatorLimit, samplers, evaluators);
  }

  lemma GreedyIsSound(p: Pool, active: nat)
    ensures Choice(p, Greedy(p, active).0, Greedy(p, active).1)
    ensures |Greedy(p, active).1| <= p.evaluatorLimit && |Greedy(p, active).0| <= Missing(p, active)
  {
    var rest := Take(p.free, Best(p.sampler, Some(p.evaluator)), Missing(p, active)).1;
    BestChooses(p.sampler, Some(p.evaluator));
    BestChooses(p.evaluator, None);
    TakeSplits(p.free, Best(p.sampler, Some(p.evaluator)), Missing(p, active));
    TakeSplits(rest, Best(p.evaluator, None), p.evaluatorLimit);
    var (samplers, evaluators) := Greedy(p, active);
    PartsMultiset(p.free, samplers, rest);
    PartsMultiset(rest, evaluators, Take(rest, Best(p.evaluator, None), p.evaluatorLimit).1);
    TakeIsSound(p.free, Best(p.sampler, Some(p.evaluator)), Can(p.sampler), Missing(p, active));
    TakeIsSound(rest, Best(p.evaluator, None), Can(p.evaluator), p.evaluatorLimit);
  }

  /** The greedy choice completes `active` runs exactly when some choice does. */
  lemma GreedyDecides(p: Pool, active: nat)
    ensures Completes(p, active, Greedy(p, active).0, Greedy(p, active).1) <==> exists s, e :: Completes(p, active, s, e)
  {
    if s, e :| Completes(p, active, s, e) {
      GreedyIsOptimal(p, active, s, e);
      GreedyIsSound(p, active);
    }
  }

  lemma NoMoreThanNodes(p: Pool, active: nat, samplers: seq<Node>, evaluators: seq<Node>)
    requires Completes(p, active, samplers, evaluators)
    ensures active <= p.samplers + |p.free|
  {
    var spare := multiset(p.free) - multiset(samplers + evaluators);
    assert multiset(p.free) == multiset(samplers + evaluators) + spare;
    assert |multiset(p.free)| == |p.free| && |multiset(samplers + evaluators)| == |samplers + evaluators|;
  }

  /** One value of `active`: the greedy choice, and whether it completes the bundles. */
  method Try(p: Pool, active: nat) returns (fits: bool, samplers: seq<Node>, evaluators: seq<Node>)
    ensures fits <==> exists s, e :: Completes(p, active, s, e)
    ensures fits ==> (samplers, evaluators) == Greedy(p, active) && Completes(p, active, samplers, evaluators)
    ensures fits ==> |samplers| == Missing(p, active)
  {
    GreedyDecides(p, active);
    GreedyIsSound(p, active);
    var rest, left;
    samplers, rest := TakeBest(p.free, p.sampler, Some(p.evaluator), Missing(p, active));
    if p.samplers + |samplers| < active {
      return false, samplers, [];
    }
    evaluators, left := TakeBest(rest, p.evaluator, None, p.evaluatorLimit);
    fits := SaturatingAdd(p.evaluators, |evaluators|) >= SaturatingMul(active, p.minEvaluators);
  }

  /** For the largest number of active runs that any choice completes, exactly the samplers that
      are missing, and as many evaluators as any such choice has. */
  ghost predicate BestFor(p: Pool, active: nat, samplers: seq<Node>, evaluators: seq<Node>) {
    && active <= p.maxSamplers && Completes(p, active, samplers, evaluators) && |samplers| == Missing(p, active)
    && (forall more: nat, s, e :: active < more <= p.maxSamplers ==> !Completes(p, more, s, e))
    && (forall s, e :: Completes(p, active, s, e) ==> |e| <= |evaluators|)
    && (samplers, evaluators) == Greedy(p, active)
  }

  lemma BestForIsUnique(p: Pool, a: nat, b: nat, s: seq<Node>, e: seq<Node>, t: seq<Node>, f: seq<Node>)
    requires BestFor(p, a, s, e) && BestFor(p, b, t, f)
    ensures a == b && s == t && e == f
  {
    assert a < b ==> !Completes(p, b, t, f);
    assert b < a ==> !Completes(p, a, s, e);
  }

  /** The search always succeeds. */
  method Plan(p: Pool) returns (samplers: seq<Node>, evaluators: seq<Node>)
    ensures exists active :: BestFor(p, active, samplers, evaluators)
  {
    var n: nat := Min(p.maxSamplers, p.samplers + |p.free|) + 1;
    forall more: nat, s, e | n <= more <= p.maxSamplers ensures !Completes(p, more, s, e) {
      if Completes(p, more, s, e) {
        NoMoreThanNodes(p, more, s, e);
      }
    }
    assert Completes(p, 0, [], []);
    while n > 0
      invariant n <= p.maxSamplers + 1
      invariant forall more: nat, s, e :: n <= more <= p.maxSamplers ==> !Completes(p, more, s, e)
    {
      n := n - 1;
      var fits;
      fits, samplers, evaluators := Try(p, n);
      if fits {
        forall s, e | Completes(p, n, s, e) ensures |e| <= |evaluators| {
          GreedyIsOptimal(p, n, s, e);
        }
        assert BestFor(p, n, samplers, evaluators);
        return;
      }
    }
    assert false;
  }
}
