/** Searches for fresh names and for the root of a run hierarchy. */
module Names {
  import opened Basics

  function Digit(n: nat): char
    requires n < 10
  {
    '0' + n as char
  }

  function Decimal(n: nat): (text: string)
    ensures text != ""
  {
    if n < 10 then [Digit(n)] else Decimal(n / 10) + [Digit(n % 10)]
  }

  lemma {:induction false} DecimalInjective(a: nat, b: nat)
    requires Decimal(a) == Decimal(b)
    ensures a == b
  {
    var x, y := Decimal(a), Decimal(b);
    assert x[|x| - 1] == Digit(a % 10) && y[|y| - 1] == Digit(b % 10);
    if a >= 10 && b >= 10 {
      assert x[..|x| - 1] == Decimal(a / 10) && y[..|y| - 1] == Decimal(b / 10);
      DecimalInjective(a / 10, b / 10);
    }
  }

  lemma SamePrefix(prefix: string, a: string, b: string)
    requires prefix + a == prefix + b
    ensures a == b
  {
    assert (prefix + a)[|prefix|..] == a && (prefix + b)[|prefix|..] == b;
  }

  // Copies

  function CopyName(base: string, suffix: nat): string {
    if suffix == 1 then base + "-copy" else base + ("-copy-" + Decimal(suffix))
  }

  /** The name tried after `n` collisions. */
  function Candidate(base: string, n: nat): string {
    if n == 0 then base else CopyName(base, n)
  }

  lemma CandidatesDiffer(base: string, a: nat, b: nat)
    requires a < b
    ensures Candidate(base, a) != Candidate(base, b)
  {
    if a == 1 {
      assert |Candidate(base, a)| < |Candidate(base, b)|;
    } else if a > 1 && Candidate(base, a) == Candidate(base, b) {
      SamePrefix(base, "-copy-" + Decimal(a), "-copy-" + Decimal(b));
      SamePrefix("-copy-", Decimal(a), Decimal(b));
      DecimalInjective(a, b);
    }
  }

  /** So many different names do not fit into a smaller set. */
  lemma {:induction false} CandidatesInside(base: string, n: nat, names: set<string>)
    requires forall i :: 0 <= i < n ==> Candidate(base, i) in names
    ensures n <= |names|
  {
    if n > 0 {
      var last := Candidate(base, n - 1);
      forall i | 0 <= i < n - 1 ensures Candidate(base, i) in names - {last} {
        CandidatesDiffer(base, i, n - 1);
      }
      CandidatesInside(base, n - 1, names - {last});
    }
  }

  /** The first candidate nobody uses, within one try per existing task. */
  method AvailableName(base: string, names: set<string>) returns (candidate: string, ghost n: nat)
    ensures candidate !in names && candidate == Candidate(base, n)
    ensures forall i :: 0 <= i < n ==> Candidate(base, i) in names
    ensures n <= |names|
  {
    candidate := base;
    var suffix := 1;
    while candidate in names
      invariant suffix >= 1 && candidate == Candidate(base, suffix - 1)
      invariant forall i :: 0 <= i < suffix - 1 ==> Candidate(base, i) in names
      invariant suffix - 1 <= |names|
      decreases |names| + 1 - suffix
    {
      CandidatesInside(base, suffix, names);
      candidate := CopyName(base, suffix);
      suffix := suffix + 1;
    }
    n := suffix - 1;
  }

  // Node names

  function NodeName(index: nat): string {
    "w-" + Decimal(index)
  }

  /** The names among `w-1` to `w-n` that are not used yet. */
  function Unused(existing: set<string>, n: nat): seq<string> {
    if n == 0 then []
    else Unused(existing, n - 1) + if NodeName(n) in existing then [] else [NodeName(n)]
  }

  lemma {:induction false} UnusedDistinct(existing: set<string>, n: nat)
    ensures forall i :: 0 <= i < |Unused(existing, n)| ==> Unused(existing, n)[i] !in existing
    ensures forall i :: 0 <= i < |Unused(existing, n)| ==> IsNode(Unused(existing, n)[i], n)
    ensures forall i, j :: 0 <= i < j < |Unused(existing, n)| ==> Unused(existing, n)[i] != Unused(existing, n)[j]
  {
    if n > 0 {
      UnusedDistinct(existing, n - 1);
      assert IsNode(NodeName(n), n);
      forall name | IsNode(name, n - 1) ensures IsNode(name, n) && name != NodeName(n) {
        var k: nat :| 1 <= k < n && name == NodeName(k);
        if name == NodeName(n) {
          SamePrefix("w-", Decimal(k), Decimal(n));
          DecimalInjective(k, n);
        }
      }
    }
  }

  ghost predicate IsNode(name: string, n: nat) {
    exists k: nat :: 1 <= k <= n && name == NodeName(k)
  }

  /** Each skipped index uses up one existing name. */
  lemma {:induction false} SkippedAreExisting(existing: set<string>, n: nat)
    ensures n <= |existing| + |Unused(existing, n)|
  {
    if n > 0 {
      var name := NodeName(n);
      if name in existing {
        UnusedWithout(existing, n - 1, n);
        SkippedAreExisting(existing - {name}, n - 1);
      } else {
        SkippedAreExisting(existing, n - 1);
      }
    }
  }

  lemma {:induction false} UnusedWithout(existing: set<string>, n: nat, later: nat)
    requires n < later
    ensures Unused(existing - {NodeName(later)}, n) == Unused(existing, n)
  {
    if n > 0 {
      UnusedWithout(existing, n - 1, later);
      if NodeName(n) == NodeName(later) {
        SamePrefix("w-", Decimal(n), Decimal(later));
        DecimalInjective(n, later);
      }
    }
  }

  /** The requested number of least unused names, and no more tries than needed. */
  method PlanNodes(existing: set<string>, requested: nat) returns (plan: Result<seq<string>, string>, ghost tries: nat)
    ensures requested == 0 <==> plan.Err?
    ensures plan.Ok? ==>
      && |plan.value| == requested && plan.value == Unused(existing, tries)
      && 1 <= tries <= |existing| + requested && plan.value[requested - 1] == NodeName(tries)
  {
    if requested == 0 {
      return Err("requested node count must be greater than zero"), 0;
    }
    var planned: seq<string> := [];
    var index := 1;
    while |planned| < requested
      invariant index >= 1 && planned == Unused(existing, index - 1) && |planned| <= requested
      invariant |planned| == requested ==> planned[requested - 1] == NodeName(index - 1) && index > 1
      decreases |existing| + requested + 1 - index
    {
      UnusedDistinct(existing, index);
      SkippedAreExisting(existing, index);
      var candidate := NodeName(index);
      if candidate !in existing {
        assert Unused(existing, index)[|planned|] == candidate;
        assert forall i :: 0 <= i < |planned| ==> planned[i] == Unused(existing, index)[i];
      }
      if candidate !in existing && candidate !in planned {
        planned := planned + [candidate];
      }
      index := index + 1;
    }
    SkippedAreExisting(existing, index - 1);
    return Ok(planned), index - 1;
  }

  // Parents

  /** Parent of each stored run, if it has one. */
  type Runs = map<int, Option<int>>

  datatype Pool = Root(run: int) | Missing(run: int) | Cycle

  /** The run `n` steps up, as long as there are that many. */
  function Ancestor(runs: Runs, run: int, n: nat): Option<int> {
    if n == 0 then Some(run)
    else
      var below := Ancestor(runs, run, n - 1);
      if below.Some? && below.value in runs then runs[below.value] else None
  }

  ghost predicate EndsAt(runs: Runs, run: int, top: int) {
    exists n: nat :: Ancestor(runs, run, n) == Some(top) && Ancestor(runs, run, n + 1).None?
  }

  lemma {:induction false} AncestorsStop(runs: Runs, run: int, n: nat, m: nat)
    requires Ancestor(runs, run, n).None? && n <= m
    ensures Ancestor(runs, run, m).None?
  {
    if n < m {
      AncestorsStop(runs, run, n, m - 1);
    }
  }

  lemma TopIsUnique(runs: Runs, run: int, a: int, b: int)
    requires EndsAt(runs, run, a) && EndsAt(runs, run, b)
    ensures a == b
  {
    var n: nat :| Ancestor(runs, run, n) == Some(a) && Ancestor(runs, run, n + 1).None?;
    var m: nat :| Ancestor(runs, run, m) == Some(b) && Ancestor(runs, run, m + 1).None?;
    if n < m {
      AncestorsStop(runs, run, n + 1, m);
    } else if m < n {
      AncestorsStop(runs, run, m + 1, n);
    }
  }

  /** Meeting a run again means that the chain never ends. */
  lemma {:induction false} RepeatsForever(runs: Runs, run: int, i: nat, j: nat, n: nat)
    requires i < j && Ancestor(runs, run, i) == Ancestor(runs, run, j)
    requires forall k :: 0 <= k <= j ==> Ancestor(runs, run, k).Some?
    ensures Ancestor(runs, run, n).Some?
    ensures n >= j ==> Ancestor(runs, run, n) == Ancestor(runs, run, n - (j - i))
  {
    if n > j {
      RepeatsForever(runs, run, i, j, n - 1);
      RepeatsForever(runs, run, i, j, n - (j - i));
    }
  }

  /** The root pool of a run; a missing run; or an error exactly when the chain never ends. */
  method WorkerPool(runs: Runs, run: int) returns (pool: Pool)
    ensures pool.Cycle? <==> forall n: nat :: Ancestor(runs, run, n).Some?
    ensures forall top :: pool == Root(top) <==> EndsAt(runs, run, top) && top in runs
    ensures forall top :: pool == Missing(top) <==> EndsAt(runs, run, top) && top !in runs
  {
    var seen: set<int> := {};
    var current := run;
    ghost var n := 0;
    ghost var all := runs.Keys;
    while true
      invariant Ancestor(runs, run, n) == Some(current)
      invariant forall k :: 0 <= k <= n ==> Ancestor(runs, run, k).Some?
      invariant seen <= all && forall x :: x in seen ==> exists k :: 0 <= k < n && Ancestor(runs, run, k) == Some(x)
      decreases all - seen
    {
      if current in seen {
        ghost var k :| 0 <= k < n && Ancestor(runs, run, k) == Some(current);
        forall m: nat ensures Ancestor(runs, run, m).Some? {
          RepeatsForever(runs, run, k, n, m);
        }
        assert forall top :: !EndsAt(runs, run, top);
        return Cycle;
      }
      seen := seen + {current};
      if current !in runs {
        Ends(runs, run, n, current);
        return Missing(current);
      }
      match runs[current]
      case Some(parent) =>
        assert current in all - (seen - {current});
        current := parent;
        n := n + 1;
      case None =>
        Ends(runs, run, n, current);
        return Root(current);
    }
  }

  lemma Ends(runs: Runs, run: int, n: nat, top: int)
    requires Ancestor(runs, run, n) == Some(top) && (top !in runs || runs[top].None?)
    ensures Ancestor(runs, run, n + 1).None?
    ensures forall other :: EndsAt(runs, run, other) <==> other == top
  {
    assert Ancestor(runs, run, n + 1).None?;
    assert EndsAt(runs, run, top);
    forall other | EndsAt(runs, run, other) ensures other == top {
      TopIsUnique(runs, run, other, top);
    }
  }
}
