/**
 Role allocation for the free nodes of a worker pool: samplers first, then evaluators, for the
 largest number of active runs whose bundles are complete.
 */
module Roles {
  import opened Basics
  import opened TextOrder

  const USIZE_MAX: nat := 0xFFFF_FFFF_FFFF_FFFF

  /** An ordered map's entries, in key order. */
  type Capabilities = seq<(string, nat)>
  type Requirements = seq<(string, nat)>

  datatype Node = Node(name: string, capabilities: Capabilities)

  function Get(capabilities: Capabilities, key: string): Option<nat> {
    if capabilities == [] then None
    else if capabilities[0].0 == key then Some(capabilities[0].1)
    else Get(capabilities[1..], key)
  }

  predicate Provides(capabilities: Capabilities, requirement: (string, nat)) {
    var value := Get(capabilities, requirement.0);
    value.Some? && value.value >= requirement.1
  }

  /** A key that is missing does not satisfy even a requirement of zero. */
  predicate Satisfies(capabilities: Capabilities, requirements: Requirements) {
    forall i :: 0 <= i < |requirements| ==> Provides(capabilities, requirements[i])
  }

  /** What the node has beyond the requirement; the subtraction is exact. */
  function ExtraRequired(capabilities: Capabilities, requirements: Requirements): nat
    requires Satisfies(capabilities, requirements)
  {
    if requirements == [] then 0
    else
      assert Provides(capabilities, requirements[0]);
      Get(capabilities, requirements[0].0).value - requirements[0].1 + ExtraRequired(capabilities, requirements[1..])
  }

  predicate Contains(text: string, part: string) {
    part <= text || (text != "" && Contains(text[1..], part))
  }

  function Weight(key: string, value: nat): nat {
    if Contains(key, "gpu") || Contains(key, "cuda") || Contains(key, "madnis") then
      if value * 1000 > USIZE_MAX then USIZE_MAX else value * 1000
    else value
  }

  function ExtraUnrequired(capabilities: Capabilities, requirements: Requirements): nat {
    if capabilities == [] then 0
    else
      (if Get(requirements, capabilities[0].0).None? then Weight(capabilities[0].0, capabilities[0].1) else 0)
      + ExtraUnrequired(capabilities[1..], requirements)
  }

  /** A node that could also serve the other role comes last; then the tightest fit; then the name. */
  datatype Key = Key(flexible: bool, required: nat, unrequired: nat, size: nat, name: string)

  predicate KeyBefore(a: Key, b: Key) {
    if a.flexible != b.flexible then b.flexible
    else if a.required != b.required then a.required < b.required
    else if a.unrequired != b.unrequired then a.unrequired < b.unrequired
    else if a.size != b.size then a.size < b.size
    else Before(a.name, b.name)
  }

  lemma KeyBeforeTotal(a: Key, b: Key)
    ensures a != b ==> (KeyBefore(a, b) <==> !KeyBefore(b, a))
    ensures a == b ==> !KeyBefore(a, b)
  {
    BeforeTotal(a.name, b.name);
  }

  lemma KeyBeforeTransitive(a: Key, b: Key, c: Key)
    requires KeyBefore(a, b) && KeyBefore(b, c)
    ensures KeyBefore(a, c)
  {
    if Before(a.name, b.name) && Before(b.name, c.name) {
      BeforeTransitive(a.name, b.name, c.name);
    }
  }

  /** Nodes that do not satisfy the requirements have no key. */
  function KeyOf(node: Node, requirements: Requirements, other: Option<Requirements>): Option<Key> {
    if !Satisfies(node.capabilities, requirements) then None
    else
      Some(Key(other.Some? && Satisfies(node.capabilities, other.value),
               ExtraRequired(node.capabilities, requirements),
               ExtraUnrequired(node.capabilities, requirements),
               |node.capabilities|, node.name))
  }

  function Keys(nodes: seq<Node>, requirements: Requirements, other: Option<Requirements>): (keys: seq<Option<Key>>)
    ensures |keys| == |nodes|
    ensures forall i :: 0 <= i < |nodes| ==> keys[i] == KeyOf(nodes[i], requirements, other)
  {
    seq(|nodes|, i requires 0 <= i < |nodes| => KeyOf(nodes[i], requirements, other))
  }

  /** The first of the least keys, if there are keys at all. */
  ghost predicate IsFirstLeast(keys: seq<Option<Key>>, r: Option<nat>) {
    match r
    case None => forall i :: 0 <= i < |keys| ==> keys[i].None?
    case Some(best) =>
      && best < |keys| && keys[best].Some?
      && (forall i :: 0 <= i < |keys| && keys[i].Some? ==> !KeyBefore(keys[i].value, keys[best].value))
      && (forall i :: 0 <= i < best && keys[i].Some? ==> KeyBefore(keys[best].value, keys[i].value))
  }

  /** Filter and minimum in one pass: a later key wins only when it is strictly before. */
  function Least(keys: seq<Option<Key>>): (best: Option<nat>)
    ensures best.Some? ==> best.value < |keys| && keys[best.value].Some?
  {
    if keys == [] then None
    else
      var n := |keys| - 1;
      var best := Least(keys[..n]);
      if keys[n].Some? && (best.None? || KeyBefore(keys[n].value, keys[best.value].value)) then Some(n) else best
  }

  /** A key before the least one is before every key. */
  lemma Replaces(keys: seq<Option<Key>>, best: nat, key: Key)
    requires IsFirstLeast(keys, Some(best)) && KeyBefore(key, keys[best].value)
    ensures forall i :: 0 <= i < |keys| && keys[i].Some? ==> KeyBefore(key, keys[i].value) && !KeyBefore(keys[i].value, key)
  {
    forall i | 0 <= i < |keys| && keys[i].Some? ensures KeyBefore(key, keys[i].value) && !KeyBefore(keys[i].value, key) {
      KeyBeforeTotal(keys[i].value, keys[best].value);
      if keys[i].value != keys[best].value {
        KeyBeforeTransitive(key, keys[best].value, keys[i].value);
      }
      KeyBeforeTotal(key, keys[i].value);
    }
  }

  lemma {:induction false} LeastIsFirst(keys: seq<Option<Key>>)
    ensures IsFirstLeast(keys, Least(keys))
  {
    if keys != [] {
      var n := |keys| - 1;
      var best := Least(keys[..n]);
      LeastIsFirst(keys[..n]);
      if keys[n].Some? && best.Some? && KeyBefore(keys[n].value, keys[best.value].value) {
        Replaces(keys[..n], best.value, keys[n].value);
      }
      if keys[n].Some? {
        KeyBeforeTotal(keys[n].value, keys[n].value);
      }
    }
  }

  method FirstLeast(keys: seq<Option<Key>>) returns (best: Option<nat>)
    ensures best == Least(keys) && IsFirstLeast(keys, best)
  {
    best := None;
    for i := 0 to |keys|
      invariant best == Least(keys[..i])
    {
      assert keys[..i + 1][..i] == keys[..i];
      if keys[i].Some? && (best.None? || KeyBefore(keys[i].value, keys[best.value].value)) {
        best := Some(i);
      }
    }
    assert keys[..|keys|] == keys;
    LeastIsFirst(keys);
  }
}
