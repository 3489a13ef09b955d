/** Laying a user's document over default values. */
module Overlay {
  import opened TomlValue

  /** Both are tagged, and differently. */
  predicate KindChanges(base: Toml, overlay: Toml) {
    Entry(base, "kind").Some? && Entry(overlay, "kind").Some? && Entry(base, "kind") != Entry(overlay, "kind")
  }

  predicate Blends(base: Toml, overlay: Toml) {
    base.Table? && overlay.Table? && !KindChanges(base, overlay)
  }

  /** What an overlay entry makes of the base's entry of the same name. */
  function Merge(base: Toml, overlay: Toml): Toml
    decreases overlay
  {
    if !Blends(base, overlay) then overlay
    else
      Table(map key | key in base.entries.Keys + overlay.entries.Keys ::
        if key !in overlay.entries then base.entries[key]
        else if key in base.entries then Merge(base.entries[key], overlay.entries[key])
        else overlay.entries[key])
  }

  /** Entry by entry, in any order. */
  method MergeInto(base: Toml, overlay: Toml) returns (merged: Toml)
    ensures merged == Merge(base, overlay)
    decreases overlay
  {
    if KindChanges(base, overlay) || !base.Table? || !overlay.Table? {
      return overlay;
    }
    var entries := base.entries;
    var todo := overlay.entries.Keys;
    while todo != {}
      invariant todo <= overlay.entries.Keys
      invariant entries.Keys == base.entries.Keys + (overlay.entries.Keys - todo)
      invariant forall key :: key in base.entries && (key !in overlay.entries || key in todo) ==>
        entries[key] == base.entries[key]
      invariant forall key :: key in overlay.entries && key !in todo ==> entries[key] == Merge(base, overlay).entries[key]
      decreases todo
    {
      var key :| key in todo;
      var value := overlay.entries[key];
      if key in entries {
        value := MergeInto(entries[key], value);
      }
      entries := entries[key := value];
      todo := todo - {key};
    }
    merged := Table(entries);
    assert merged.entries.Keys == Merge(base, overlay).entries.Keys;
    assert merged.entries == Merge(base, overlay).entries;
  }

  /** Every leaf the overlay sets is in the result, at any depth. */
  lemma {:induction false} OverlaySurvives(base: Toml, overlay: Toml, path: seq<string>)
    requires Lookup(overlay, path).Some? && !Lookup(overlay, path).value.Table?
    ensures Lookup(Merge(base, overlay), path) == Lookup(overlay, path)
    decreases |path|
  {
    if path != [] && Blends(base, overlay) && path[0] in base.entries {
      OverlaySurvives(base.entries[path[0]], overlay.entries[path[0]], path[1..]);
    }
  }

  /** Merging the same overlay again changes nothing. */
  lemma {:induction false} MergeTwice(base: Toml, overlay: Toml)
    ensures Merge(Merge(base, overlay), overlay) == Merge(base, overlay)
    decreases overlay
  {
    if Blends(base, overlay) {
      var once := Merge(base, overlay);
      forall key | key in base.entries && key in overlay.entries
        ensures Merge(once.entries[key], overlay.entries[key]) == once.entries[key]
      {
        MergeTwice(base.entries[key], overlay.entries[key]);
      }
      forall key | key in overlay.entries && key !in base.entries
        ensures Merge(once.entries[key], overlay.entries[key]) == once.entries[key]
      {
        MergeSelf(overlay.entries[key]);
      }
      if "kind" in overlay.entries {
        KindKept(base, overlay);
      }
      assert Merge(once, overlay).entries == once.entries;
    } else {
      MergeSelf(overlay);
    }
  }

  lemma {:induction false} MergeSelf(value: Toml)
    ensures Merge(value, value) == value
  {
    if value.Table? {
      forall key | key in value.entries ensures Merge(value.entries[key], value.entries[key]) == value.entries[key] {
        MergeSelf(value.entries[key]);
      }
      assert Merge(value, value).entries == value.entries;
    }
  }

  /** A tag of the overlay is the tag of the result. */
  lemma KindKept(base: Toml, overlay: Toml)
    requires Blends(base, overlay) && Entry(overlay, "kind").Some?
    ensures Entry(Merge(base, overlay), "kind") == Entry(overlay, "kind")
  {
    if "kind" in base.entries {
      MergeSelf(overlay.entries["kind"]);
    }
  }

  /** Where the tag changes, nothing of the base is carried over, at any depth. */
  lemma {:induction false} ChangedKindReplaces(base: Toml, overlay: Toml, path: seq<string>)
    requires Lookup(base, path).Some? && Lookup(overlay, path).Some?
    requires KindChanges(Lookup(base, path).value, Lookup(overlay, path).value)
    ensures Lookup(Merge(base, overlay), path) == Lookup(overlay, path)
    decreases |path|
  {
    if path != [] && Blends(base, overlay) {
      ChangedKindReplaces(base.entries[path[0]], overlay.entries[path[0]], path[1..]);
    }
  }

  /** The overlay replaces what the base has at this path: it sets the path itself, ends above
      it in something that is not a table, or changes the kind above it. */
  predicate Overrides(base: Toml, overlay: Toml, path: seq<string>)
    decreases |path|
  {
    if path == [] || !Blends(base, overlay) then true
    else
      path[0] in overlay.entries &&
      (path[0] !in base.entries || Overrides(base.entries[path[0]], overlay.entries[path[0]], path[1..]))
  }

  /** Every leaf of the result comes from the overlay where the overlay overrides the base, and
      from the base, unchanged, everywhere else. */
  lemma {:induction false} LeavesAreAccountedFor(base: Toml, overlay: Toml, path: seq<string>)
    ensures !Overrides(base, overlay, path) ==> Lookup(Merge(base, overlay), path) == Lookup(base, path)
    ensures var found := Lookup(Merge(base, overlay), path);
      Overrides(base, overlay, path) && found.Some? && !found.value.Table? ==> found == Lookup(overlay, path)
    decreases |path|
  {
    if path != [] && Blends(base, overlay) && path[0] in base.entries && path[0] in overlay.entries {
      LeavesAreAccountedFor(base.entries[path[0]], overlay.entries[path[0]], path[1..]);
    }
  }
}
