/**
 Expanding a templated document. The specification substitutes once, everywhere but in `run`
 entries and the top-level replacements; the code walks the tree and edits it in place.
 */
module Expansion {
  import opened Basics
  import opened Template
  import opened TomlValue

  /** The whole string is one placeholder: its value keeps its type. */
  predicate FullPlaceholder(raw: string) {
    Find(raw, "$(") == Some(0) && Find(raw, ")") == Some(|raw| - 1)
  }

  lemma FullIsLong(raw: string)
    requires FullPlaceholder(raw)
    ensures |raw| >= 3
  {
    assert raw[0..] == raw;
    OpenBeforeClose(raw, 0, |raw| - 1);
  }

  /** What a string turns into, but for the values to insert. */
  datatype Shape = Whole(slot: Segment) | Parts(segments: seq<Segment>) | Same

  function ShapeOf(k: Toolkit, raw: string): (shape: Result<Shape, Problem>)
    ensures shape.Ok? && shape.value.Whole? ==> shape.value.slot.Slot?
  {
    if Find(raw, "$(").None? then Ok(Same)
    else if FullPlaceholder(raw) then
      FullIsLong(raw);
      var slot := ParsePlaceholder(k, raw);
      if slot.Err? then Err(slot.error) else Ok(Whole(slot.value))
    else
      var segments := Segments(k, raw);
      if segments.Err? then Err(segments.error) else Ok(Parts(segments.value))
  }

  /** Left alone: sources of child documents, and the replacements themselves. */
  predicate Skipped(key: string, top: bool) {
    key == "run" || (top && key == "replacements")
  }

  /** All placeholders can be read. Whether they can does not depend on the replacements. */
  predicate Readable(k: Toolkit, value: Toml, top: bool) {
    match value
    case Text(raw) => ShapeOf(k, raw).Ok?
    case Plain(_) => true
    case Array(items) => forall i :: 0 <= i < |items| ==> Readable(k, items[i], false)
    case Table(entries) => forall key :: key in entries && !Skipped(key, top) ==> Readable(k, entries[key], false)
  }

  /** The names that occur in placeholders. */
  function Names(k: Toolkit, value: Toml, top: bool): set<string> {
    match value
    case Text(raw) =>
      if ShapeOf(k, raw).Err? then {}
      else
        (match ShapeOf(k, raw).value
         case Whole(slot) => {slot.name}
         case Parts(segments) => Slots(segments)
         case Same => {})
    case Plain(_) => {}
    case Array(items) => UnionOf(seq(|items|, i requires 0 <= i < |items| => Names(k, items[i], false)))
    case Table(entries) => UnionIn(map key | key in entries && !Skipped(key, top) :: Names(k, entries[key], false))
  }

  function UnionOf(sets: seq<set<string>>): set<string> {
    set i, name | 0 <= i < |sets| && name in sets[i] :: name
  }

  function UnionIn(sets: map<string, set<string>>): set<string> {
    set key, name | key in sets && name in sets[key] :: name
  }

  function Substitute(k: Toolkit, r: Replacements, value: Toml, top: bool): Toml
    requires Readable(k, value, top)
  {
    match value
    case Text(raw) =>
      (match ShapeOf(k, raw).value
       case Whole(slot) => Value(r, slot)
       case Parts(segments) => Text(Join(k, r, segments))
       case Same => value)
    case Plain(_) => value
    case Array(items) => Array(seq(|items|, i requires 0 <= i < |items| => Substitute(k, r, items[i], false)))
    case Table(entries) =>
      Table(map key | key in entries ::
        if Skipped(key, top) then entries[key] else Substitute(k, r, entries[key], false))
  }

  /** Walks the tree; strings are replaced where they stand, and names recorded. */
  method ExpandValue(k: Toolkit, r: Replacements, value: Toml, top: bool) returns (result: Option<Toml>, used: set<string>)
    ensures result.Some? <==> Readable(k, value, top)
    ensures result.Some? ==> result.value == Substitute(k, r, value, top) && used == Names(k, value, top)
    decreases value, 1
  {
    used := {};
    match value
    case Text(raw) => result, used := ExpandText(k, r, raw);
    case Plain(_) => result := Some(value);
    case Array(_) => result, used := ExpandItems(k, r, value);
    case Table(_) => result, used := ExpandEntries(k, r, value, top);
  }

  method ExpandText(k: Toolkit, r: Replacements, raw: string) returns (result: Option<Toml>, used: set<string>)
    ensures result.Some? <==> Readable(k, Text(raw), false)
    ensures result.Some? ==> result.value == Substitute(k, r, Text(raw), false) && used == Names(k, Text(raw), false)
  {
    used := {};
    if Find(raw, "$(").None? {
      return Some(Text(raw)), {};
    }
    if FullPlaceholder(raw) {
      FullIsLong(raw);
      var slot := ParsePlaceholder(k, raw);
      if slot.Err? {
        return None, {};
      }
      return Some(Value(r, slot.value)), {slot.value.name};
    }
    var text;
    text, used := Interpolate(k, r, raw);
    result := if text.Err? then None else Some(Text(text.value));
  }

  lemma UnionAppend(sets: seq<set<string>>, more: set<string>)
    ensures UnionOf(sets + [more]) == UnionOf(sets) + more
  {
    var all := sets + [more];
    assert all[|sets|] == more;
    forall name | name in UnionOf(sets) ensures name in UnionOf(all) {
      var i :| 0 <= i < |sets| && name in sets[i];
      assert name in all[i];
    }
  }

  lemma UnionInsert(sets: map<string, set<string>>, key: string, more: set<string>)
    requires key !in sets
    ensures UnionIn(sets[key := more]) == UnionIn(sets) + more
  {
    var all := sets[key := more];
    forall name | name in UnionIn(sets) ensures name in UnionIn(all) {
      var other :| other in sets && name in sets[other];
      assert name in all[other];
    }
    forall name | name in more ensures name in UnionIn(all) {
      assert name in all[key];
    }
  }

  method ExpandItems(k: Toolkit, r: Replacements, value: Toml) returns (result: Option<Toml>, used: set<string>)
    requires value.Array?
    ensures result.Some? <==> Readable(k, value, false)
    ensures result.Some? ==> result.value == Substitute(k, r, value, false) && used == Names(k, value, false)
    decreases value, 0
  {
    var items := value.items;
    var expanded: seq<Toml> := [];
    ghost var names: seq<set<string>> := [];
    used := {};
    for n := 0 to |items|
      invariant |expanded| == n
      invariant forall i :: 0 <= i < n ==> Readable(k, items[i], false) && expanded[i] == Substitute(k, r, items[i], false)
      invariant |names| == n && (forall i :: 0 <= i < n ==> names[i] == Names(k, items[i], false)) && used == UnionOf(names)
    {
      var item, more := ExpandValue(k, r, items[n], false);
      if item.None? {
        return None, used;
      }
      UnionAppend(names, more);
      expanded, names := expanded + [item.value], names + [more];
      used := used + more;
    }
    result := Some(Array(expanded));
    ItemsDone(k, r, value, expanded, names);
  }

  lemma ItemsDone(k: Toolkit, r: Replacements, value: Toml, expanded: seq<Toml>, names: seq<set<string>>)
    requires value.Array? && |expanded| == |names| == |value.items|
    requires forall i :: 0 <= i < |expanded| ==>
      Readable(k, value.items[i], false) && expanded[i] == Substitute(k, r, value.items[i], false)
    requires forall i :: 0 <= i < |names| ==> names[i] == Names(k, value.items[i], false)
    ensures Readable(k, value, false)
    ensures Array(expanded) == Substitute(k, r, value, false) && UnionOf(names) == Names(k, value, false)
  {
    var items := value.items;
    assert expanded == Substitute(k, r, value, false).items;
    assert names == seq(|items|, i requires 0 <= i < |items| => Names(k, items[i], false));
  }

  predicate Done(k: Toolkit, r: Replacements, key: string, before: Toml, top: bool, after: Toml) {
    if Skipped(key, top) then after == before
    else Readable(k, before, false) && after == Substitute(k, r, before, false)
  }

  lemma EntriesDone(k: Toolkit, r: Replacements, value: Toml, top: bool, expanded: map<string, Toml>,
                    names: map<string, set<string>>)
    requires value.Table? && expanded.Keys == value.entries.Keys
    requires forall key :: key in expanded ==> Done(k, r, key, value.entries[key], top, expanded[key])
    requires names.Keys == set key | key in value.entries && !Skipped(key, top)
    requires forall key :: key in names ==> names[key] == Names(k, value.entries[key], false)
    ensures Readable(k, value, top) && Table(expanded) == Substitute(k, r, value, top) && UnionIn(names) == Names(k, value, top)
  {
    EntriesReadable(k, r, value, top, expanded);
    EntriesSubstituted(k, r, value, top, expanded);
    EntriesNamed(k, value, top, names);
  }

  lemma EntriesReadable(k: Toolkit, r: Replacements, value: Toml, top: bool, expanded: map<string, Toml>)
    requires value.Table? && expanded.Keys == value.entries.Keys
    requires forall key :: key in expanded ==> Done(k, r, key, value.entries[key], top, expanded[key])
    ensures Readable(k, value, top)
  {
    forall key | key in value.entries && !Skipped(key, top) ensures Readable(k, value.entries[key], false) {
      assert Done(k, r, key, value.entries[key], top, expanded[key]);
    }
  }

  lemma EntriesSubstituted(k: Toolkit, r: Replacements, value: Toml, top: bool, expanded: map<string, Toml>)
    requires value.Table? && Readable(k, value, top) && expanded.Keys == value.entries.Keys
    requires forall key :: key in expanded ==> Done(k, r, key, value.entries[key], top, expanded[key])
    ensures Table(expanded) == Substitute(k, r, value, top)
  {
    var entries := Substitute(k, r, value, top).entries;
    forall key | key in expanded ensures expanded[key] == entries[key] {
      assert Done(k, r, key, value.entries[key], top, expanded[key]);
    }
  }

  lemma EntriesNamed(k: Toolkit, value: Toml, top: bool, names: map<string, set<string>>)
    requires value.Table? && names.Keys == set key | key in value.entries && !Skipped(key, top)
    requires forall key :: key in names ==> names[key] == Names(k, value.entries[key], false)
    ensures UnionIn(names) == Names(k, value, top)
  {
    assert names == map key | key in value.entries && !Skipped(key, top) :: Names(k, value.entries[key], false);
  }

  method ExpandEntries(k: Toolkit, r: Replacements, value: Toml, top: bool) returns (result: Option<Toml>, used: set<string>)
    requires value.Table?
    ensures result.Some? <==> Readable(k, value, top)
    ensures result.Some? ==> result.value == Substitute(k, r, value, top) && used == Names(k, value, top)
    decreases value, 0
  {
    var entries := value.entries;
    var expanded := entries;
    var todo := entries.Keys;
    ghost var names: map<string, set<string>> := map[];
    used := {};
    while todo != {}
      invariant todo <= entries.Keys == expanded.Keys
      invariant forall key :: key in todo ==> expanded[key] == entries[key]
      invariant forall key :: key in entries && key !in todo ==> Done(k, r, key, entries[key], top, expanded[key])
      invariant names.Keys == set key | key in entries && key !in todo && !Skipped(key, top)
      invariant (forall key :: key in names ==> names[key] == Names(k, entries[key], false)) && used == UnionIn(names)
      decreases todo
    {
      var key :| key in todo;
      if !Skipped(key, top) {
        var item, more := ExpandValue(k, r, entries[key], false);
        if item.None? {
          return None, used;
        }
        UnionInsert(names, key, more);
        expanded, names := expanded[key := item.value], names[key := more];
        used := used + more;
      }
      todo := todo - {key};
    }
    result := Some(Table(expanded));
    EntriesDone(k, r, value, top, expanded, names);
  }

  // What the result depends on

  predicate SameFor(a: Replacements, b: Replacements, name: string) {
    (name in a) == (name in b) && (name in a ==> a[name] == b[name])
  }

  predicate Agree(a: Replacements, b: Replacements, names: set<string>) {
    forall name :: name in names ==> SameFor(a, b, name)
  }

  lemma {:induction false} JoinDependsOnSlots(k: Toolkit, a: Replacements, b: Replacements, segments: seq<Segment>)
    requires Agree(a, b, Slots(segments))
    ensures Join(k, a, segments) == Join(k, b, segments)
  {
    if segments != [] {
      assert segments[0].Slot? ==> segments[0].name in Slots(segments);
      forall name | name in Slots(segments[1..]) ensures name in Slots(segments) {
        var i :| 0 <= i < |segments| - 1 && segments[1..][i].Slot? && segments[1..][i].name == name;
        assert segments[i + 1] == segments[1..][i];
      }
      JoinDependsOnSlots(k, a, b, segments[1..]);
    }
  }

  /** Replacements that agree on the reported names give the same result. */
  lemma {:induction false} DependsOnUsedNames(k: Toolkit, a: Replacements, b: Replacements, value: Toml, top: bool)
    requires Readable(k, value, top) && Agree(a, b, Names(k, value, top))
    ensures Substitute(k, a, value, top) == Substitute(k, b, value, top)
    decreases value
  {
    match value
    case Text(raw) =>
      if ShapeOf(k, raw).value.Parts? {
        JoinDependsOnSlots(k, a, b, ShapeOf(k, raw).value.segments);
      } else if ShapeOf(k, raw).value.Whole? {
        assert SameFor(a, b, ShapeOf(k, raw).value.slot.name);
      }
    case Plain(_) =>
    case Array(items) =>
      forall i | 0 <= i < |items| ensures Substitute(k, a, items[i], false) == Substitute(k, b, items[i], false) {
        ItemNames(k, items, i);
        DependsOnUsedNames(k, a, b, items[i], false);
      }
    case Table(entries) =>
      forall key | key in entries && !Skipped(key, top)
        ensures Substitute(k, a, entries[key], false) == Substitute(k, b, entries[key], false)
      {
        EntryNames(k, entries, top, key);
        DependsOnUsedNames(k, a, b, entries[key], false);
      }
  }

  lemma ItemNames(k: Toolkit, items: seq<Toml>, i: nat)
    requires i < |items|
    ensures Names(k, items[i], false) <= Names(k, Array(items), false)
  {
    var sets := seq(|items|, j requires 0 <= j < |items| => Names(k, items[j], false));
    assert sets[i] == Names(k, items[i], false);
  }

  lemma EntryNames(k: Toolkit, entries: map<string, Toml>, top: bool, key: string)
    requires key in entries && !Skipped(key, top)
    ensures Names(k, entries[key], false) <= Names(k, Table(entries), top)
  {
    var sets := map other | other in entries && !Skipped(other, top) :: Names(k, entries[other], false);
    assert sets[key] == Names(k, entries[key], false);
  }

  lemma {:induction false} LongerValueLongerString(k: Toolkit, r: Replacements, segments: seq<Segment>, name: string)
    ensures |Join(k, r[name := Text("")], segments)| <= |Join(k, r[name := Text("x")], segments)|
    ensures name in Slots(segments) ==>
      |Join(k, r[name := Text("")], segments)| < |Join(k, r[name := Text("x")], segments)|
  {
    if segments != [] {
      LongerValueLongerString(k, r, segments[1..], name);
      if name in Slots(segments) && !(segments[0].Slot? && segments[0].name == name) {
        var i :| 0 <= i < |segments| && segments[i].Slot? && segments[i].name == name;
        assert segments[1..][i - 1] == segments[i];
      }
    }
  }

  /** Every reported name was really used: changing its replacement can change the result. */
  lemma {:induction false} UsedNamesMatter(k: Toolkit, r: Replacements, value: Toml, top: bool, name: string)
    requires Readable(k, value, top) && name in Names(k, value, top)
    ensures Substitute(k, r[name := Text("")], value, top) != Substitute(k, r[name := Text("x")], value, top)
    decreases value
  {
    var a, b := r[name := Text("")], r[name := Text("x")];
    match value
    case Text(raw) =>
      if ShapeOf(k, raw).value.Parts? {
        LongerValueLongerString(k, r, ShapeOf(k, raw).value.segments, name);
      }
    case Array(items) =>
      var sets := seq(|items|, j requires 0 <= j < |items| => Names(k, items[j], false));
      var i :| 0 <= i < |sets| && name in sets[i];
      UsedNamesMatter(k, r, items[i], false, name);
      assert Substitute(k, a, value, top).items[i] != Substitute(k, b, value, top).items[i];
    case Table(entries) =>
      var sets := map other | other in entries && !Skipped(other, top) :: Names(k, entries[other], false);
      var key :| key in sets && name in sets[key];
      UsedNamesMatter(k, r, entries[key], false, name);
      assert Substitute(k, a, value, top).entries[key] != Substitute(k, b, value, top).entries[key];
  }

  /** No key on the way is skipped. */
  predicate Visited(path: seq<string>, top: bool) {
    path == [] || (!Skipped(path[0], top) && Visited(path[1..], false))
  }

  /** The source of a child document is left exactly as it was, wherever it is. */
  lemma {:induction false} SourcesUntouched(k: Toolkit, r: Replacements, value: Toml, top: bool, path: seq<string>)
    requires Readable(k, value, top) && Visited(path, top) && Lookup(value, path + ["run"]).Some?
    ensures Lookup(Substitute(k, r, value, top), path + ["run"]) == Lookup(value, path + ["run"])
    decreases |path|
  {
    if path == [] {
      assert [] + ["run"] == ["run"] && ["run"][1..] == [];
      assert Entry(value, "run").Some?;
    } else {
      assert (path + ["run"])[1..] == path[1..] + ["run"];
      assert Entry(value, path[0]).Some?;
      SourcesUntouched(k, r, value.entries[path[0]], false, path[1..]);
    }
  }

  // Whole documents

  function Extract(value: Toml): Option<Replacements> {
    match Entry(value, "replacements")
    case None => Some(map[])
    case Some(Table(entries)) => Some(entries)
    case Some(_) => None
  }

  function Drop(value: Toml, key: string): Toml {
    if value.Table? then Table(value.entries - {key}) else value
  }

  /** The document with its own replacements applied. */
  function Effective(k: Toolkit, value: Toml): Option<Toml> {
    var r := Extract(value);
    if r.None? || !Readable(k, value, true) then None
    else Some(Drop(Substitute(k, r.value, value, true), "replacements"))
  }

  method ExpandTemplate(k: Toolkit, value: Toml) returns (result: Option<Toml>, used: set<string>)
    ensures result == Effective(k, value)
    ensures result.Some? ==> used == Names(k, value, true)
  {
    var r := Extract(value);
    if r.None? {
      return None, {};
    }
    result, used := ExpandValue(k, r.value, value, true);
    if result.Some? {
      result := Some(Drop(result.value, "replacements"));
    }
  }

  /** Bindings go on top of the document's own replacements. */
  function Bind(value: Toml, bindings: Replacements): Option<Toml> {
    if bindings == map[] then Some(value)
    else if !value.Table? then None
    else
      var r := Extract(value);
      if r.None? then None else Some(Table(value.entries["replacements" := Table(r.value + bindings)]))
  }

  lemma BindNames(k: Toolkit, value: Toml, bindings: Replacements)
    requires Bind(value, bindings).Some?
    ensures Names(k, Bind(value, bindings).value, true) == Names(k, value, true)
    ensures Readable(k, Bind(value, bindings).value, true) <==> Readable(k, value, true)
  {
    if bindings != map[] {
      var bound := Bind(value, bindings).value;
      assert (map key | key in bound.entries && !Skipped(key, true) :: Names(k, bound.entries[key], false)) ==
             (map key | key in value.entries && !Skipped(key, true) :: Names(k, value.entries[key], false));
      assert forall key :: key in bound.entries && !Skipped(key, true) ==> bound.entries[key] == value.entries[key];
      assert forall key :: key in value.entries && !Skipped(key, true) ==> key in bound.entries;
    }
  }

  /** Bindings that agree on the names in use give the same effective document. */
  lemma UnusedBindingsDoNotMatter(k: Toolkit, value: Toml, a: Replacements, b: Replacements)
    requires value.Table? && Extract(value).Some?
    requires Agree(Extract(value).value + a, Extract(value).value + b, Names(k, value, true))
    ensures Bind(value, a).Some? && Bind(value, b).Some?
    ensures Effective(k, Bind(value, a).value) == Effective(k, Bind(value, b).value)
  {
    var x, y := Bind(value, a).value, Bind(value, b).value;
    BindNames(k, value, a);
    BindNames(k, value, b);
    BoundReplacements(value, a);
    BoundReplacements(value, b);
    if Readable(k, value, true) {
      DependsOnUsedNames(k, Extract(x).value, Extract(y).value, x, true);
      if a != map[] {
        SameButReplacements(k, Extract(y).value, value, a);
      }
      if b != map[] {
        SameButReplacements(k, Extract(y).value, value, b);
      }
    }
  }

  lemma BoundReplacements(value: Toml, bindings: Replacements)
    requires value.Table? && Extract(value).Some?
    ensures Extract(Bind(value, bindings).value) == Some(Extract(value).value + bindings)
  {
    if bindings == map[] {
      assert Extract(value).value + bindings == Extract(value).value;
    }
  }

  lemma SameButReplacements(k: Toolkit, r: Replacements, value: Toml, bindings: Replacements)
    requires value.Table? && Extract(value).Some? && Readable(k, value, true) && bindings != map[]
    requires Readable(k, Bind(value, bindings).value, true)
    ensures Drop(Substitute(k, r, Bind(value, bindings).value, true), "replacements") ==
      Drop(Substitute(k, r, value, true), "replacements")
  {
    var bound := Bind(value, bindings).value;
    var x := Substitute(k, r, bound, true).entries - {"replacements"};
    var y := Substitute(k, r, value, true).entries - {"replacements"};
    assert x.Keys == y.Keys;
    forall key | key in x ensures x[key] == y[key] {
      assert bound.entries[key] == value.entries[key];
    }
  }
}
