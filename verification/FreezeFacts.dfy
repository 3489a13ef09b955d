/** What freezing guarantees: bounded, acyclic, file-free, and the same documents. */
module FreezeFacts {
  import opened Basics
  import opened Documents
  import opened Freeze
  import opened TomlValue

  /** Printing a document and reading it back gives the same document. */
  ghost predicate Faithful(w: World) {
    forall value: Toml :: value.Table? ==> w.parse(w.render(value)) == Some(value)
  }

  datatype Hop = Child | Item(index: nat)

  function OwnerAt(value: Toml, hop: Hop): Option<Toml> {
    match hop
    case Child => Entry(value, "child")
    case Item(i) =>
      match Entry(value, "children")
      case Some(Array(items)) => if i < |items| then Some(items[i]) else None
      case _ => None
  }

  /** The source of one child document. */
  function SourceAt(value: Toml, hop: Hop): Option<Toml> {
    var owner := OwnerAt(value, hop);
    if owner.None? then None else Entry(owner.value, "run")
  }

  /** The child document itself, read without any of the checks. */
  function Open(w: World, source: Toml, base: Path): Option<Place> {
    match SourceOf(source)
    case None => None
    case Some(Inline(text)) => if w.parse(text).None? then None else Some(Place(w.parse(text).value, base, []))
    case Some(File(file)) =>
      var path := w.locate(base, file);
      if path.None? || w.read(path.value).None? || w.parse(w.read(path.value).value).None? then None
      else Some(Place(w.parse(w.read(path.value).value).value, w.parent(path.value), [path.value]))
  }

  /** The document at the end of a chain of children, with all files read on the way. */
  function Follow(w: World, value: Toml, base: Path, hops: seq<Hop>): Option<Place>
    decreases |hops|
  {
    if hops == [] then Some(Place(value, base, []))
    else
      var source := SourceAt(value, hops[0]);
      var place := if source.None? then None else Open(w, source.value, base);
      if place.None? then None
      else
        var end := Follow(w, place.value.value, place.value.base, hops[1..]);
        if end.None? then None else Some(end.value.(files := place.value.files + end.value.files))
  }

  // One level

  lemma {:induction false} ItemFrozen(w: World, items: seq<Toml>, base: Path, stack: seq<Path>, depth: nat, i: nat)
    requires depth <= MAX_DEPTH && i < |items| && FrozenItems(w, items, base, stack, depth).Ok?
    ensures var frozen := FrozenItems(w, items, base, stack, depth).value;
      |frozen| == |items| && FrozenOwner(w, items[i], base, stack, depth) == Ok(frozen[i])
    decreases |items|
  {
    ItemsLength(w, items, base, stack, depth);
    if i < |items| - 1 {
      ItemFrozen(w, items[..|items| - 1], base, stack, depth, i);
    } else {
      ItemsLength(w, items[..|items| - 1], base, stack, depth);
    }
  }

  lemma {:induction false} ItemsLength(w: World, items: seq<Toml>, base: Path, stack: seq<Path>, depth: nat)
    requires depth <= MAX_DEPTH && FrozenItems(w, items, base, stack, depth).Ok?
    ensures |FrozenItems(w, items, base, stack, depth).value| == |items|
    decreases |items|
  {
    if items != [] {
      ItemsLength(w, items[..|items| - 1], base, stack, depth);
    }
  }

  /** Freezing changes each child's source, and nothing else. */
  lemma OwnersFrozen(w: World, value: Toml, base: Path, stack: seq<Path>, depth: nat, hop: Hop)
    requires depth <= MAX_DEPTH + 1 && Frozen(w, value, base, stack, depth).Ok?
    ensures depth <= MAX_DEPTH && value.Table?
    ensures var frozen := Frozen(w, value, base, stack, depth).value;
      && frozen.Table?
      && OwnerAt(value, hop).None? == OwnerAt(frozen, hop).None?
      && (OwnerAt(value, hop).Some? ==>
            FrozenOwner(w, OwnerAt(value, hop).value, base, stack, depth) == Ok(OwnerAt(frozen, hop).value))
  {
    if hop.Item? {
      var children := Entry(value, "children");
      if children.Some? && children.value.Array? {
        var items := children.value.items;
        ItemsLength(w, items, base, stack, depth);
        if hop.index < |items| {
          ItemFrozen(w, items, base, stack, depth, hop.index);
        }
      }
    }
  }

  lemma SourceFrozen(w: World, value: Toml, base: Path, stack: seq<Path>, depth: nat, hop: Hop)
    requires depth <= MAX_DEPTH + 1 && Frozen(w, value, base, stack, depth).Ok?
    ensures depth <= MAX_DEPTH
    ensures var frozen := Frozen(w, value, base, stack, depth).value;
      && SourceAt(value, hop).None? == SourceAt(frozen, hop).None?
      && (SourceAt(value, hop).Some? ==>
            FrozenSource(w, SourceAt(value, hop).value, base, stack, depth + 1) == Ok(SourceAt(frozen, hop).value))
  {
    OwnersFrozen(w, value, base, stack, depth, hop);
  }

  /** A source that froze was read, was not on the stack, and its document froze too. */
  lemma FrozenIsOpen(w: World, source: Toml, base: Path, stack: seq<Path>, depth: nat)
    requires depth <= MAX_DEPTH + 1 && FrozenSource(w, source, base, stack, depth).Ok?
    ensures Open(w, source, base).Some?
    ensures var place := Open(w, source, base).value;
      && (forall path :: path in place.files ==> path !in stack)
      && Frozen(w, place.value, place.base, stack + place.files, depth).Ok?
      && ValidDocument(Frozen(w, place.value, place.base, stack + place.files, depth).value)
      && FrozenSource(w, source, base, stack, depth) ==
           Ok(Text(w.render(Frozen(w, place.value, place.base, stack + place.files, depth).value)))
  {}

  // Bounded and acyclic

  predicate Distinct(files: seq<Path>) {
    forall i, j :: 0 <= i < j < |files| ==> files[i] != files[j]
  }

  lemma OneMoreFile(w: World, source: Toml, base: Path, stack: seq<Path>)
    requires Open(w, source, base).Some? && Distinct(stack)
    requires forall path :: path in Open(w, source, base).value.files ==> path !in stack
    ensures Distinct(stack + Open(w, source, base).value.files)
  {
    var files := Open(w, source, base).value.files;
    assert |files| <= 1;
    forall i, j | 0 <= i < j < |stack + files| ensures (stack + files)[i] != (stack + files)[j] {
      if j == |stack| {
        assert files[0] in files;
      }
    }
  }

  /** A document that froze has no chain of children deeper than the limit, and none that
      reads a file twice or reads one that was already being read. */
  lemma {:induction false} ChainsAreBoundedAndAcyclic(w: World, value: Toml, base: Path, stack: seq<Path>, depth: nat, hops: seq<Hop>)
    requires depth <= MAX_DEPTH + 1 && Frozen(w, value, base, stack, depth).Ok?
    requires Follow(w, value, base, hops).Some? && Distinct(stack)
    ensures depth + |hops| <= MAX_DEPTH
    ensures Distinct(stack + Follow(w, value, base, hops).value.files)
    decreases |hops|
  {
    OwnersFrozen(w, value, base, stack, depth, Child);
    if hops == [] {
      assert stack + [] == stack;
    } else {
      var source := SourceAt(value, hops[0]).value;
      var place := Open(w, source, base).value;
      StepInto(w, value, base, stack, depth, hops[0]);
      ChainsAreBoundedAndAcyclic(w, place.value, place.base, stack + place.files, depth + 1, hops[1..]);
      var rest := Follow(w, place.value, place.base, hops[1..]).value.files;
      assert stack + (place.files + rest) == stack + place.files + rest;
    }
  }

  lemma StepInto(w: World, value: Toml, base: Path, stack: seq<Path>, depth: nat, hop: Hop)
    requires depth <= MAX_DEPTH && Frozen(w, value, base, stack, depth).Ok?
    requires SourceAt(value, hop).Some? && Distinct(stack)
    ensures Open(w, SourceAt(value, hop).value, base).Some?
    ensures var place := Open(w, SourceAt(value, hop).value, base).value;
      Frozen(w, place.value, place.base, stack + place.files, depth + 1).Ok? && Distinct(stack + place.files)
  {
    SourceFrozen(w, value, base, stack, depth, hop);
    FrozenIsOpen(w, SourceAt(value, hop).value, base, stack, depth + 1);
    OneMoreFile(w, SourceAt(value, hop).value, base, stack);
  }

  // Meaning

  /** A document without its children's sources. */
  function Erased(value: Toml): Toml {
    if !value.Table? then value
    else
      var child := if "child" in value.entries then value.entries["child" := ErasedOwner(value.entries["child"])] else value.entries;
      if "children" in value.entries && value.entries["children"].Array? then
        var items := value.entries["children"].items;
        Table(child["children" := Array(seq(|items|, i requires 0 <= i < |items| => ErasedOwner(items[i])))])
      else Table(child)
  }

  function ErasedOwner(owner: Toml): Toml {
    if Entry(owner, "run").None? then owner else WithRun(owner, Text(""))
  }

  lemma FrozenSameErased(w: World, value: Toml, base: Path, stack: seq<Path>, depth: nat)
    requires depth <= MAX_DEPTH + 1 && Frozen(w, value, base, stack, depth).Ok?
    ensures Erased(Frozen(w, value, base, stack, depth).value) == Erased(value)
  {
    OwnersFrozen(w, value, base, stack, depth, Child);
    var frozen := Frozen(w, value, base, stack, depth).value;
    if "children" in value.entries && value.entries["children"].Array? {
      var items := value.entries["children"].items;
      ItemsLength(w, items, base, stack, depth);
      var after := FrozenItems(w, items, base, stack, depth).value;
      forall i | 0 <= i < |items| ensures ErasedOwner(after[i]) == ErasedOwner(items[i]) {
        ItemFrozen(w, items, base, stack, depth, i);
        SameErasedOwner(w, items[i], base, stack, depth);
      }
      assert seq(|items|, i requires 0 <= i < |items| => ErasedOwner(items[i])) ==
             seq(|after|, i requires 0 <= i < |after| => ErasedOwner(after[i]));
    }
    if "child" in value.entries {
      SameErasedOwner(w, value.entries["child"], base, stack, depth);
    }
    assert Erased(frozen).entries == Erased(value).entries;
  }

  lemma SameErasedOwner(w: World, owner: Toml, base: Path, stack: seq<Path>, depth: nat)
    requires depth <= MAX_DEPTH && FrozenOwner(w, owner, base, stack, depth).Ok?
    ensures ErasedOwner(FrozenOwner(w, owner, base, stack, depth).value) == ErasedOwner(owner)
  {
    if Entry(owner, "run").Some? {
      var after := FrozenOwner(w, owner, base, stack, depth).value;
      assert after.entries["run" := Text("")] == owner.entries["run" := Text("")];
    }
  }

  /** Same reader and printer; any file system. */
  ghost predicate SameText(w: World, v: World) {
    w.parse == v.parse && w.render == v.render && w.blank == v.blank
  }

  /** The text stored for a child reads as its frozen document, without a file. */
  lemma FrozenTextOpens(w: World, v: World, source: Toml, base: Path, stack: seq<Path>, depth: nat, other: Path)
    requires Faithful(w) && SameText(w, v) && depth <= MAX_DEPTH + 1 && FrozenSource(w, source, base, stack, depth).Ok?
    ensures Open(w, source, base).Some?
    ensures var place := Open(w, source, base).value;
      var inner := Frozen(w, place.value, place.base, stack + place.files, depth);
      inner.Ok? && Open(v, FrozenSource(w, source, base, stack, depth).value, other) == Some(Place(inner.value, other, []))
  {
    FrozenIsOpen(w, source, base, stack, depth);
    var place := Open(w, source, base).value;
    OwnersFrozen(w, place.value, place.base, stack + place.files, depth, Child);
  }

  /** Through any chain of children, the frozen document leads to the document that the
      original led to, apart from sources, without reading a file. */
  lemma {:induction false} FreezingKeepsMeaning(w: World, v: World, value: Toml, base: Path, stack: seq<Path>, depth: nat,
                                                other: Path, hops: seq<Hop>)
    requires Faithful(w) && SameText(w, v) && depth <= MAX_DEPTH + 1 && Frozen(w, value, base, stack, depth).Ok?
    ensures var before := Follow(w, value, base, hops);
      var after := Follow(v, Frozen(w, value, base, stack, depth).value, other, hops);
      && before.None? == after.None?
      && (before.Some? ==> after.value.files == [] && Erased(after.value.value) == Erased(before.value.value))
    decreases |hops|
  {
    if hops == [] {
      FrozenSameErased(w, value, base, stack, depth);
    } else {
      SourceFrozen(w, value, base, stack, depth, hops[0]);
      if SourceAt(value, hops[0]).Some? {
        var source := SourceAt(value, hops[0]).value;
        FrozenTextOpens(w, v, source, base, stack, depth + 1, other);
        var place := Open(w, source, base).value;
        FreezingKeepsMeaning(w, v, place.value, place.base, stack + place.files, depth + 1, other, hops[1..]);
      }
    }
  }

  // Frozen documents

  /** Every child is a valid document, printed into its parent, and frozen itself; at most
      `levels` documents deep. */
  ghost predicate IsFrozen(w: World, value: Toml, levels: nat)
    decreases levels, 0
  {
    levels >= 1 && value.Table? &&
    forall hop :: SourceAt(value, hop).Some? ==> IsFrozenSource(w, SourceAt(value, hop).value, levels - 1)
  }

  ghost predicate IsFrozenSource(w: World, source: Toml, levels: nat)
    decreases levels, 1
  {
    source.Text? && w.parse(source.text).Some? &&
    var inner := w.parse(source.text).value;
    w.render(inner) == source.text && ValidDocument(inner) && IsFrozen(w, inner, levels)
  }

  lemma {:induction false} FreezingFreezes(w: World, value: Toml, base: Path, stack: seq<Path>, depth: nat)
    requires Faithful(w) && depth <= MAX_DEPTH + 1 && Frozen(w, value, base, stack, depth).Ok?
    ensures IsFrozen(w, Frozen(w, value, base, stack, depth).value, MAX_DEPTH + 1 - depth)
    decreases MAX_DEPTH + 1 - depth, 0
  {
    OwnersFrozen(w, value, base, stack, depth, Child);
    var frozen := Frozen(w, value, base, stack, depth).value;
    forall hop | SourceAt(frozen, hop).Some? ensures IsFrozenSource(w, SourceAt(frozen, hop).value, MAX_DEPTH - depth) {
      SourceFrozen(w, value, base, stack, depth, hop);
      FreezingFreezesSource(w, SourceAt(value, hop).value, base, stack, depth + 1);
    }
  }

  lemma {:induction false} FreezingFreezesSource(w: World, source: Toml, base: Path, stack: seq<Path>, depth: nat)
    requires Faithful(w) && depth <= MAX_DEPTH + 1 && FrozenSource(w, source, base, stack, depth).Ok?
    ensures IsFrozenSource(w, FrozenSource(w, source, base, stack, depth).value, MAX_DEPTH + 1 - depth)
    decreases MAX_DEPTH + 1 - depth, 1
  {
    FrozenIsOpen(w, source, base, stack, depth);
    var place := Open(w, source, base).value;
    FreezingFreezes(w, place.value, place.base, stack + place.files, depth);
  }

  /** No file reference is left, at any depth. */
  lemma {:induction false} FrozenHasNoFiles(w: World, v: World, value: Toml, levels: nat, base: Path, hops: seq<Hop>, hop: Hop)
    requires IsFrozen(w, value, levels) && SameText(w, v) && Follow(v, value, base, hops).Some?
    ensures var source := SourceAt(Follow(v, value, base, hops).value.value, hop);
      source.None? || source.value.Text?
    decreases |hops|
  {
    if hops == [] {
      assert SourceAt(value, hop).Some? ==> IsFrozenSource(w, SourceAt(value, hop).value, levels - 1);
    } else {
      assert IsFrozenSource(w, SourceAt(value, hops[0]).value, levels - 1);
      var inner := w.parse(SourceAt(value, hops[0]).value.text).value;
      FrozenHasNoFiles(w, v, inner, levels - 1, base, hops[1..], hop);
    }
  }
}
