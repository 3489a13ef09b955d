/** Freezing twice, and what makes freezing fail. */
module FreezeAgain {
  import opened Basics
  import opened Documents
  import opened Freeze
  import opened FreezeFacts
  import opened TomlValue

  // Freezing a frozen document

  /** No child document prints as blank text. Only the empty table does. */
  ghost predicate NoBlank(w: World, value: Toml, levels: nat)
    decreases levels, 0
  {
    levels >= 1 &&
    forall hop :: SourceAt(value, hop).Some? ==> NoBlankSource(w, SourceAt(value, hop).value, levels - 1)
  }

  ghost predicate NoBlankSource(w: World, source: Toml, levels: nat)
    decreases levels, 1
  {
    source.Text? && !w.blank(source.text) && w.parse(source.text).Some? && NoBlank(w, w.parse(source.text).value, levels)
  }

  /** Freezing this child changes nothing, or finds blank text. */
  ghost predicate Stable(w: World, owner: Toml, base: Path, stack: seq<Path>, depth: nat)
    requires depth <= MAX_DEPTH
  {
    FrozenOwner(w, owner, base, stack, depth) in {Ok(owner), Err(Blank)}
  }

  lemma {:induction false} StableItems(w: World, items: seq<Toml>, base: Path, stack: seq<Path>, depth: nat)
    requires depth <= MAX_DEPTH && forall i :: 0 <= i < |items| ==> Stable(w, items[i], base, stack, depth)
    ensures FrozenItems(w, items, base, stack, depth) ==
      if forall i :: 0 <= i < |items| ==> FrozenOwner(w, items[i], base, stack, depth).Ok? then Ok(items) else Err(Blank)
    decreases |items|
  {
    if items != [] {
      var n := |items| - 1;
      StableItems(w, items[..n], base, stack, depth);
      assert Stable(w, items[n], base, stack, depth);
      assert items == items[..n] + [items[n]];
      assert forall i :: 0 <= i < n ==> items[..n][i] == items[i];
    }
  }

  lemma StableChildren(w: World, value: Toml, base: Path, stack: seq<Path>, depth: nat)
    requires depth <= MAX_DEPTH && value.Table?
    requires forall i: nat :: OwnerAt(value, Item(i)).Some? ==> Stable(w, OwnerAt(value, Item(i)).value, base, stack, depth)
    ensures FrozenChildren(w, value, base, stack, depth) ==
      if forall i: nat :: OwnerAt(value, Item(i)).Some? ==>
           FrozenOwner(w, OwnerAt(value, Item(i)).value, base, stack, depth).Ok?
      then Ok(value) else Err(Blank)
  {
    var children := Entry(value, "children");
    if children.Some? && children.value.Array? {
      var items := children.value.items;
      forall i | 0 <= i < |items| ensures Stable(w, items[i], base, stack, depth) {
        assert OwnerAt(value, Item(i)) == Some(items[i]);
      }
      StableItems(w, items, base, stack, depth);
      assert WithEntry(value, "children", Array(items)) == value;
      assert forall i :: 0 <= i < |items| ==> OwnerAt(value, Item(i)) == Some(items[i]);
      assert forall i: nat :: OwnerAt(value, Item(i)).Some? ==> i < |items|;
    }
  }

  lemma StableDocument(w: World, value: Toml, base: Path, stack: seq<Path>, depth: nat)
    requires depth <= MAX_DEPTH && value.Table?
    requires forall hop :: OwnerAt(value, hop).Some? ==> Stable(w, OwnerAt(value, hop).value, base, stack, depth)
    ensures Frozen(w, value, base, stack, depth) ==
      if forall hop :: OwnerAt(value, hop).Some? ==> FrozenOwner(w, OwnerAt(value, hop).value, base, stack, depth).Ok?
      then Ok(value) else Err(Blank)
  {
    StableChildren(w, value, base, stack, depth);
    var child := Entry(value, "child");
    assert OwnerAt(value, Child) == child;
    if child.Some? {
      assert Stable(w, child.value, base, stack, depth);
      assert WithEntry(value, "child", child.value) == value;
    }
    assert forall hop :: hop == Child || hop == Item(if hop.Item? then hop.index else 0);
  }

  lemma {:induction false} FreezeTwice(w: World, v: World, value: Toml, levels: nat, base: Path, stack: seq<Path>, depth: nat)
    requires SameText(w, v) && IsFrozen(w, value, levels) && levels + depth <= MAX_DEPTH + 1
    ensures Frozen(v, value, base, stack, depth) == if NoBlank(w, value, levels) then Ok(value) else Err(Blank)
    decreases levels, 0
  {
    forall hop | OwnerAt(value, hop).Some?
      ensures Stable(v, OwnerAt(value, hop).value, base, stack, depth)
      ensures FrozenOwner(v, OwnerAt(value, hop).value, base, stack, depth).Ok? <==>
        (SourceAt(value, hop).Some? ==> NoBlankSource(w, SourceAt(value, hop).value, levels - 1))
    {
      if SourceAt(value, hop).Some? {
        assert IsFrozenSource(w, SourceAt(value, hop).value, levels - 1);
        FreezeSourceTwice(w, v, SourceAt(value, hop).value, levels - 1, base, stack, depth + 1);
        var owner := OwnerAt(value, hop).value;
        assert WithRun(owner, SourceAt(value, hop).value) == owner;
      }
    }
    StableDocument(v, value, base, stack, depth);
    assert forall hop :: SourceAt(value, hop).Some? ==> OwnerAt(value, hop).Some?;
  }

  lemma {:induction false} FreezeSourceTwice(w: World, v: World, source: Toml, levels: nat, base: Path, stack: seq<Path>, depth: nat)
    requires SameText(w, v) && IsFrozenSource(w, source, levels) && levels + depth <= MAX_DEPTH + 1
    ensures FrozenSource(v, source, base, stack, depth) == if NoBlankSource(w, source, levels) then Ok(source) else Err(Blank)
    decreases levels, 1
  {
    if !w.blank(source.text) {
      FreezeTwice(w, v, w.parse(source.text).value, levels, base, stack + [], depth);
    }
  }

  /** Freezing what has been frozen changes nothing, with any file system, exactly when no
      child document is blank; otherwise it is rejected for that reason. */
  lemma FreezingIsIdempotentUnlessBlank(w: World, v: World, value: Toml, base: Path, stack: seq<Path>, depth: nat,
                                        other: Path, others: seq<Path>, frozen: Toml)
    requires Faithful(w) && SameText(w, v) && depth <= MAX_DEPTH + 1 && Frozen(w, value, base, stack, depth) == Ok(frozen)
    ensures Frozen(v, frozen, other, others, depth) ==
      if NoBlank(w, frozen, MAX_DEPTH + 1 - depth) then Ok(frozen) else Err(Blank)
  {
    FreezingFreezes(w, value, base, stack, depth);
    assert IsFrozen(w, frozen, MAX_DEPTH + 1 - depth);
    FreezeTwice(w, v, frozen, MAX_DEPTH + 1 - depth, other, others, depth);
  }

  /** A scan, or a tuning, of the document that a text holds. */
  function Of(scan: map<string, Toml>, text: string): Toml {
    Table(scan["child" := Table(map["run" := Text(text)])])
  }

  /** A child given as text is read without touching the stack. */
  lemma InlineText(w: World, text: string, base: Path, stack: seq<Path>, depth: nat)
    requires depth <= MAX_DEPTH + 1 && !w.blank(text) && w.parse(text).Some?
    ensures Resolved(w, Inline(text), base, stack, depth) ==
      var frozen := Frozen(w, w.parse(text).value, base, stack, depth);
      if frozen.Ok? && !ValidDocument(frozen.value) then Err(Invalid) else frozen
  {
    assert stack + [] == stack;
    assert Read(w, Inline(text), base, stack) == Ok(Place(w.parse(text).value, base, []));
  }

  /** It does happen: a child whose text is, say, only a comment. */
  lemma CommentOnlyChild(w: World, scan: map<string, Toml>, text: string, base: Path, stack: seq<Path>, depth: nat)
    requires "children" !in scan && depth < MAX_DEPTH
    requires !w.blank(text) && w.parse(text) == Some(Table(map[]))
    ensures Frozen(w, Of(scan, text), base, stack, depth) == Ok(Of(scan, w.render(Table(map[]))))
    ensures w.blank(w.render(Table(map[]))) ==>
      Frozen(w, Of(scan, w.render(Table(map[]))), base, stack, depth) == Err(Blank)
  {
    var empty := Table(map[]);
    assert Kind(empty) == Some("integration") && ValidDocument(empty);
    assert Entry(empty, "child").None? && Entry(empty, "children").None?;
    assert Frozen(w, empty, base, stack, depth + 1) == Ok(empty);
    InlineText(w, text, base, stack, depth + 1);
    OneChild(w, scan, text, base, stack, depth);
    if w.blank(w.render(empty)) {
      assert Resolved(w, Inline(w.render(empty)), base, stack, depth + 1) == Err(Blank);
      OneChild(w, scan, w.render(empty), base, stack, depth);
    }
  }

  /** With one child, freezing is freezing that child. */
  lemma OneChild(w: World, scan: map<string, Toml>, text: string, base: Path, stack: seq<Path>, depth: nat)
    requires "children" !in scan && depth <= MAX_DEPTH
    ensures Frozen(w, Of(scan, text), base, stack, depth) ==
      var inner := Resolved(w, Inline(text), base, stack, depth + 1);
      if inner.Err? then inner else Ok(Of(scan, w.render(inner.value)))
  {
    var owner := Table(map["run" := Text(text)]);
    var inner := Resolved(w, Inline(text), base, stack, depth + 1);
    assert Entry(Of(scan, text), "child") == Some(owner);
    OneOwner(w, text, base, stack, depth);
    if inner.Ok? {
      var frozen := Of(scan, w.render(inner.value));
      assert WithEntry(Of(scan, text), "child", Table(map["run" := Text(w.render(inner.value))])) == frozen;
      assert Entry(frozen, "children").None?;
    }
  }

  lemma OneOwner(w: World, text: string, base: Path, stack: seq<Path>, depth: nat)
    requires depth <= MAX_DEPTH
    ensures FrozenOwner(w, Table(map["run" := Text(text)]), base, stack, depth) ==
      var inner := Resolved(w, Inline(text), base, stack, depth + 1);
      if inner.Err? then inner else Ok(Table(map["run" := Text(w.render(inner.value))]))
  {
    var owner := Table(map["run" := Text(text)]);
    assert Entry(owner, "run") == Some(Text(text)) && SourceOf(Text(text)) == Some(Inline(text));
    var inner := Resolved(w, Inline(text), base, stack, depth + 1);
    if inner.Ok? {
      assert owner.entries["run" := Text(w.render(inner.value))] == map["run" := Text(w.render(inner.value))];
    }
  }

  // Why freezing fails

  /** The reason is local to this document: the limit, its shape, or one of its sources. */
  ghost predicate FailsHere(w: World, value: Toml, base: Path, stack: seq<Path>, depth: nat, why: Failure) {
    || (why == TooDeep && depth == MAX_DEPTH + 1)
    || (why == NotATable && !value.Table?)
    || (exists hop :: SourceAt(value, hop).Some? && SourceFails(w, SourceAt(value, hop).value, base, stack, why))
  }

  /** It is not a source; it cannot be read, or is being read already; or what it holds is not
      a valid document. */
  ghost predicate SourceFails(w: World, source: Toml, base: Path, stack: seq<Path>, why: Failure) {
    || (why == BadSource && SourceOf(source).None?)
    || (SourceOf(source).Some? && Read(w, SourceOf(source).value, base, stack) == Err(why))
    || (why == Invalid && Open(w, source, base).Some? && !ValidDocument(Open(w, source, base).value.value))
  }

  lemma {:induction false} FailingItem(w: World, items: seq<Toml>, base: Path, stack: seq<Path>, depth: nat) returns (i: nat)
    requires depth <= MAX_DEPTH && FrozenItems(w, items, base, stack, depth).Err?
    ensures i < |items| && FrozenOwner(w, items[i], base, stack, depth) == Err(FrozenItems(w, items, base, stack, depth).error)
    decreases |items|
  {
    if FrozenItems(w, items[..|items| - 1], base, stack, depth).Err? {
      i := FailingItem(w, items[..|items| - 1], base, stack, depth);
    } else {
      i := |items| - 1;
    }
  }

  lemma FailingChild(w: World, value: Toml, base: Path, stack: seq<Path>, depth: nat) returns (hop: Hop)
    requires depth <= MAX_DEPTH && value.Table? && Frozen(w, value, base, stack, depth).Err?
    ensures SourceAt(value, hop).Some?
    ensures FrozenSource(w, SourceAt(value, hop).value, base, stack, depth + 1) == Err(Frozen(w, value, base, stack, depth).error)
  {
    var child := Entry(value, "child");
    if child.Some? && FrozenOwner(w, child.value, base, stack, depth).Err? {
      hop := Child;
    } else {
      var i := FailingItem(w, Entry(value, "children").value.items, base, stack, depth);
      hop := Item(i);
    }
  }

  /** Freezing a document does not change whether it is valid. */
  lemma SameVerdict(w: World, value: Toml, base: Path, stack: seq<Path>, depth: nat)
    requires depth <= MAX_DEPTH + 1 && Frozen(w, value, base, stack, depth).Ok?
    ensures ValidDocument(Frozen(w, value, base, stack, depth).value) <==> ValidDocument(value)
  {
    OnlyChildrenChange(w, value, base, stack, depth);
    SameFieldsSameVerdict(value, Frozen(w, value, base, stack, depth).value);
  }

  predicate SameButChildren(a: Toml, b: Toml) {
    a.Table? && b.Table? && a.entries.Keys == b.entries.Keys &&
    forall key :: key in a.entries && key != "child" && key != "children" ==> a.entries[key] == b.entries[key]
  }

  lemma OnlyChildrenChange(w: World, value: Toml, base: Path, stack: seq<Path>, depth: nat)
    requires depth <= MAX_DEPTH + 1 && Frozen(w, value, base, stack, depth).Ok?
    ensures SameButChildren(value, Frozen(w, value, base, stack, depth).value)
  {}

  lemma SameFieldsSameVerdict(a: Toml, b: Toml)
    requires SameButChildren(a, b)
    ensures ValidDocument(a) <==> ValidDocument(b)
  {
    assert Kind(a) == Kind(b);
    assert ValidTasks(a) == ValidTasks(b);
  }

  /** Otherwise the document it holds fails to freeze, for the same reason. */
  lemma DeeperReason(w: World, source: Toml, base: Path, stack: seq<Path>, depth: nat)
    requires depth <= MAX_DEPTH + 1 && FrozenSource(w, source, base, stack, depth).Err?
    requires !SourceFails(w, source, base, stack, FrozenSource(w, source, base, stack, depth).error)
    ensures Open(w, source, base).Some?
    ensures var place := Open(w, source, base).value;
      Frozen(w, place.value, place.base, stack + place.files, depth) == Err(FrozenSource(w, source, base, stack, depth).error)
  {
    var place := Open(w, source, base).value;
    assert Read(w, SourceOf(source).value, base, stack) == Ok(place);
    if Frozen(w, place.value, place.base, stack + place.files, depth).Ok? {
      SameVerdict(w, place.value, place.base, stack + place.files, depth);
    }
  }

  lemma FollowFrom(w: World, value: Toml, base: Path, hop: Hop, rest: seq<Hop>)
    requires SourceAt(value, hop).Some? && Open(w, SourceAt(value, hop).value, base).Some?
    requires var place := Open(w, SourceAt(value, hop).value, base).value; Follow(w, place.value, place.base, rest).Some?
    ensures var place := Open(w, SourceAt(value, hop).value, base).value;
      var end := Follow(w, place.value, place.base, rest).value;
      Follow(w, value, base, [hop] + rest) == Some(Place(end.value, end.base, place.files + end.files))
  {
    assert ([hop] + rest)[1..] == rest;
  }

  /** A failure always has its reason at the end of some chain of children. */
  lemma {:induction false} FailureHasAReason(w: World, value: Toml, base: Path, stack: seq<Path>, depth: nat) returns (hops: seq<Hop>)
    requires depth <= MAX_DEPTH + 1 && Frozen(w, value, base, stack, depth).Err?
    ensures depth + |hops| <= MAX_DEPTH + 1 && Follow(w, value, base, hops).Some?
    ensures var end := Follow(w, value, base, hops).value;
      FailsHere(w, end.value, end.base, stack + end.files, depth + |hops|, Frozen(w, value, base, stack, depth).error)
    decreases MAX_DEPTH + 1 - depth
  {
    var why := Frozen(w, value, base, stack, depth).error;
    if FailsHere(w, value, base, stack, depth, why) {
      assert stack + [] == stack;
      hops := [];
    } else {
      var hop := FailingChild(w, value, base, stack, depth);
      var source := SourceAt(value, hop).value;
      DeeperReason(w, source, base, stack, depth + 1);
      var place := Open(w, source, base).value;
      var rest := FailureHasAReason(w, place.value, place.base, stack + place.files, depth + 1);
      FollowFrom(w, value, base, hop, rest);
      hops := [hop] + rest;
      assert stack + place.files + Follow(w, place.value, place.base, rest).value.files ==
             stack + (place.files + Follow(w, place.value, place.base, rest).value.files);
    }
  }
}
