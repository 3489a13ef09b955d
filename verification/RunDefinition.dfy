/** A run document from submission to its stored form, and back. */
module RunDefinition {
  import opened Basics
  import opened Documents
  import opened Expansion
  import opened Freeze
  import opened FreezeAgain
  import opened FreezeFacts
  import opened Template
  import opened TomlValue

  datatype Definition = Definition(name: string, original: string, effective: Toml)

  datatype Rejection = NotToml | CannotFreeze(why: Failure) | BadBindings | BadTemplate | BadDocument | NoName | BadBody

  /** Reading and printing documents, the file system, placeholders, and the fields of the
      typed body, apart from the sources of its children. */
  datatype Context = Context(world: World, toolkit: Toolkit, accepts: Toml -> bool)

  function Name(k: Toolkit, effective: Toml): Option<string> {
    match Entry(effective, "name")
    case Some(Text(name)) => if k.trim(name) == "" then None else Some(k.trim(name))
    case _ => None
  }

  /** A child's source in the typed body: a text or a file name, and not a blank one. */
  predicate FilledOwner(w: World, owner: Toml) {
    match Entry(owner, "run")
    case None => true
    case Some(run) =>
      match SourceOf(run)
      case None => false
      case Some(Inline(text)) => !w.blank(text)
      case Some(File(file)) => !w.blank(file)
  }

  predicate Filled(w: World, effective: Toml) {
    && (Entry(effective, "child").Some? ==> FilledOwner(w, Entry(effective, "child").value))
    && match Entry(effective, "children")
       case Some(Array(items)) => forall i :: 0 <= i < |items| ==> FilledOwner(w, items[i])
       case _ => true
  }

  /** The checks and the name of an expanded document. */
  function Checked(c: Context, original: string, effective: Toml): Result<Definition, Rejection> {
    if !ValidDocument(effective) then Err(BadDocument)
    else if Name(c.toolkit, effective).None? then Err(NoName)
    else if !c.accepts(effective) || !Filled(c.world, effective) then Err(BadBody)
    else Ok(Definition(Name(c.toolkit, effective).value, original, effective))
  }

  /** Bind, print, expand, check: what is done with a frozen document. */
  function Filed(c: Context, frozen: Toml, bindings: Replacements): Result<Definition, Rejection> {
    var bound := Bind(frozen, bindings);
    if bound.None? then Err(BadBindings)
    else
      var effective := Effective(c.toolkit, bound.value);
      if effective.None? then Err(BadTemplate) else Checked(c, c.world.render(bound.value), effective.value)
  }

  /** Freeze first. */
  function Instance(c: Context, value: Toml, bindings: Replacements, base: Path): Result<Definition, Rejection> {
    var frozen := Frozen(c.world, value, base, [], 0);
    if frozen.Err? then Err(CannotFreeze(frozen.error))
    else Filed(c, frozen.value, bindings)
  }

  method Instantiate(c: Context, value: Toml, bindings: Replacements, base: Path) returns (r: Result<Definition, Rejection>)
    ensures r == Instance(c, value, bindings, base)
  {
    var freezer := new Freezer(c.world);
    var frozen := freezer.FreezeSources(value, base, 0);
    if frozen.Err? {
      return Err(CannotFreeze(frozen.error));
    }
    var bound := Bind(frozen.value, bindings);
    if bound.None? {
      return Err(BadBindings);
    }
    var effective, used := ExpandTemplate(c.toolkit, bound.value);
    r := if effective.None? then Err(BadTemplate) else Checked(c, c.world.render(bound.value), effective.value);
  }

  /** A submitted text is kept as it is when nothing was bound and nothing had to be frozen. */
  function Parsed(c: Context, raw: string, bindings: Replacements, base: Path): Result<Definition, Rejection> {
    var value := c.world.parse(raw);
    if value.None? then Err(NotToml)
    else
      var config := Instance(c, value.value, bindings, base);
      if config.Ok? && bindings == map[] && c.world.parse(config.value.original) == value
      then Ok(config.value.(original := raw))
      else config
  }

  function ChildInstance(c: Context, source: Source, bindings: Replacements, base: Path): Result<Definition, Rejection> {
    var value := Resolved(c.world, source, base, [], 1);
    if value.Err? then Err(CannotFreeze(value.error)) else Instance(c, value.value, bindings, base)
  }

  /** The same readers and checks, on any file system. */
  ghost predicate Elsewhere(c: Context, d: Context) {
    SameText(c.world, d.world) && c.toolkit == d.toolkit && c.accepts == d.accepts
  }

  lemma BoundIsFrozen(w: World, value: Toml, levels: nat, bindings: Replacements)
    requires IsFrozen(w, value, levels) && Bind(value, bindings).Some?
    ensures IsFrozen(w, Bind(value, bindings).value, levels)
  {
    var bound := Bind(value, bindings).value;
    forall hop | SourceAt(bound, hop).Some? ensures IsFrozenSource(w, SourceAt(bound, hop).value, levels - 1) {
      assert SourceAt(bound, hop) == SourceAt(value, hop);
      assert IsFrozenSource(w, SourceAt(value, hop).value, levels - 1);
    }
  }

  /** What is printed and stored is a frozen document. */
  lemma StoredIsFrozen(w: World, value: Toml, bindings: Replacements, base: Path)
    requires Faithful(w) && Frozen(w, value, base, [], 0).Ok? && Bind(Frozen(w, value, base, [], 0).value, bindings).Some?
    ensures var bound := Bind(Frozen(w, value, base, [], 0).value, bindings).value;
      bound.Table? && IsFrozen(w, bound, MAX_DEPTH + 1) && w.parse(w.render(bound)) == Some(bound)
  {
    FreezingFreezes(w, value, base, [], 0);
    BoundIsFrozen(w, Frozen(w, value, base, [], 0).value, MAX_DEPTH + 1, bindings);
  }

  /** What is read back from the store is frozen, and expands and checks as before. */
  lemma StoredForm(c: Context, value: Toml, bindings: Replacements, base: Path) returns (stored: Toml)
    requires Faithful(c.world) && Instance(c, value, bindings, base).Ok?
    ensures var config := Instance(c, value, bindings, base);
      && c.world.parse(config.value.original) == Some(stored) && IsFrozen(c.world, stored, MAX_DEPTH + 1)
      && Effective(c.toolkit, stored) == Some(config.value.effective) && Filled(c.world, config.value.effective)
      && Filed(c, stored, map[]) == config
  {
    StoredIsFrozen(c.world, value, bindings, base);
    stored := Bind(Frozen(c.world, value, base, [], 0).value, bindings).value;
  }

  // Children in the expanded document

  /** Expansion leaves the children's sources as they are. */
  lemma SameSources(k: Toolkit, value: Toml, hop: Hop)
    requires Effective(k, value).Some? && SourceAt(value, hop).Some?
    ensures SourceAt(Effective(k, value).value, hop) == SourceAt(value, hop)
  {
    var effective, r := Effective(k, value).value, Extract(value).value;
    var key := if hop.Child? then "child" else "children";
    assert Readable(k, value.entries[key], false);
    assert effective.entries[key] == Substitute(k, r, value.entries[key], false);
    assert OwnerAt(effective, hop) == Some(Substitute(k, r, OwnerAt(value, hop).value, false));
  }

  /** So in an accepted document no child is blank; inside its children some may be. */
  ghost predicate NoBlankBelow(w: World, value: Toml) {
    forall hop :: SourceAt(value, hop).Some? ==> NoBlankIn(w, SourceAt(value, hop).value)
  }

  ghost predicate NoBlankIn(w: World, source: Toml) {
    source.Text? && w.parse(source.text).Some? && NoBlank(w, w.parse(source.text).value, MAX_DEPTH)
  }

  lemma FilledSource(w: World, value: Toml, hop: Hop)
    requires Filled(w, value) && SourceAt(value, hop).Some? && SourceAt(value, hop).value.Text?
    ensures !w.blank(SourceAt(value, hop).value.text)
  {
    if hop.Item? {
      assert FilledOwner(w, Entry(value, "children").value.items[hop.index]);
    }
  }

  lemma OnlyBelow(c: Context, value: Toml)
    requires IsFrozen(c.world, value, MAX_DEPTH + 1)
    requires Effective(c.toolkit, value).Some? && Filled(c.world, Effective(c.toolkit, value).value)
    ensures NoBlank(c.world, value, MAX_DEPTH + 1) <==> NoBlankBelow(c.world, value)
  {
    forall hop | SourceAt(value, hop).Some?
      ensures NoBlankSource(c.world, SourceAt(value, hop).value, MAX_DEPTH) <==> NoBlankIn(c.world, SourceAt(value, hop).value)
    {
      assert IsFrozenSource(c.world, SourceAt(value, hop).value, MAX_DEPTH);
      SameSources(c.toolkit, value, hop);
      FilledSource(c.world, Effective(c.toolkit, value).value, hop);
    }
  }

  // Once more

  /** Nothing of this depends on the file system. */
  lemma SameFiling(c: Context, d: Context, frozen: Toml, bindings: Replacements)
    requires Elsewhere(c, d)
    ensures Filed(d, frozen, bindings) == Filed(c, frozen, bindings)
  {}

  /** A frozen document needs no file to be instantiated. */
  lemma FrozenInstance(c: Context, d: Context, value: Toml, bindings: Replacements, base: Path)
    requires Elsewhere(c, d) && IsFrozen(c.world, value, MAX_DEPTH + 1)
    ensures Instance(d, value, bindings, base) ==
      if NoBlank(c.world, value, MAX_DEPTH + 1) then Filed(c, value, bindings) else Err(CannotFreeze(Blank))
  {
    FreezeTwice(c.world, d.world, value, MAX_DEPTH + 1, base, [], 0);
    SameFiling(c, d, value, bindings);
  }

  /** Reading back the stored document and instantiating it with no bindings, on any file
      system, gives the same definition; unless some document inside a child has a blank
      child, and then it is rejected for that. */
  lemma InstantiatingAgain(c: Context, d: Context, value: Toml, bindings: Replacements, base: Path, other: Path)
    requires Faithful(c.world) && Elsewhere(c, d) && Instance(c, value, bindings, base).Ok?
    ensures var config := Instance(c, value, bindings, base);
      var stored := c.world.parse(config.value.original);
      && stored.Some?
      && Instance(d, stored.value, map[], other) ==
           if NoBlankBelow(c.world, stored.value) then config else Err(CannotFreeze(Blank))
  {
    var stored := StoredForm(c, value, bindings, base);
    FrozenInstance(c, d, stored, map[], other);
    OnlyBelow(c, stored);
  }

  /** The same for submitted text: the stored text parses to the same definition and is kept. */
  lemma ParsingAgain(c: Context, d: Context, raw: string, bindings: Replacements, base: Path, other: Path)
    requires Faithful(c.world) && Elsewhere(c, d) && Parsed(c, raw, bindings, base).Ok?
    ensures var config := Parsed(c, raw, bindings, base);
      var stored := c.world.parse(config.value.original);
      && stored.Some?
      && Parsed(d, config.value.original, map[], other) ==
           if NoBlankBelow(c.world, stored.value) then config else Err(CannotFreeze(Blank))
  {
    var value := c.world.parse(raw).value;
    InstantiatingAgain(c, d, value, bindings, base, other);
  }

  /** The rejection happens: a scan of a scan of a document that is only a comment is accepted
      and stored, but its stored form is not accepted again. */
  lemma BlankGrandchild(c: Context, scan: map<string, Toml>, comment: string, base: Path)
    requires Faithful(c.world) && forall value: Toml :: c.world.blank(c.world.render(value)) <==> value == Table(map[])
    requires !c.world.blank(comment) && c.world.parse(comment) == Some(Table(map[]))
    requires "children" !in scan && ValidDocument(Of(scan, comment))
    requires var stored := Of(scan, c.world.render(Of(scan, c.world.render(Table(map[])))));
      var effective := Effective(c.toolkit, stored);
      effective.Some? && ValidDocument(effective.value) && Name(c.toolkit, effective.value).Some? && c.accepts(effective.value)
    ensures var config := Instance(c, Of(scan, c.world.render(Of(scan, comment))), map[], base);
      && config.Ok? && c.world.parse(config.value.original).Some?
      && Instance(c, c.world.parse(config.value.original).value, map[], base) == Err(CannotFreeze(Blank))
  {
    var w := c.world;
    var frozen := Of(scan, w.render(Table(map[])));
    assert "child" in frozen.entries && "child" in Of(scan, comment).entries;
    ScanOfScan(w, scan, comment, base);
    ScanIsFilled(c, scan, w.render(frozen));
    BlankInside(w, scan, w.render(Table(map[])), base);
  }

  lemma SameScan(scan: map<string, Toml>, a: string, b: string)
    ensures ValidDocument(Of(scan, a)) <==> ValidDocument(Of(scan, b))
  {
    SameFieldsSameVerdict(Of(scan, a), Of(scan, b));
  }

  /** The inner scan is frozen into the outer one. */
  lemma ScanOfScan(w: World, scan: map<string, Toml>, comment: string, base: Path)
    requires Faithful(w) && !w.blank(comment) && w.parse(comment) == Some(Table(map[]))
    requires "children" !in scan && ValidDocument(Of(scan, comment)) && !w.blank(w.render(Of(scan, comment)))
    ensures Frozen(w, Of(scan, w.render(Of(scan, comment))), base, [], 0) ==
      Ok(Of(scan, w.render(Of(scan, w.render(Table(map[]))))))
  {
    var inner, frozen := Of(scan, comment), Of(scan, w.render(Table(map[])));
    CommentOnlyChild(w, scan, comment, base, [], 1);
    SameScan(scan, comment, w.render(Table(map[])));
    OuterScan(w, scan, w.render(inner), inner, frozen, base);
  }

  lemma OuterScan(w: World, scan: map<string, Toml>, text: string, inner: Toml, frozen: Toml, base: Path)
    requires "children" !in scan && !w.blank(text) && w.parse(text) == Some(inner)
    requires Frozen(w, inner, base, [], 1) == Ok(frozen) && ValidDocument(frozen)
    ensures Frozen(w, Of(scan, text), base, [], 0) == Ok(Of(scan, w.render(frozen)))
  {
    InlineText(w, text, base, [], 1);
    OneChild(w, scan, text, base, [], 0);
  }

  /** And cannot be frozen from there. */
  lemma BlankInside(w: World, scan: map<string, Toml>, blank: string, base: Path)
    requires Faithful(w) && w.blank(blank) && "children" !in scan && !w.blank(w.render(Of(scan, blank)))
    ensures Frozen(w, Of(scan, w.render(Of(scan, blank))), base, [], 0) == Err(Blank)
  {
    var text := w.render(Of(scan, blank));
    OneChild(w, scan, blank, base, [], 1);
    InlineText(w, text, base, [], 1);
    OneChild(w, scan, text, base, [], 0);
  }

  lemma ScanIsFilled(c: Context, scan: map<string, Toml>, text: string)
    requires "children" !in scan && !c.world.blank(text) && Effective(c.toolkit, Of(scan, text)).Some?
    ensures Filled(c.world, Effective(c.toolkit, Of(scan, text)).value)
  {
    var value := Of(scan, text);
    assert Entry(Table(map["run" := Text(text)]), "run") == Some(Text(text));
    SameSources(c.toolkit, value, Child);
  }

  // Created runs

  /** Creating a run instantiates each child of its definition once, with bindings of its own
      and one value for every parameter. */
  ghost predicate Preflighted(c: Context, effective: Toml, representative: Hop -> Replacements, base: Path) {
    forall hop :: SourceAt(effective, hop).Some? ==>
      && SourceOf(SourceAt(effective, hop).value).Some?
      && ChildInstance(c, SourceOf(SourceAt(effective, hop).value).value, representative(hop), base).Ok?
  }

  /** Whatever is created can always be instantiated again from what is stored. */
  lemma CreatedRunsReload(c: Context, d: Context, value: Toml, bindings: Replacements, base: Path, other: Path,
                          representative: Hop -> Replacements, here: Path)
    requires Faithful(c.world) && Elsewhere(c, d) && Instance(c, value, bindings, base).Ok?
    requires Preflighted(c, Instance(c, value, bindings, base).value.effective, representative, here)
    ensures var config := Instance(c, value, bindings, base);
      var stored := c.world.parse(config.value.original);
      stored.Some? && Instance(d, stored.value, map[], other) == config
  {
    InstantiatingAgain(c, d, value, bindings, base, other);
    var stored := StoredForm(c, value, bindings, base);
    PreflightedBelow(c, stored, representative, here);
  }

  lemma PreflightedBelow(c: Context, stored: Toml, representative: Hop -> Replacements, base: Path)
    requires IsFrozen(c.world, stored, MAX_DEPTH + 1) && Effective(c.toolkit, stored).Some?
    requires Preflighted(c, Effective(c.toolkit, stored).value, representative, base)
    ensures NoBlankBelow(c.world, stored)
  {
    forall hop | SourceAt(stored, hop).Some? ensures NoBlankIn(c.world, SourceAt(stored, hop).value) {
      assert IsFrozenSource(c.world, SourceAt(stored, hop).value, MAX_DEPTH);
      SameSources(c.toolkit, stored, hop);
      PreflightedChild(c, SourceAt(stored, hop).value.text, representative(hop), base);
    }
  }

  lemma PreflightedChild(c: Context, text: string, bindings: Replacements, base: Path)
    requires IsFrozenSource(c.world, Text(text), MAX_DEPTH) && ChildInstance(c, Inline(text), bindings, base).Ok?
    ensures NoBlankIn(c.world, Text(text))
  {
    FrozenChildResolves(c.world, c.world, text, base);
  }

  lemma FrozenChildResolves(w: World, v: World, text: string, base: Path)
    requires SameText(w, v) && IsFrozenSource(w, Text(text), MAX_DEPTH)
    ensures Resolved(v, Inline(text), base, [], 1) ==
      if NoBlankSource(w, Text(text), MAX_DEPTH) then Ok(w.parse(text).value) else Err(Blank)
  {
    if !w.blank(text) {
      FreezeTwice(w, v, w.parse(text).value, MAX_DEPTH, base, [], 1);
      InlineText(v, text, base, [], 1);
    }
  }

  /** A frozen child freezes to itself at any level, or is rejected. */
  lemma FrozenChildInstance(c: Context, d: Context, text: string, bindings: Replacements, base: Path)
    requires Elsewhere(c, d) && IsFrozenSource(c.world, Text(text), MAX_DEPTH)
    ensures ChildInstance(d, Inline(text), bindings, base) ==
      if NoBlankSource(c.world, Text(text), MAX_DEPTH) then Filed(c, c.world.parse(text).value, bindings)
      else Err(CannotFreeze(Blank))
  {
    FrozenChildResolves(c.world, d.world, text, base);
    FreezeTwice(c.world, d.world, c.world.parse(text).value, MAX_DEPTH, base, [], 0);
    SameFiling(c, d, c.world.parse(text).value, bindings);
  }

  /** Spawning a frozen child reads no file: it gives the same result on any file system. */
  lemma SpawningReadsNoFiles(c: Context, d: Context, text: string, bindings: Replacements, base: Path, other: Path)
    requires Elsewhere(c, d) && IsFrozenSource(c.world, Text(text), MAX_DEPTH)
    ensures ChildInstance(d, Inline(text), bindings, other) == ChildInstance(c, Inline(text), bindings, base)
  {
    FrozenChildInstance(c, c, text, bindings, base);
    FrozenChildInstance(c, d, text, bindings, other);
  }
}
