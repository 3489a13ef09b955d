/**
 Freezing the child documents of a run: every file reference is read, and every child is
 stored as text inside its parent, before anything is expanded.
 */
module Freeze {
  import opened Basics
  import opened Documents
  import opened TomlValue

  type Path(==, !new)

  /** Reading and printing documents, and the file system. */
  datatype World = World(
    parse: string -> Option<Toml>,
    render: Toml -> string,
    blank: string -> bool,
    // The canonical path of a reference, seen from a directory.
    locate: (Path, string) -> Option<Path>,
    read: Path -> Option<string>,
    parent: Path -> Path)

  datatype Failure = TooDeep | NotATable | BadSource | Blank | NoSuchFile | Cyclic | Unreadable | Malformed | Invalid

  const MAX_DEPTH := 32

  datatype Source = Inline(text: string) | File(file: string)

  /** A string, or a table with nothing but `file`. */
  function SourceOf(value: Toml): Option<Source> {
    match value
    case Text(text) => Some(Inline(text))
    case Table(entries) =>
      if entries.Keys == {"file"} && entries["file"].Text? then Some(File(entries["file"].text)) else None
    case _ => None
  }

  function WithRun(owner: Toml, source: Toml): Toml
    requires owner.Table?
  {
    Table(owner.entries["run" := source])
  }

  function WithEntry(value: Toml, key: string, entry: Toml): Toml
    requires value.Table?
  {
    Table(value.entries[key := entry])
  }

  /** `child.run`, then the `run` of every element of `children`. */
  function Frozen(w: World, value: Toml, base: Path, stack: seq<Path>, depth: nat): Result<Toml, Failure>
    requires depth <= MAX_DEPTH + 1
    decreases MAX_DEPTH + 1 - depth, 3, 0
  {
    if depth > MAX_DEPTH then Err(TooDeep)
    else if !value.Table? then Err(NotATable)
    else
      var child := Entry(value, "child");
      var owner := if child.None? then Ok(value) else FrozenOwner(w, child.value, base, stack, depth);
      if owner.Err? then owner
      else FrozenChildren(w, if child.None? then value else WithEntry(value, "child", owner.value), base, stack, depth)
  }

  function FrozenChildren(w: World, value: Toml, base: Path, stack: seq<Path>, depth: nat): Result<Toml, Failure>
    requires depth <= MAX_DEPTH && value.Table?
    decreases MAX_DEPTH + 1 - depth, 2, 0
  {
    match Entry(value, "children")
    case Some(Array(items)) =>
      var frozen := FrozenItems(w, items, base, stack, depth);
      if frozen.Err? then Err(frozen.error) else Ok(WithEntry(value, "children", Array(frozen.value)))
    case _ => Ok(value)
  }

  function FrozenItems(w: World, items: seq<Toml>, base: Path, stack: seq<Path>, depth: nat): Result<seq<Toml>, Failure>
    requires depth <= MAX_DEPTH
    decreases MAX_DEPTH + 1 - depth, 1, |items|
  {
    if items == [] then Ok([])
    else
      var before := FrozenItems(w, items[..|items| - 1], base, stack, depth);
      if before.Err? then before
      else
        var last := FrozenOwner(w, items[|items| - 1], base, stack, depth);
        if last.Err? then Err(last.error) else Ok(before.value + [last.value])
  }

  function FrozenOwner(w: World, owner: Toml, base: Path, stack: seq<Path>, depth: nat): Result<Toml, Failure>
    requires depth <= MAX_DEPTH
    decreases MAX_DEPTH + 1 - depth, 0, 0
  {
    var source := Entry(owner, "run");
    if source.None? then Ok(owner)
    else
      var frozen := FrozenSource(w, source.value, base, stack, depth + 1);
      if frozen.Err? then frozen else Ok(WithRun(owner, frozen.value))
  }

  function FrozenSource(w: World, source: Toml, base: Path, stack: seq<Path>, depth: nat): Result<Toml, Failure>
    requires depth <= MAX_DEPTH + 1
    decreases MAX_DEPTH + 1 - depth, 5, 0
  {
    var child := SourceOf(source);
    if child.None? then Err(BadSource)
    else
      var value := Resolved(w, child.value, base, stack, depth);
      if value.Err? then value else Ok(Text(w.render(value.value)))
  }

  /** What a source denotes before it is frozen, where its own references start, and the
      file it was read from. */
  datatype Place = Place(value: Toml, base: Path, files: seq<Path>)

  function Read(w: World, source: Source, base: Path, stack: seq<Path>): Result<Place, Failure> {
    match source
    case Inline(text) =>
      if w.blank(text) then Err(Blank)
      else if w.parse(text).None? then Err(Malformed)
      else Ok(Place(w.parse(text).value, base, []))
    case File(file) =>
      if w.blank(file) then Err(Blank)
      else
        var path := w.locate(base, file);
        if path.None? then Err(NoSuchFile)
        else if path.value in stack then Err(Cyclic)
        else if w.read(path.value).None? then Err(Unreadable)
        else if w.parse(w.read(path.value).value).None? then Err(Malformed)
        else Ok(Place(w.parse(w.read(path.value).value).value, w.parent(path.value), [path.value]))
  }

  function Resolved(w: World, source: Source, base: Path, stack: seq<Path>, depth: nat): Result<Toml, Failure>
    requires depth <= MAX_DEPTH + 1
    decreases MAX_DEPTH + 1 - depth, 4, 0
  {
    var place := Read(w, source, base, stack);
    if place.Err? then Err(place.error)
    else
      var frozen := Frozen(w, place.value.value, place.value.base, stack + place.value.files, depth);
      if frozen.Err? then frozen else if !ValidDocument(frozen.value) then Err(Invalid) else frozen
  }

  /** The files being read, innermost last, as the code keeps them. */
  class Freezer {
    const w: World
    var stack: seq<Path>

    constructor (w: World)
      ensures this.w == w && stack == []
    {
      this.w := w;
      stack := [];
    }

    method FreezeSources(value: Toml, base: Path, depth: nat) returns (r: Result<Toml, Failure>)
      requires depth <= MAX_DEPTH + 1
      modifies this`stack
      ensures stack == old(stack) && r == Frozen(w, value, base, stack, depth)
      decreases MAX_DEPTH + 1 - depth, 3
    {
      if depth > MAX_DEPTH {
        return Err(TooDeep);
      }
      if !value.Table? {
        return Err(NotATable);
      }
      var frozen := value;
      if Entry(value, "child").Some? {
        var owner := FreezeOwner(Entry(value, "child").value, base, depth);
        if owner.Err? {
          return owner;
        }
        frozen := WithEntry(value, "child", owner.value);
      }
      if Entry(frozen, "children").Some? && Entry(frozen, "children").value.Array? {
        var items := Entry(frozen, "children").value.items;
        var done: seq<Toml> := [];
        for i := 0 to |items|
          invariant stack == old(stack) && FrozenItems(w, items[..i], base, stack, depth) == Ok(done)
        {
          var item := FreezeOwner(items[i], base, depth);
          assert items[..i + 1][..i] == items[..i];
          if item.Err? {
            FirstFailure(w, items, i + 1, base, stack, depth);
            return Err(item.error);
          }
          done := done + [item.value];
        }
        assert items[..|items|] == items;
        frozen := WithEntry(frozen, "children", Array(done));
      }
      return Ok(frozen);
    }

    method FreezeOwner(owner: Toml, base: Path, depth: nat) returns (r: Result<Toml, Failure>)
      requires depth <= MAX_DEPTH
      modifies this`stack
      ensures stack == old(stack) && r == FrozenOwner(w, owner, base, stack, depth)
      decreases MAX_DEPTH + 1 - depth, 0
    {
      if Entry(owner, "run").None? {
        return Ok(owner);
      }
      var source := FreezeSource(Entry(owner, "run").value, base, depth + 1);
      r := if source.Err? then source else Ok(WithRun(owner, source.value));
    }

    method FreezeSource(source: Toml, base: Path, depth: nat) returns (r: Result<Toml, Failure>)
      requires depth <= MAX_DEPTH + 1
      modifies this`stack
      ensures stack == old(stack) && r == FrozenSource(w, source, base, stack, depth)
      decreases MAX_DEPTH + 1 - depth, 5
    {
      var child := SourceOf(source);
      if child.None? {
        return Err(BadSource);
      }
      var value := ResolveChild(child.value, base, depth);
      r := if value.Err? then value else Ok(Text(w.render(value.value)));
    }

    /** A file is on the stack exactly while its own references are resolved. */
    method ResolveChild(source: Source, base: Path, depth: nat) returns (r: Result<Toml, Failure>)
      requires depth <= MAX_DEPTH + 1
      modifies this`stack
      ensures stack == old(stack) && r == Resolved(w, source, base, stack, depth)
      decreases MAX_DEPTH + 1 - depth, 4
    {
      var place := Read(w, source, base, stack);
      if place.Err? {
        return Err(place.error);
      }
      if source.File? {
        stack := stack + place.value.files;
      } else {
        assert stack + [] == stack;
      }
      r := FreezeSources(place.value.value, place.value.base, depth);
      if source.File? {
        stack := stack[..|stack| - 1];
      }
      if r.Ok? && !ValidDocument(r.value) {
        r := Err(Invalid);
      }
    }
  }

  /** A failing element makes the whole list fail the same way. */
  lemma {:induction false} FirstFailure(w: World, items: seq<Toml>, n: nat, base: Path, stack: seq<Path>, depth: nat)
    requires depth <= MAX_DEPTH && n <= |items| && FrozenItems(w, items[..n], base, stack, depth).Err?
    ensures FrozenItems(w, items, base, stack, depth) == FrozenItems(w, items[..n], base, stack, depth)
    decreases |items|
  {
    if n == |items| {
      assert items[..n] == items;
    } else {
      assert items[..|items| - 1][..n] == items[..n];
      FirstFailure(w, items[..|items| - 1], n, base, stack, depth);
    }
  }
}
