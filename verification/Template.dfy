/** Placeholders `$(name:default)` in document strings. */
module Template {
  import opened Basics
  import opened TomlValue

  /** Reading a standalone value, showing one inside a string, and trimming. */
  datatype Toolkit = Toolkit(parse: string -> Option<Toml>, show: Toml -> string, trim: string -> string)

  datatype Problem = MissingClose | NoDefault | BadName | BadReplacements

  type Replacements = map<string, Toml>

  /** The first occurrence. */
  function Find(text: string, part: string): (at: Option<nat>)
    ensures at.Some? ==> at.value + |part| <= |text|
  {
    if part <= text then Some(0)
    else if text == "" then None
    else
      var later := Find(text[1..], part);
      if later.None? then None else Some(later.value + 1)
  }

  ghost predicate Occurs(text: string, part: string, i: nat) {
    i + |part| <= |text| && text[i..i + |part|] == part
  }

  lemma {:induction false} FindIsFirst(text: string, part: string)
    ensures Find(text, part).None? ==> forall i: nat :: !Occurs(text, part, i)
    ensures Find(text, part).Some? ==>
      Occurs(text, part, Find(text, part).value) && forall i: nat :: i < Find(text, part).value ==> !Occurs(text, part, i)
  {
    if part <= text {
      assert text[0..|part|] == part;
    } else {
      if text != "" {
        FindIsFirst(text[1..], part);
        forall i: nat | 0 < i ensures Occurs(text, part, i) == Occurs(text[1..], part, i - 1) {
          if i + |part| <= |text| {
            assert text[i..i + |part|] == text[1..][i - 1..i - 1 + |part|];
          }
        }
      }
      assert !Occurs(text, part, 0);
    }
  }

  predicate Letter(c: char) {
    'a' <= c <= 'z' || 'A' <= c <= 'Z'
  }

  predicate ValidName(name: string) {
    name != "" && (Letter(name[0]) || name[0] == '_') &&
    forall i :: 1 <= i < |name| ==> Letter(name[i]) || '0' <= name[i] <= '9' || name[i] == '_'
  }

  /** A placeholder remembers the text it came from. */
  datatype Segment = Literal(text: string) | Slot(source: string, name: string, default: Toml)

  /** `raw` runs from "$(" to the first ")". The name ends at the first colon. */
  function ParsePlaceholder(k: Toolkit, raw: string): (slot: Result<Segment, Problem>)
    requires |raw| >= 3
    ensures slot.Ok? ==> slot.value.Slot? && slot.value.source == raw
  {
    var body := raw[2..|raw| - 1];
    var colon := Find(body, ":");
    if colon.None? then Err(NoDefault)
    else if !ValidName(body[..colon.value]) then Err(BadName)
    else
      var text := k.trim(body[colon.value + 1..]);
      var parsed := k.parse(text);
      Ok(Slot(raw, body[..colon.value], if parsed.Some? then parsed.value else Text(text)))
  }

  /** The text up to the first placeholder, that placeholder, and what follows it. */
  datatype Piece = Piece(text: string, slot: Segment, rest: string)

  function Cut(k: Toolkit, raw: string): (piece: Result<Option<Piece>, Problem>)
    ensures piece.Ok? && piece.value.Some? ==> piece.value.value.slot.Slot? && |piece.value.value.rest| < |raw|
  {
    var start := Find(raw, "$(");
    if start.None? then Ok(None)
    else
      var after := raw[start.value..];
      var end := Find(after, ")");
      if end.None? then Err(MissingClose)
      else
        OpenBeforeClose(raw, start.value, end.value);
        var slot := ParsePlaceholder(k, after[..end.value + 1]);
        if slot.Err? then Err(slot.error)
        else Ok(Some(Piece(raw[..start.value], slot.value, after[end.value + 1..])))
  }

  /** The literal and placeholder parts of a string; what they are does not depend on any
      replacement. */
  function Segments(k: Toolkit, raw: string): Result<seq<Segment>, Problem>
    decreases |raw|
  {
    var piece := Cut(k, raw);
    if piece.Err? then Err(piece.error)
    else if piece.value.None? then Ok([Literal(raw)])
    else
      var p := piece.value.value;
      var rest := Segments(k, p.rest);
      if rest.Err? then rest else Ok([Literal(p.text), p.slot] + rest.value)
  }

  lemma OpenBeforeClose(raw: string, start: nat, end: nat)
    requires Find(raw, "$(") == Some(start) && Find(raw[start..], ")") == Some(end)
    ensures end >= 2
  {
    FindIsFirst(raw, "$(");
    FindIsFirst(raw[start..], ")");
    assert raw[start..start + 2] == "$(";
    assert raw[start..][end..end + 1] == ")";
    assert raw[start..][0] == raw[start..start + 2][0] == '$' && raw[start..][1] == raw[start..start + 2][1] == '(';
  }

  function Value(r: Replacements, slot: Segment): Toml
    requires slot.Slot?
  {
    if slot.name in r then r[slot.name] else slot.default
  }

  function Shown(k: Toolkit, value: Toml): string {
    if value.Text? then value.text else k.show(value)
  }

  function Join(k: Toolkit, r: Replacements, segments: seq<Segment>): string {
    if segments == [] then ""
    else
      (match segments[0]
       case Literal(text) => text
       case Slot(_, _, _) => Shown(k, Value(r, segments[0])))
      + Join(k, r, segments[1..])
  }

  function Slots(segments: seq<Segment>): set<string> {
    set i | 0 <= i < |segments| && segments[i].Slot? :: segments[i].name
  }

  /** The string the segments were cut from. */
  function Source(segments: seq<Segment>): string {
    if segments == [] then ""
    else (if segments[0].Literal? then segments[0].text else segments[0].source) + Source(segments[1..])
  }

  lemma {:induction false} JoinAppend(k: Toolkit, r: Replacements, a: seq<Segment>, b: seq<Segment>)
    ensures Join(k, r, a + b) == Join(k, r, a) + Join(k, r, b)
  {
    if a == [] {
      assert a + b == b;
    } else {
      assert (a + b)[1..] == a[1..] + b;
      JoinAppend(k, r, a[1..], b);
    }
  }

  lemma CutCovers(k: Toolkit, raw: string)
    requires Cut(k, raw).Ok?
    ensures match Cut(k, raw).value
      case None => Find(raw, "$(").None?
      case Some(p) => raw == p.text + (p.slot.source + p.rest) && Find(p.text, "$(").None?
  {
    FindIsFirst(raw, "$(");
    var start := Find(raw, "$(");
    if start.Some? {
      SplitTwice(raw, start.value, Find(raw[start.value..], ")").value + 1);
      NoEarlierOpening(raw, start.value);
    }
  }

  lemma SplitTwice(raw: string, i: nat, j: nat)
    requires i <= |raw| && j <= |raw| - i
    ensures raw == raw[..i] + (raw[i..][..j] + raw[i..][j..])
  {}

  ghost predicate NoOpening(segments: seq<Segment>) {
    forall i :: 0 <= i < |segments| && segments[i].Literal? ==> Find(segments[i].text, "$(").None?
  }

  /** The segments cover the string, and every placeholder in it is a slot: no literal part
      holds another opening. */
  lemma {:induction false} SegmentsCover(k: Toolkit, raw: string)
    requires Segments(k, raw).Ok?
    ensures Source(Segments(k, raw).value) == raw && NoOpening(Segments(k, raw).value)
    decreases |raw|
  {
    CutCovers(k, raw);
    match Cut(k, raw).value
    case None =>
      assert [Literal(raw)][1..] == [] && raw + "" == raw;
    case Some(p) =>
      SegmentsCover(k, p.rest);
      SourcePair(p.text, p.slot, Segments(k, p.rest).value);
  }

  lemma SourcePair(text: string, slot: Segment, rest: seq<Segment>)
    requires slot.Slot?
    ensures Source([Literal(text), slot] + rest) == text + (slot.source + Source(rest))
  {
    var all := [Literal(text), slot] + rest;
    assert all[1..] == [slot] + rest && all[1..][1..] == rest;
  }

  lemma NoEarlierOpening(raw: string, start: nat)
    requires Find(raw, "$(") == Some(start)
    ensures Find(raw[..start], "$(").None?
  {
    FindIsFirst(raw, "$(");
    FindIsFirst(raw[..start], "$(");
    forall i: nat ensures !Occurs(raw[..start], "$(", i) {
      if i + 2 <= start {
        assert raw[..start][i..i + 2] == raw[i..i + 2];
        assert !Occurs(raw, "$(", i);
      }
    }
  }

  /** What has been cut off, and what the rest gives, make up the whole. */
  ghost predicate Progress(all: Result<seq<Segment>, Problem>, done: seq<Segment>, rest: Result<seq<Segment>, Problem>) {
    match rest
    case Err(error) => all == Err(error)
    case Ok(segments) => all == Ok(done + segments)
  }

  lemma ProgressStep(k: Toolkit, all: Result<seq<Segment>, Problem>, done: seq<Segment>, remaining: string, p: Piece)
    requires Progress(all, done, Segments(k, remaining)) && Cut(k, remaining) == Ok(Some(p))
    ensures Progress(all, done + [Literal(p.text), p.slot], Segments(k, p.rest))
  {
    if Segments(k, p.rest).Ok? {
      assert done + ([Literal(p.text), p.slot] + Segments(k, p.rest).value) ==
             done + [Literal(p.text), p.slot] + Segments(k, p.rest).value;
    }
  }

  /** One left-to-right pass; what is inserted is never looked at again. */
  method Interpolate(k: Toolkit, r: Replacements, raw: string) returns (result: Result<string, Problem>, used: set<string>)
    ensures Segments(k, raw).Err? ==> result == Err(Segments(k, raw).error)
    ensures Segments(k, raw).Ok? ==>
      result == Ok(Join(k, r, Segments(k, raw).value)) && used == Slots(Segments(k, raw).value)
  {
    var output, remaining := "", raw;
    ghost var done: seq<Segment> := [];
    used := {};
    if Segments(k, raw).Ok? {
      assert [] + Segments(k, raw).value == Segments(k, raw).value;
    }
    while true
      invariant Progress(Segments(k, raw), done, Segments(k, remaining))
      invariant output == Join(k, r, done) && used == Slots(done)
      decreases |remaining|
    {
      var piece := Cut(k, remaining);
      if piece.Err? {
        return Err(piece.error), used;
      }
      if piece.value.None? {
        JoinText(k, r, done, remaining);
        SlotsAfterText(done, remaining);
        return Ok(output + remaining), used;
      }
      var p := piece.value.value;
      JoinPair(k, r, done, p.text, p.slot);
      SlotsAfter(done, p.text, p.slot);
      ProgressStep(k, Segments(k, raw), done, remaining, p);
      used := used + {p.slot.name};
      output := output + p.text + Shown(k, Value(r, p.slot));
      remaining := p.rest;
      done := done + [Literal(p.text), p.slot];
    }
  }

  lemma JoinText(k: Toolkit, r: Replacements, done: seq<Segment>, text: string)
    ensures Join(k, r, done + [Literal(text)]) == Join(k, r, done) + text
  {
    JoinAppend(k, r, done, [Literal(text)]);
    assert [Literal(text)][1..] == [] && text + "" == text;
  }

  lemma JoinPair(k: Toolkit, r: Replacements, done: seq<Segment>, text: string, slot: Segment)
    requires slot.Slot?
    ensures Join(k, r, done + [Literal(text), slot]) == Join(k, r, done) + text + Shown(k, Value(r, slot))
  {
    JoinAppend(k, r, done, [Literal(text), slot]);
    assert [Literal(text), slot][1..] == [slot] && [slot][1..] == [];
    assert Join(k, r, [slot]) == Shown(k, Value(r, slot)) + "";
  }

  lemma SlotsAfterText(done: seq<Segment>, text: string)
    ensures Slots(done + [Literal(text)]) == Slots(done)
  {
    forall name | name in Slots(done) ensures name in Slots(done + [Literal(text)]) {
      var i :| 0 <= i < |done| && done[i].Slot? && done[i].name == name;
      assert (done + [Literal(text)])[i] == done[i];
    }
  }

  lemma SlotsAfter(done: seq<Segment>, text: string, slot: Segment)
    requires slot.Slot?
    ensures Slots(done + [Literal(text), slot]) == Slots(done) + {slot.name}
  {
    var all := done + [Literal(text), slot];
    assert all[|done| + 1] == slot;
    forall name | name in Slots(done) ensures name in Slots(all) {
      var i :| 0 <= i < |done| && done[i].Slot? && done[i].name == name;
      assert all[i] == done[i];
    }
  }
}
