/** Batches as row-major arrays with one offset per row. */
module RaggedBatch {
  import opened Basics

  const USIZE_MAX: nat := 0xFFFF_FFFF_FFFF_FFFF

  type Int64 = n: int | -0x8000_0000_0000_0000 <= n < 0x8000_0000_0000_0000

  type Double(==, !new)

  /** An integer as `serde_json` keeps it: signed if negative, unsigned otherwise. */
  type Integral = n: int | -0x8000_0000_0000_0000 <= n <= USIZE_MAX

  /** An array element; an integer reads as a double after rounding. */
  datatype Element = Integer(n: Integral) | Float(value: Double) | NoNumber

  function AsInt64(element: Element): Option<Int64> {
    if element.Integer? && element.n < 0x8000_0000_0000_0000 then Some(element.n) else None
  }

  function AsUint64(element: Element): Option<nat> {
    if element.Integer? && element.n >= 0 then Some(element.n) else None
  }

  /** How integers round to doubles, and which doubles are acceptable. */
  datatype Reading = Reading(rounded: Integral -> Double, finite: Double -> bool, positive: Double -> bool) {
    function AsDouble(element: Element): Option<Double> {
      match element
      case Integer(n) => Some(rounded(n))
      case Float(value) => Some(value)
      case NoNumber => None
    }
  }

  /** A member that is missing, is not an array, or is one. */
  datatype Field = Missing | NotArray | Items(elements: seq<Element>)

  datatype Response = Response(
    discrete: Field,
    discreteOffsets: Field,
    continuous: Field,
    continuousOffsets: Field,
    weights: Field)

  datatype Point = Point(continuous: seq<Double>, discrete: seq<Int64>, weight: Double)

  /** The widths a domain gives every row; zero when it does not fix them. */
  datatype Widths = Widths(discrete: nat, continuous: nat)

  // Offsets

  /** One more offset than rows, from zero to the end, never decreasing. */
  ghost predicate IsPartition(offsets: seq<nat>, rows: nat, length: nat) {
    && |offsets| == rows + 1 && offsets[0] == 0 && offsets[rows] == length
    && forall i :: 0 <= i < rows ==> offsets[i] <= offsets[i + 1]
  }

  lemma {:induction false} Ordered(offsets: seq<nat>, rows: nat, length: nat, i: nat, j: nat)
    requires IsPartition(offsets, rows, length) && i <= j <= rows
    ensures offsets[i] <= offsets[j]
    decreases j - i
  {
    if i < j {
      Ordered(offsets, rows, length, i + 1, j);
    }
  }

  lemma PartitionOrder(offsets: seq<nat>, rows: nat, length: nat, i: nat, j: nat)
    requires IsPartition(offsets, rows, length) && i <= j <= rows
    ensures offsets[i] <= offsets[j] <= length
  {
    Ordered(offsets, rows, length, i, j);
    Ordered(offsets, rows, length, j, rows);
  }

  function Uniform(rows: nat, width: nat): seq<nat> {
    seq(rows + 1, i => i * width)
  }

  function AsOffsets(elements: seq<Element>): Option<seq<nat>> {
    if elements == [] then Some([])
    else
      var before := AsOffsets(elements[..|elements| - 1]);
      var last := AsUint64(elements[|elements| - 1]);
      if before.None? || last.None? then None else Some(before.value + [last.value])
  }

  lemma {:induction false} AsOffsetsAt(elements: seq<Element>, n: nat)
    requires n <= |elements|
    ensures AsOffsets(elements).Some? ==>
      AsOffsets(elements[..n]).Some? && |AsOffsets(elements).value| == |elements| &&
      AsOffsets(elements[..n]).value == AsOffsets(elements).value[..n]
    decreases |elements|
  {
    if n == |elements| {
      assert elements[..n] == elements;
      if elements != [] {
        AsOffsetsAt(elements[..n - 1], n - 1);
        assert elements[..n - 1][..n - 1] == elements[..n - 1];
      }
    } else {
      AsOffsetsAt(elements[..|elements| - 1], n);
      AsOffsetsAt(elements[..|elements| - 1], |elements| - 1);
      assert elements[..|elements| - 1][..n] == elements[..n];
    }
  }

  /** What the offsets of a response amount to, explicit or by fixed width. */
  ghost predicate Accepts(field: Field, rows: nat, width: nat, length: nat, offsets: seq<nat>) {
    match field
    case Missing => rows * width == length && offsets == Uniform(rows, width)
    case NotArray => false
    case Items(elements) => AsOffsets(elements) == Some(offsets) && IsPartition(offsets, rows, length)
  }

  /** Element by element; exactly the partitions are accepted. */
  method ParseOffsets(field: Field, rows: nat, width: nat, length: nat) returns (parsed: Option<seq<nat>>)
    requires length < USIZE_MAX
    ensures parsed.Some? ==> Accepts(field, rows, width, length, parsed.value) && IsPartition(parsed.value, rows, length)
    ensures parsed.None? ==> forall offsets :: !Accepts(field, rows, width, length, offsets)
  {
    if field.Missing? {
      var expected := if rows * width > USIZE_MAX then USIZE_MAX else rows * width;
      if length != expected {
        return None;
      }
      UniformIsPartition(rows, width);
      return Some(Uniform(rows, width));
    }
    if field.NotArray? || |field.elements| != rows + 1 {
      WrongCount(field, rows, width, length);
      return None;
    }
    var elements := field.elements;
    var offsets: seq<nat> := [];
    var previous: nat := 0;
    for i := 0 to |elements|
      invariant AsOffsets(elements[..i]) == Some(offsets) && |offsets| == i
      invariant previous == (if i == 0 then 0 else offsets[i - 1]) && previous <= length
      invariant i > 0 ==> offsets[0] == 0
      invariant forall k :: 0 <= k < i - 1 ==> offsets[k] <= offsets[k + 1]
    {
      assert elements[..i + 1][..i] == elements[..i];
      var offset := AsUint64(elements[i]);
      if offset.None? || (i == 0 && offset.value != 0) || offset.value < previous || offset.value > length {
        Refused(elements, i, rows, length, offsets);
        return None;
      }
      previous := offset.value;
      offsets := offsets + [offset.value];
    }
    assert elements[..|elements|] == elements;
    if offsets[rows] != length {
      return None;
    }
    return Some(offsets);
  }

  lemma UniformIsPartition(rows: nat, width: nat)
    ensures IsPartition(Uniform(rows, width), rows, rows * width)
  {
    forall i | 0 <= i < rows ensures Uniform(rows, width)[i] <= Uniform(rows, width)[i + 1] {
      assert (i + 1) * width == i * width + width;
    }
  }

  lemma WrongCount(field: Field, rows: nat, width: nat, length: nat)
    requires field.NotArray? || (field.Items? && |field.elements| != rows + 1)
    ensures forall offsets :: !Accepts(field, rows, width, length, offsets)
  {
    if field.Items? {
      AsOffsetsAt(field.elements, 0);
    }
  }

  lemma PartitionElement(elements: seq<Element>, i: nat, rows: nat, length: nat, before: seq<nat>, offsets: seq<nat>)
    requires i < |elements| == rows + 1 && AsOffsets(elements[..i]) == Some(before) && |before| == i
    requires AsOffsets(elements) == Some(offsets) && IsPartition(offsets, rows, length)
    ensures AsUint64(elements[i]) == Some(offsets[i]) && offsets[i] <= length
    ensures i > 0 ==> before[i - 1] <= offsets[i]
  {
    AsOffsetsAt(elements, i + 1);
    AsOffsetsAt(elements, i);
    assert elements[..i + 1][..i] == elements[..i];
    assert offsets[..i + 1][i] == offsets[i];
    PartitionOrder(offsets, rows, length, i, rows);
    if i > 0 {
      assert before[i - 1] == offsets[i - 1];
      PartitionOrder(offsets, rows, length, i - 1, i);
    }
  }

  /** An element that is refused rules out every partition. */
  lemma Refused(elements: seq<Element>, i: nat, rows: nat, length: nat, before: seq<nat>)
    requires i < |elements| == rows + 1 && AsOffsets(elements[..i]) == Some(before) && |before| == i
    requires var offset := AsUint64(elements[i]);
      offset.None? || (i == 0 && offset.value != 0) || (i > 0 && offset.value < before[i - 1]) || offset.value > length
    ensures forall offsets :: AsOffsets(elements) == Some(offsets) ==> !IsPartition(offsets, rows, length)
  {
    forall offsets | AsOffsets(elements) == Some(offsets) ensures !IsPartition(offsets, rows, length) {
      if IsPartition(offsets, rows, length) {
        PartitionElement(elements, i, rows, length, before, offsets);
      }
    }
  }

  // Rows

  /** The rows that the offsets cut. */
  function Rows<T>(flat: seq<T>, offsets: seq<nat>): seq<seq<T>>
    requires |offsets| >= 1
  {
    seq(|offsets| - 1, i requires 0 <= i < |offsets| - 1 =>
      if offsets[i] <= offsets[i + 1] <= |flat| then flat[offsets[i]..offsets[i + 1]] else [])
  }

  function Concat<T>(rows: seq<seq<T>>): seq<T> {
    if rows == [] then [] else Concat(rows[..|rows| - 1]) + rows[|rows| - 1]
  }

  /** Where each row starts, and the end. */
  function Starts<T>(rows: seq<seq<T>>): seq<nat> {
    if rows == [] then [0] else Starts(rows[..|rows| - 1]) + [|Concat(rows)|]
  }

  lemma ConcatTake<T>(rows: seq<seq<T>>, n: nat)
    requires 0 < n <= |rows|
    ensures Concat(rows[..n]) == Concat(rows[..n - 1]) + rows[n - 1]
  {
    assert rows[..n][..n - 1] == rows[..n - 1];
  }

  /** Nothing is lost and nothing is read twice. */
  lemma {:induction false} RowsCover<T>(flat: seq<T>, offsets: seq<nat>, n: nat)
    requires n < |offsets| && IsPartition(offsets, |offsets| - 1, |flat|)
    ensures offsets[n] <= |flat| && Concat(Rows(flat, offsets)[..n]) == flat[..offsets[n]]
  {
    PartitionOrder(offsets, |offsets| - 1, |flat|, n, |offsets| - 1);
    if n > 0 {
      RowsCover(flat, offsets, n - 1);
      PartitionOrder(offsets, |offsets| - 1, |flat|, n - 1, n);
      ConcatTake(Rows(flat, offsets), n);
      assert flat[..offsets[n]] == flat[..offsets[n - 1]] + flat[offsets[n - 1]..offsets[n]];
    }
  }

  lemma {:induction false} StartsArePartition<T>(rows: seq<seq<T>>)
    ensures IsPartition(Starts(rows), |rows|, |Concat(rows)|)
  {
    if rows != [] {
      var before := rows[..|rows| - 1];
      StartsArePartition(before);
      assert forall i :: 0 <= i < |before| + 1 ==> Starts(rows)[i] == Starts(before)[i];
    }
  }

  lemma ConcatLast<T>(rows: seq<seq<T>>)
    requires rows != []
    ensures Concat(rows) == Concat(rows[..|rows| - 1]) + rows[|rows| - 1]
  {}

  lemma StartsLast<T>(rows: seq<seq<T>>)
    requires rows != []
    ensures Starts(rows) == Starts(rows[..|rows| - 1]) + [|Concat(rows)|]
  {}

  /** A row more at the end leaves the earlier cuts as they are. */
  lemma EarlierRow<T>(flat: seq<T>, offsets: seq<nat>, rows: nat, last: seq<T>, end: nat, i: nat)
    requires IsPartition(offsets, rows, |flat|) && i < rows
    ensures Rows(flat + last, offsets + [end])[i] == Rows(flat, offsets)[i]
  {
    PartitionOrder(offsets, rows, |flat|, i, rows);
    PartitionOrder(offsets, rows, |flat|, i + 1, rows);
    assert (flat + last)[offsets[i]..offsets[i + 1]] == flat[offsets[i]..offsets[i + 1]];
  }

  lemma LastRow<T>(flat: seq<T>, offsets: seq<nat>, rows: nat, last: seq<T>)
    requires IsPartition(offsets, rows, |flat|)
    ensures Rows(flat + last, offsets + [|flat| + |last|])[rows] == last
  {
    assert (flat + last)[|flat|..|flat| + |last|] == last;
  }

  /** Both at once. */
  lemma OneMoreRow<T>(flat: seq<T>, offsets: seq<nat>, rows: nat, last: seq<T>)
    requires IsPartition(offsets, rows, |flat|)
    ensures Rows(flat + last, offsets + [|flat| + |last|]) == Rows(flat, offsets) + [last]
  {
    LastRow(flat, offsets, rows, last);
    forall i | 0 <= i < rows ensures Rows(flat + last, offsets + [|flat| + |last|])[i] == Rows(flat, offsets)[i] {
      EarlierRow(flat, offsets, rows, last, |flat| + |last|, i);
    }
  }

  /** Cutting where the rows start gives the rows back. */
  lemma {:induction false} RowsOfConcat<T>(rows: seq<seq<T>>)
    ensures Rows(Concat(rows), Starts(rows)) == rows
  {
    if rows != [] {
      var before, last := rows[..|rows| - 1], rows[|rows| - 1];
      assert rows == before + [last];
      RowsOfConcat(before);
      StartsArePartition(before);
      ConcatLast(rows);
      StartsLast(rows);
      OneMoreRow(Concat(before), Starts(before), |before|, last);
    }
  }

  // Batches

  function Wholes(elements: seq<Element>): Option<seq<Int64>> {
    if forall i :: 0 <= i < |elements| ==> AsInt64(elements[i]).Some?
    then Some(seq(|elements|, i requires 0 <= i < |elements| && AsInt64(elements[i]).Some? => AsInt64(elements[i]).value))
    else None
  }

  predicate GoodDouble(r: Reading, element: Element) {
    r.AsDouble(element).Some? && r.finite(r.AsDouble(element).value)
  }

  function Doubles(r: Reading, elements: seq<Element>): Option<seq<Double>> {
    if forall i :: 0 <= i < |elements| ==> GoodDouble(r, elements[i])
    then Some(seq(|elements|, i requires 0 <= i < |elements| && GoodDouble(r, elements[i]) => r.AsDouble(elements[i]).value))
    else None
  }

  predicate AllPositive(r: Reading, weights: seq<Double>) {
    forall i :: 0 <= i < |weights| ==> r.positive(weights[i])
  }

  function Points(discrete: seq<seq<Int64>>, continuous: seq<seq<Double>>, weights: seq<Double>): seq<Point>
    requires |discrete| == |continuous| == |weights|
  {
    seq(|weights|, i requires 0 <= i < |weights| => Point(continuous[i], discrete[i], weights[i]))
  }

  function DiscreteOf(points: seq<Point>): seq<seq<Int64>> {
    seq(|points|, i requires 0 <= i < |points| => points[i].discrete)
  }

  function ContinuousOf(points: seq<Point>): seq<seq<Double>> {
    seq(|points|, i requires 0 <= i < |points| => points[i].continuous)
  }

  function WeightsOf(points: seq<Point>): seq<Double> {
    seq(|points|, i requires 0 <= i < |points| => points[i].weight)
  }

  /** A response holds these points: the arrays read as numbers, and the offsets cut them. */
  ghost predicate Holds(r: Reading, response: Response, rows: nat, widths: Widths, points: seq<Point>) {
    && response.discrete.Items? && response.continuous.Items? && response.weights.Items?
    && exists discrete, continuous, weights, i, j ::
         HoldsAs(r, response, rows, widths, points, discrete, continuous, weights, i, j)
  }

  ghost predicate HoldsAs(r: Reading, response: Response, rows: nat, widths: Widths, points: seq<Point>,
                          discrete: seq<Int64>, continuous: seq<Double>, weights: seq<Double>, i: seq<nat>, j: seq<nat>)
    requires response.discrete.Items? && response.continuous.Items? && response.weights.Items?
  {
    && Wholes(response.discrete.elements) == Some(discrete)
    && Doubles(r, response.continuous.elements) == Some(continuous)
    && Doubles(r, response.weights.elements) == Some(weights)
    && |weights| == rows && AllPositive(r, weights)
    && Accepts(response.discreteOffsets, rows, widths.discrete, |discrete|, i)
    && Accepts(response.continuousOffsets, rows, widths.continuous, |continuous|, j)
    && |i| == |j| == rows + 1
    && points == Points(Rows(discrete, i), Rows(continuous, j), weights)
  }

  method CutPoints(discrete: seq<Int64>, i: seq<nat>, continuous: seq<Double>, j: seq<nat>, weights: seq<Double>)
    returns (points: seq<Point>)
    requires IsPartition(i, |weights|, |discrete|) && IsPartition(j, |weights|, |continuous|)
    ensures points == Points(Rows(discrete, i), Rows(continuous, j), weights)
  {
    points := [];
    for n := 0 to |weights|
      invariant |points| == n
      invariant forall k :: 0 <= k < n ==> points[k] == Point(Rows(continuous, j)[k], Rows(discrete, i)[k], weights[k])
    {
      PartitionOrder(i, |weights|, |discrete|, n + 1, |weights|);
      PartitionOrder(j, |weights|, |continuous|, n + 1, |weights|);
      points := points + [Point(continuous[j[n]..j[n + 1]], discrete[i[n]..i[n + 1]], weights[n])];
    }
  }

  method DecodeBatch(r: Reading, response: Response, rows: nat, widths: Widths) returns (points: Option<seq<Point>>)
    requires response.discrete.Items? ==> |response.discrete.elements| < USIZE_MAX
    requires response.continuous.Items? ==> |response.continuous.elements| < USIZE_MAX
    ensures points.Some? ==> Holds(r, response, rows, widths, points.value)
    ensures points.None? ==> forall other :: !Holds(r, response, rows, widths, other)
  {
    if !response.discrete.Items? {
      return None;
    }
    var i := ParseOffsets(response.discreteOffsets, rows, widths.discrete, |response.discrete.elements|);
    if i.None? || !response.continuous.Items? {
      return None;
    }
    var j := ParseOffsets(response.continuousOffsets, rows, widths.continuous, |response.continuous.elements|);
    if j.None? {
      return None;
    }
    var discrete := Wholes(response.discrete.elements);
    var continuous := Doubles(r, response.continuous.elements);
    if discrete.None? || continuous.None? || !response.weights.Items? || |response.weights.elements| != rows {
      return None;
    }
    var weights := Doubles(r, response.weights.elements);
    if weights.None? || !AllPositive(r, weights.value) {
      return None;
    }
    var decoded := CutPoints(discrete.value, i.value, continuous.value, j.value, weights.value);
    assert HoldsAs(r, response, rows, widths, decoded, discrete.value, continuous.value, weights.value, i.value, j.value);
    return Some(decoded);
  }

  /** A response holds at most one batch. */
  lemma DecodingIsUnique(r: Reading, response: Response, rows: nat, widths: Widths, p: seq<Point>, q: seq<Point>)
    requires Holds(r, response, rows, widths, p) && Holds(r, response, rows, widths, q)
    ensures p == q
  {
    var a, b, c, i, j :| HoldsAs(r, response, rows, widths, p, a, b, c, i, j);
    var d, e, f, k, l :| HoldsAs(r, response, rows, widths, q, d, e, f, k, l);
    assert a == d && b == e && c == f && i == k && j == l;
  }

  /** The points' coordinates, one after the other, are the arrays that were sent. */
  lemma DecodingCovers(r: Reading, response: Response, rows: nat, widths: Widths, points: seq<Point>)
    requires Holds(r, response, rows, widths, points)
    ensures |points| == rows
    ensures Some(Concat(DiscreteOf(points))) == Wholes(response.discrete.elements)
    ensures Some(Concat(ContinuousOf(points))) == Doubles(r, response.continuous.elements)
  {
    var discrete: seq<Int64>, continuous: seq<Double>, weights: seq<Double>, i: seq<nat>, j: seq<nat> :|
      HoldsAs(r, response, rows, widths, points, discrete, continuous, weights, i, j);
    AcceptedRowsCover(response.discreteOffsets, rows, widths.discrete, discrete, i);
    AcceptedRowsCover(response.continuousOffsets, rows, widths.continuous, continuous, j);
    assert DiscreteOf(points) == Rows(discrete, i) && ContinuousOf(points) == Rows(continuous, j);
  }

  lemma AcceptedRowsCover<T>(field: Field, rows: nat, width: nat, flat: seq<T>, offsets: seq<nat>)
    requires Accepts(field, rows, width, |flat|, offsets)
    ensures |offsets| == rows + 1 && Concat(Rows(flat, offsets)) == flat
  {
    AcceptedIsPartition(field, rows, width, |flat|, offsets);
    RowsCover(flat, offsets, rows);
    assert Rows(flat, offsets)[..rows] == Rows(flat, offsets);
    assert flat[..|flat|] == flat;
  }

  lemma AcceptedIsPartition(field: Field, rows: nat, width: nat, length: nat, offsets: seq<nat>)
    requires Accepts(field, rows, width, length, offsets)
    ensures IsPartition(offsets, rows, length)
  {
    if field.Missing? {
      UniformIsPartition(rows, width);
    }
  }

  /** Leaving the offsets out means the same as sending uniform ones. */
  lemma FixedWidthIsUniform(r: Reading, response: Response, rows: nat, widths: Widths, points: seq<Point>,
                            i: seq<Element>, j: seq<Element>)
    requires response.discreteOffsets.Missing? && response.continuousOffsets.Missing?
    requires AsOffsets(i) == Some(Uniform(rows, widths.discrete)) && AsOffsets(j) == Some(Uniform(rows, widths.continuous))
    ensures Holds(r, response, rows, widths, points) <==>
      Holds(r, response.(discreteOffsets := Items(i), continuousOffsets := Items(j)), rows, widths, points)
  {
    var explicit := response.(discreteOffsets := Items(i), continuousOffsets := Items(j));
    forall length, offsets
      ensures Accepts(Missing, rows, widths.discrete, length, offsets) <==>
        Accepts(Items(i), rows, widths.discrete, length, offsets)
      ensures Accepts(Missing, rows, widths.continuous, length, offsets) <==>
        Accepts(Items(j), rows, widths.continuous, length, offsets)
    {
      UniformAccepts(rows, widths.discrete, length, offsets, i);
      UniformAccepts(rows, widths.continuous, length, offsets, j);
    }
    if Holds(r, response, rows, widths, points) {
      var a, b, c, x, y :| HoldsAs(r, response, rows, widths, points, a, b, c, x, y);
      assert HoldsAs(r, explicit, rows, widths, points, a, b, c, x, y);
    }
    if Holds(r, explicit, rows, widths, points) {
      var a, b, c, x, y :| HoldsAs(r, explicit, rows, widths, points, a, b, c, x, y);
      assert HoldsAs(r, response, rows, widths, points, a, b, c, x, y);
    }
  }

  lemma UniformAccepts(rows: nat, width: nat, length: nat, offsets: seq<nat>, elements: seq<Element>)
    requires AsOffsets(elements) == Some(Uniform(rows, width))
    ensures Accepts(Missing, rows, width, length, offsets) <==> Accepts(Items(elements), rows, width, length, offsets)
  {
    UniformIsPartition(rows, width);
  }

  /** The same batch as a response: integers and doubles, with explicit offsets. */
  function Encode(points: seq<Point>): Response
    requires |Concat(DiscreteOf(points))| < USIZE_MAX && |Concat(ContinuousOf(points))| < USIZE_MAX
  {
    Response(
      Items(Integers(Concat(DiscreteOf(points)))), Items(Offsets(Starts(DiscreteOf(points)))),
      Items(Floats(Concat(ContinuousOf(points)))), Items(Offsets(Starts(ContinuousOf(points)))),
      Items(Floats(WeightsOf(points))))
  }

  function Integers(values: seq<Int64>): seq<Element> {
    seq(|values|, i requires 0 <= i < |values| => Integer(values[i]))
  }

  function Floats(values: seq<Double>): seq<Element> {
    seq(|values|, i requires 0 <= i < |values| => Float(values[i]))
  }

  function Offsets(offsets: seq<nat>): seq<Element> {
    seq(|offsets|, i requires 0 <= i < |offsets| => if offsets[i] <= USIZE_MAX then Integer(offsets[i]) else NoNumber)
  }

  ghost predicate GoodPoint(r: Reading, p: Point) {
    r.finite(p.weight) && r.positive(p.weight) && forall i :: 0 <= i < |p.continuous| ==> r.finite(p.continuous[i])
  }

  lemma {:induction false} OffsetsReadBack(offsets: seq<nat>)
    requires forall i :: 0 <= i < |offsets| ==> offsets[i] <= USIZE_MAX
    ensures AsOffsets(Offsets(offsets)) == Some(offsets)
  {
    if offsets != [] {
      var n := |offsets| - 1;
      assert Offsets(offsets)[..n] == Offsets(offsets[..n]);
      OffsetsReadBack(offsets[..n]);
      assert offsets == offsets[..n] + [offsets[n]];
    }
  }

  /** Offsets never exceed the length they end at. */
  lemma StartsReadBack<T>(rows: seq<seq<T>>)
    requires |Concat(rows)| < USIZE_MAX
    ensures AsOffsets(Offsets(Starts(rows))) == Some(Starts(rows))
  {
    StartsArePartition(rows);
    forall i | 0 <= i < |Starts(rows)| ensures Starts(rows)[i] <= USIZE_MAX {
      PartitionOrder(Starts(rows), |rows|, |Concat(rows)|, i, |rows|);
    }
    OffsetsReadBack(Starts(rows));
  }

  lemma {:induction false} ConcatFinite(r: Reading, rows: seq<seq<Double>>)
    requires forall i, k :: 0 <= i < |rows| && 0 <= k < |rows[i]| ==> r.finite(rows[i][k])
    ensures forall k :: 0 <= k < |Concat(rows)| ==> r.finite(Concat(rows)[k])
  {
    if rows != [] {
      ConcatFinite(r, rows[..|rows| - 1]);
    }
  }

  lemma FloatsReadBack(r: Reading, values: seq<Double>)
    requires forall i :: 0 <= i < |values| ==> r.finite(values[i])
    ensures Doubles(r, Floats(values)) == Some(values)
  {
    assert Doubles(r, Floats(values)).value == values;
  }

  lemma IntegersReadBack(values: seq<Int64>)
    ensures Wholes(Integers(values)) == Some(values)
  {
    assert Wholes(Integers(values)).value == values;
  }

  ghost predicate GoodPoints(r: Reading, points: seq<Point>) {
    forall i :: 0 <= i < |points| ==> GoodPoint(r, points[i])
  }

  /** Encoding and decoding a batch with finite coordinates and positive weights is the identity. */
  lemma BatchRoundTrip(r: Reading, points: seq<Point>, widths: Widths, decoded: seq<Point>)
    requires GoodPoints(r, points)
    requires |Concat(DiscreteOf(points))| < USIZE_MAX && |Concat(ContinuousOf(points))| < USIZE_MAX
    ensures Holds(r, Encode(points), |points|, widths, decoded) <==> decoded == points
  {
    var discrete, continuous, weights := DiscreteOf(points), ContinuousOf(points), WeightsOf(points);
    var response := Encode(points);
    ReadsBack(r, points);
    StartsArePartition(discrete);
    StartsArePartition(continuous);
    RowsOfConcat(discrete);
    RowsOfConcat(continuous);
    assert points == Points(discrete, continuous, weights);
    assert HoldsAs(r, response, |points|, widths, points, Concat(discrete), Concat(continuous), weights,
                   Starts(discrete), Starts(continuous));
    if Holds(r, response, |points|, widths, decoded) {
      DecodingIsUnique(r, response, |points|, widths, points, decoded);
    }
  }

  lemma ReadsBack(r: Reading, points: seq<Point>)
    requires GoodPoints(r, points)
    requires |Concat(DiscreteOf(points))| < USIZE_MAX && |Concat(ContinuousOf(points))| < USIZE_MAX
    ensures var response := Encode(points);
      && Wholes(response.discrete.elements) == Some(Concat(DiscreteOf(points)))
      && Doubles(r, response.continuous.elements) == Some(Concat(ContinuousOf(points)))
      && Doubles(r, response.weights.elements) == Some(WeightsOf(points)) && AllPositive(r, WeightsOf(points))
      && AsOffsets(response.discreteOffsets.elements) == Some(Starts(DiscreteOf(points)))
      && AsOffsets(response.continuousOffsets.elements) == Some(Starts(ContinuousOf(points)))
  {
    forall i | 0 <= i < |points| ensures GoodPoint(r, points[i]) {
    }
    ConcatFinite(r, ContinuousOf(points));
    IntegersReadBack(Concat(DiscreteOf(points)));
    FloatsReadBack(r, Concat(ContinuousOf(points)));
    FloatsReadBack(r, WeightsOf(points));
    StartsReadBack(DiscreteOf(points));
    StartsReadBack(ContinuousOf(points));
  }
}
