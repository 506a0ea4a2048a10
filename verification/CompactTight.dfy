/** The static bounds of a shape are attained: some message, accepted in full, visits
    exactly that many nodes. */
module CompactTight {
  import opened Prelude
  import opened Compact
  import opened CompactBounds
  import opened CompactPrint

  // ---------------------------------------------------------------- the fullest message of a shape

  function Copies(t: Tree, n: nat): (s: seq<Tree>)
    ensures |s| == n
  {
    if n == 0 then [] else [t] + Copies(t, n - 1)
  }

  /** Every field present, every list at its longest, every scalar at its least. */
  function Fullest(wire: Wire): Tree {
    match wire
    case WBinary => Blob([])
    case WList(element, _, max) => Arr(Long, Copies(Fullest(element), max))
    case WStruct(shape) => Rec(FullestFields(shape))
    case _ => Num(0)
  }

  function FullestFields(shape: Shape): Fields {
    match shape
    case End => Done
    case Slot(id, wire, rest) => More(id, true, Fullest(wire), FullestFields(rest))
  }

  /** Shapes whose field ids are distinct and in range and whose lists can be filled. */
  predicate Regular(wire: Wire) {
    match wire
    case WList(element, min, max) => !element.WBool? && min <= max && 0 < max && Regular(element)
    case WStruct(shape) => RegularShape(shape)
    case _ => true
  }

  predicate RegularShape(shape: Shape) {
    match shape
    case End => true
    case Slot(id, wire, rest) => 1 <= id <= MAX_FIELD_ID && Find(rest, id).None? && Regular(wire) && RegularShape(rest)
  }

  // ---------------------------------------------------------------- it counts what the bounds say

  lemma {:induction false} CopiesCount(t: Tree, n: nat)
    ensures CountItems(Copies(t, n)) == n * (1 + Count(t))
    ensures HeightItems(Copies(t, n)) == if n == 0 then 0 else 1 + Height(t)
  {
    if n > 0 {
      CopiesCount(t, n - 1);
      assert Copies(t, n)[1..] == Copies(t, n - 1);
      assert n * (1 + Count(t)) == (1 + Count(t)) + (n - 1) * (1 + Count(t));
    }
  }

  lemma {:induction false} FullestCounts(wire: Wire)
    requires Regular(wire)
    ensures Count(Fullest(wire)) == NodeBound(wire) && Height(Fullest(wire)) == DepthBound(wire)
    decreases wire
  {
    match wire
    case WList(element, _, max) =>
      FullestCounts(element);
      CopiesCount(Fullest(element), max);
    case WStruct(shape) => FieldsCount(shape);
    case _ =>
  }

  lemma {:induction false} FieldsCount(shape: Shape)
    requires RegularShape(shape)
    ensures CountFields(FullestFields(shape)) == ShapeBound(shape)
    ensures HeightFields(FullestFields(shape)) == ShapeDepth(shape)
    decreases shape
  {
    if shape.Slot? {
      FullestCounts(shape.wire);
      FieldsCount(shape.rest);
    }
  }

  // ---------------------------------------------------------------- it can be printed, and is short

  lemma {:induction false} CopiesPrint(t: Tree, wire: Wire, n: nat)
    requires Printable(t, wire)
    ensures PrintableItems(Copies(t, n), wire)
    ensures |PrintItems(Copies(t, n), wire)| == n * |Print(t, wire)|
  {
    hide Printable, Print;
    if n > 0 {
      CopiesPrint(t, wire, n - 1);
      assert Copies(t, n)[1..] == Copies(t, n - 1);
      assert n * |Print(t, wire)| == |Print(t, wire)| + (n - 1) * |Print(t, wire)|;
    }
  }

  lemma {:induction false} VarintShort(n: nat)
    ensures |Varint(n)| <= n / 128 + 1
  {
    if n >= 128 {
      VarintShort(n / 128);
    }
  }

  lemma {:induction false} FullestPrints(wire: Wire)
    requires Regular(wire) && !wire.WBool?
    ensures Printable(Fullest(wire), wire) && |Print(Fullest(wire), wire)| <= 2 + 4 * NodeBound(wire)
    decreases wire, 0
  {
    hide Varint;
    VarintShort(0);
    match wire
    case WList(element, min, max) =>
      FullestPrints(element);
      ListPrints(element, min, max);
    case WStruct(shape) =>
      FieldsPrint(shape, shape, 0, {});
    case _ =>
  }

  lemma ListPrints(element: Wire, min: nat, max: nat)
    requires Printable(Fullest(element), element) && |Print(Fullest(element), element)| <= 2 + 4 * NodeBound(element)
    requires min <= max
    ensures var wire := WList(element, min, max);
      Printable(Fullest(wire), wire) && |Print(Fullest(wire), wire)| <= 2 + 4 * NodeBound(wire)
  {
    hide Varint, PrintableItems, PrintItems, Fullest;
    var t, wire := Fullest(element), WList(element, min, max);
    assert Fullest(wire) == Arr(Long, Copies(t, max)) by { FullestList(element, min, max); }
    CopiesPrint(t, element, max);
    VarintShort(max);
    ListSize(max, |Print(t, element)|, NodeBound(element));
    hide Print, Printable;
    assert NodeBound(wire) == max * (1 + NodeBound(element));
  }

  lemma ListSize(max: nat, each: nat, bound: nat)
    requires each <= 2 + 4 * bound
    ensures max / 128 + 1 + 1 + max * each <= 2 + 4 * (max * (1 + bound))
  {
    Scaled(each, 2 + 4 * bound, max);
    assert 4 * (max * (1 + bound)) == max * (2 + 4 * bound) + 2 * max;
  }

  lemma FullestList(element: Wire, min: nat, max: nat)
    ensures Fullest(WList(element, min, max)) == Arr(Long, Copies(Fullest(element), max))
  {
  }

  lemma Scaled(a: nat, b: nat, n: nat)
    requires a <= b
    ensures n * a <= n * b
  {
  }

  /** The remaining fields of a shape, printed after those already seen. */
  lemma {:induction false} FieldsPrint(part: Shape, shape: Shape, last: int, seen: set<int>)
    requires RegularShape(part)
    requires forall id :: Find(part, id).Some? ==> Find(shape, id) == Find(part, id) && id !in seen
    ensures PrintableFields(FullestFields(part), shape, last, seen)
    ensures |PrintFields(FullestFields(part), shape, last, seen)| <= 1 + 4 * ShapeBound(part)
    decreases part, 1
  {
    hide Varint, Printable, Print;
    if part.Slot? {
      var id, wire := part.id, part.wire;
      assert Find(part, id) == Some(wire);
      if !wire.WBool? {
        FullestPrints(wire);
      }
      forall k | Find(part.rest, k).Some?
        ensures Find(shape, k) == Find(part.rest, k) && k !in seen + {id}
      {
        assert Find(part, k) == Find(part.rest, k);
      }
      FieldsPrint(part.rest, shape, id, seen + {id});
      VarintShort(Zigzag(id));
    }
  }

  // ---------------------------------------------------------------- the bounds are attained

  /** A regular shape within the ceilings has a message, accepted to its last byte, that
      visits exactly as many nodes as the static bound allows. */
  lemma BoundIsAttained(shape: Shape)
    requires RegularShape(shape) && ShapeBound(shape) <= MAX_NODES && ShapeDepth(shape) <= MAX_DEPTH
    ensures PrintableFields(FullestFields(shape), shape, 0, {})
    ensures var p := PrintFields(FullestFields(shape), shape, 0, {});
      ParseStruct(p, shape, 0, 0, 0) == Good(EraseFields(FullestFields(shape)), |p|, ShapeBound(shape))
  {
    hide PrintFields, ParseFields, FullestFields, EraseFields;
    FieldsCount(shape);
    FieldsPrint(shape, shape, 0, {});
    var p := PrintFields(FullestFields(shape), shape, 0, {});
    RoundTrip(shape, FullestFields(shape), []);
    assert p + [] == p;
  }

  lemma FooterIsRegular()
    ensures RegularShape(FileMetaData())
  {
    assert RegularShape(SchemaElement());
    assert RegularShape(ColumnChunk());
    assert RegularShape(RowGroup());
  }

  /** Some message the footer shape parses to its last byte has 7,903 nodes: the bound is the
      maximum of the typed parse. */
  lemma FooterMaximum()
    ensures var fields := FullestFields(FileMetaData());
      && PrintableFields(fields, FileMetaData(), 0, {})
      && (var p := PrintFields(fields, FileMetaData(), 0, {});
          ParseStruct(p, FileMetaData(), 0, 0, 0) == Good(EraseFields(fields), |p|, 7_903))
  {
    hide FileMetaData, PrintFields, ParseStruct, FullestFields, EraseFields, PrintableFields, RegularShape, ShapeBound,
         ShapeDepth;
    FooterIsRegular();
    FooterBounds();
    BoundIsAttained(FileMetaData());
  }
}
