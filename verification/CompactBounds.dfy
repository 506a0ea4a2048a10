/** What any parse accepts, and how far any parse can get: accepted trees conform
    to their shape, and the profile's shapes cannot reach the two ceilings. */
module CompactBounds {
  import opened Prelude
  import opened Compact

  // ---------------------------------------------------------------- accepted trees conform

  ghost predicate Unique(fields: seq<Entry>) {
    forall i, j :: 0 <= i < j < |fields| ==> fields[i].id != fields[j].id
  }

  ghost predicate FieldConforms(e: Entry, shape: Shape)
    decreases e, 0
  {
    1 <= e.id <= MAX_FIELD_ID && Find(shape, e.id).Some? && Conforms(e.node, Find(shape, e.id).value)
  }

  /** A tree the shape describes: integers in range, counts in range, every field
      known and present at most once. */
  ghost predicate Conforms(node: Node, wire: Wire)
    decreases node, 0
  {
    match wire
    case WBool => node == Int(0) || node == Int(1)
    case WByte => node.Int? && InRange(node.v, 8)
    case WI16 => node.Int? && InRange(node.v, 16)
    case WI32 => node.Int? && InRange(node.v, 32)
    case WI64 => node.Int? && InRange(node.v, 64)
    case WBinary => node == Bytes
    case WList(element, min, max) =>
      node.List? && min <= |node.items| <= max && forall i :: 0 <= i < |node.items| ==> Conforms(node.items[i], element)
    case WStruct(shape) =>
      node.Struct? && Unique(node.fields) && forall i :: 0 <= i < |node.fields| ==> FieldConforms(node.fields[i], shape)
  }

  ghost predicate FieldsConform(fields: seq<Entry>, shape: Shape) {
    Unique(fields) && forall i :: 0 <= i < |fields| ==> FieldConforms(fields[i], shape)
  }

  lemma {:induction false} FieldsAccepted(bytes: seq<byte>, shape: Shape, depth: nat, pos: nat, nodes: nat,
                                          last: int, seen: set<int>, fields: seq<Entry>)
    requires FieldsConform(fields, shape) && forall i :: 0 <= i < |fields| ==> fields[i].id in seen
    ensures var r := ParseFields(bytes, shape, depth, pos, nodes, last, seen, fields);
      r.Good? ==> FieldsConform(r.value, shape)
    decreases |bytes| - pos, 0
  {
    hide FieldConforms, FieldHeader, Find;
    if pos < |bytes| && bytes[pos] != 0 {
      var h := FieldHeader(bytes, pos, last);
      if h.Good? {
        var (ty, id) := h.value;
        var wire := Find(shape, id);
        if 1 <= id <= MAX_FIELD_ID && id !in seen && nodes + 1 <= MAX_NODES && wire.Some? {
          var v := ParseField(bytes, wire.value, ty, depth, h.pos, nodes + 1);
          if v.Good? {
            FieldAccepted(bytes, wire.value, ty, depth, h.pos, nodes + 1);
            IsField(Entry(id, v.value), shape);
            FieldsAccepted(bytes, shape, depth, v.pos, v.nodes, id, seen + {id}, fields + [Entry(id, v.value)]);
          }
        }
      }
    }
  }

  lemma IsField(e: Entry, shape: Shape)
    requires 1 <= e.id <= MAX_FIELD_ID && Find(shape, e.id).Some? && Conforms(e.node, Find(shape, e.id).value)
    ensures FieldConforms(e, shape)
  {
  }

  lemma {:induction false} FieldAccepted(bytes: seq<byte>, wire: Wire, ty: nat, depth: nat, pos: nat, nodes: nat)
    ensures var r := ParseField(bytes, wire, ty, depth, pos, nodes); r.Good? ==> Conforms(r.value, wire)
    decreases |bytes| - pos, 3
  {
    if !wire.WBool? {
      ValueAccepted(bytes, wire, depth, pos, nodes);
    }
  }

  lemma {:induction false} ItemsAccepted(bytes: seq<byte>, element: Wire, count: nat, depth: nat, pos: nat, nodes: nat,
                                         items: seq<Node>)
    requires forall i :: 0 <= i < |items| ==> Conforms(items[i], element)
    ensures var r := ParseItems(bytes, element, count, depth, pos, nodes, items);
      r.Good? ==> |r.value| == |items| + count && forall i :: 0 <= i < |r.value| ==> Conforms(r.value[i], element)
    decreases |bytes| - pos, 4, count
  {
    hide Conforms;
    if count > 0 && nodes + 1 <= MAX_NODES {
      var v := ParseValue(bytes, element, depth, pos, nodes + 1);
      if v.Good? {
        ValueAccepted(bytes, element, depth, pos, nodes + 1);
        ItemsAccepted(bytes, element, count - 1, depth, v.pos, v.nodes, items + [v.value]);
      }
    }
  }

  /** On arbitrary bytes, an accepted value conforms to its shape. */
  lemma {:induction false} ValueAccepted(bytes: seq<byte>, wire: Wire, depth: nat, pos: nat, nodes: nat)
    ensures var r := ParseValue(bytes, wire, depth, pos, nodes); r.Good? ==> Conforms(r.value, wire)
    decreases |bytes| - pos, 2
  {
    hide VarintFrom, ParseItems, ParseFields;
    if depth <= MAX_DEPTH {
      match wire
      case WList(element, min, max) =>
        var h := ListHeader(bytes, pos);
        if h.Good? {
          ItemsAccepted(bytes, element, h.value.2, depth + 1, h.pos, nodes, []);
        }
      case WStruct(shape) =>
        StructAccepted(bytes, shape, depth + 1, pos, nodes);
      case _ =>
    }
  }

  lemma {:induction false} StructAccepted(bytes: seq<byte>, shape: Shape, depth: nat, pos: nat, nodes: nat)
    ensures var r := ParseStruct(bytes, shape, depth, pos, nodes); r.Good? ==> FieldsConform(r.value, shape)
    decreases |bytes| - pos, 1
  {
    hide ParseFields;
    FieldsAccepted(bytes, shape, depth, pos, nodes, 0, {}, []);
  }

  // ---------------------------------------------------------------- static bounds

  /** Most fields and elements any parse of a shape can visit. */
  function NodeBound(wire: Wire): nat {
    match wire
    case WList(element, _, max) => max * (1 + NodeBound(element))
    case WStruct(shape) => ShapeBound(shape)
    case _ => 0
  }

  function ShapeBound(shape: Shape): nat {
    match shape
    case End => 0
    case Slot(_, wire, rest) => 1 + NodeBound(wire) + ShapeBound(rest)
  }

  /** Deepest nesting any parse of a shape can enter. */
  function DepthBound(wire: Wire): nat {
    match wire
    case WList(element, _, _) => 1 + DepthBound(element)
    case WStruct(shape) => 1 + ShapeDepth(shape)
    case _ => 0
  }

  function ShapeDepth(shape: Shape): nat {
    match shape
    case End => 0
    case Slot(_, wire, rest) => if DepthBound(wire) >= ShapeDepth(rest) then DepthBound(wire) else ShapeDepth(rest)
  }

  /** The part of a struct's bound its fields seen so far can have used. */
  function Used(shape: Shape, seen: set<int>): nat {
    match shape
    case End => 0
    case Slot(id, wire, rest) => (if id in seen then 1 + NodeBound(wire) else 0) + Used(rest, seen)
  }

  lemma {:induction false} UsedBound(shape: Shape, seen: set<int>)
    ensures Used(shape, seen) <= ShapeBound(shape)
  {
    match shape
    case End =>
    case Slot(_, _, rest) => UsedBound(rest, seen);
  }

  lemma {:induction false} UsedNone(shape: Shape)
    ensures Used(shape, {}) == 0
  {
    match shape
    case End =>
    case Slot(_, _, rest) => UsedNone(rest);
  }

  /** A new field draws on its own share of the bound. */
  lemma {:induction false} UsedMore(shape: Shape, seen: set<int>, id: int)
    requires id !in seen
    ensures Used(shape, seen) <= Used(shape, seen + {id})
    ensures Find(shape, id).Some? ==>
      && Used(shape, seen + {id}) >= Used(shape, seen) + 1 + NodeBound(Find(shape, id).value)
      && DepthBound(Find(shape, id).value) <= ShapeDepth(shape)
  {
    match shape
    case End =>
    case Slot(_, _, rest) => UsedMore(rest, seen, id);
  }

  predicate Ceiling<T>(r: Parsed<T>) {
    r.Bad? && (r.error == NodeCeiling || r.error == DepthCeiling)
  }

  lemma {:induction false} FieldsBounded(bytes: seq<byte>, shape: Shape, depth: nat, pos: nat, nodes: nat,
                                         last: int, seen: set<int>, fields: seq<Entry>, start: nat)
    requires nodes <= start + Used(shape, seen)
    requires start + ShapeBound(shape) < MAX_NODES && depth + ShapeDepth(shape) <= MAX_DEPTH
    ensures var r := ParseFields(bytes, shape, depth, pos, nodes, last, seen, fields);
      !Ceiling(r) && (r.Good? ==> r.nodes <= start + ShapeBound(shape))
    decreases |bytes| - pos, 0
  {
    hide NodeBound, ShapeBound, Used, DepthBound, ShapeDepth, Find;
    UsedBound(shape, seen);
    if pos < |bytes| && bytes[pos] != 0 {
      var h := FieldHeader(bytes, pos, last);
      HeaderNoCeiling(bytes, pos, last);
      if h.Good? {
        var (ty, id) := h.value;
        var wire := Find(shape, id);
        if 1 <= id <= MAX_FIELD_ID && id !in seen {
          UsedMore(shape, seen, id);
          UsedBound(shape, seen + {id});
          if wire.Some? {
            FieldBounded(bytes, wire.value, ty, depth, h.pos, nodes + 1);
            var v := ParseField(bytes, wire.value, ty, depth, h.pos, nodes + 1);
            if v.Good? {
              FieldsBounded(bytes, shape, depth, v.pos, v.nodes, id, seen + {id}, fields + [Entry(id, v.value)], start);
            }
          }
        }
      }
    }
  }

  lemma HeaderNoCeiling(bytes: seq<byte>, pos: nat, last: int)
    requires pos < |bytes|
    ensures !Ceiling(FieldHeader(bytes, pos, last))
  {
    VarintNoCeiling(bytes, pos + 1, 0);
  }

  lemma {:induction false} VarintNoCeiling(bytes: seq<byte>, pos: nat, k: nat)
    requires k <= 9
    ensures !Ceiling(VarintFrom(bytes, pos, k))
    decreases 9 - k
  {
    if k < 9 {
      VarintNoCeiling(bytes, pos + 1, k + 1);
    }
  }

  lemma {:induction false} FieldBounded(bytes: seq<byte>, wire: Wire, ty: nat, depth: nat, pos: nat, nodes: nat)
    requires nodes + NodeBound(wire) < MAX_NODES && depth + DepthBound(wire) <= MAX_DEPTH
    ensures var r := ParseField(bytes, wire, ty, depth, pos, nodes);
      !Ceiling(r) && (r.Good? ==> r.nodes <= nodes + NodeBound(wire))
    decreases |bytes| - pos, 3
  {
    if !wire.WBool? {
      ValueBounded(bytes, wire, depth, pos, nodes);
    }
  }

  lemma {:induction false} ItemsBounded(bytes: seq<byte>, element: Wire, count: nat, depth: nat, pos: nat, nodes: nat,
                                        items: seq<Node>)
    requires nodes + count * (1 + NodeBound(element)) < MAX_NODES && depth + DepthBound(element) <= MAX_DEPTH
    ensures var r := ParseItems(bytes, element, count, depth, pos, nodes, items);
      !Ceiling(r) && (r.Good? ==> r.nodes <= nodes + count * (1 + NodeBound(element)))
    decreases |bytes| - pos, 4, count
  {
    hide NodeBound, DepthBound;
    if count > 0 {
      assert count * (1 + NodeBound(element)) == (count - 1) * (1 + NodeBound(element)) + 1 + NodeBound(element);
      ValueBounded(bytes, element, depth, pos, nodes + 1);
      var v := ParseValue(bytes, element, depth, pos, nodes + 1);
      if v.Good? {
        ItemsBounded(bytes, element, count - 1, depth, v.pos, v.nodes, items + [v.value]);
      }
    }
  }

  /** Within its static bounds a parse, accepted or refused, meets neither ceiling.
      One node is spared because an unknown field is counted before it is refused. */
  lemma {:induction false} ValueBounded(bytes: seq<byte>, wire: Wire, depth: nat, pos: nat, nodes: nat)
    requires nodes + NodeBound(wire) < MAX_NODES && depth + DepthBound(wire) <= MAX_DEPTH
    ensures var r := ParseValue(bytes, wire, depth, pos, nodes);
      !Ceiling(r) && (r.Good? ==> r.nodes <= nodes + NodeBound(wire))
    decreases |bytes| - pos, 2
  {
    hide VarintFrom, ParseItems, ParseFields;
    VarintNoCeiling(bytes, pos, 0);
    match wire
    case WList(element, min, max) =>
      VarintNoCeiling(bytes, pos + 1, 0);
      var h := ListHeader(bytes, pos);
      if h.Good? && h.value.2 <= max {
        CountBound(h.value.2, max, 1 + NodeBound(element));
        ItemsBounded(bytes, element, h.value.2, depth + 1, h.pos, nodes, []);
      }
    case WStruct(shape) =>
      StructBounded(bytes, shape, depth + 1, pos, nodes);
    case _ =>
  }

  lemma CountBound(count: nat, max: nat, each: nat)
    requires count <= max
    ensures count * each <= max * each
  {
  }

  lemma {:induction false} StructBounded(bytes: seq<byte>, shape: Shape, depth: nat, pos: nat, nodes: nat)
    requires nodes + ShapeBound(shape) < MAX_NODES && depth + ShapeDepth(shape) <= MAX_DEPTH
    ensures var r := ParseStruct(bytes, shape, depth, pos, nodes);
      !Ceiling(r) && (r.Good? ==> r.nodes <= nodes + ShapeBound(shape))
    decreases |bytes| - pos, 1
  {
    hide ParseFields, ShapeBound, ShapeDepth;
    UsedNone(shape);
    FieldsBounded(bytes, shape, depth, pos, nodes, 0, {}, [], nodes);
  }

  // ---------------------------------------------------------------- the profile's shapes

  const MAX_ENCODINGS: nat := 8
  const MAX_KEY_VALUES: nat := 8
  const N_COLUMNS: nat := 9
  const MAX_GROUPS_PER_PART: nat := 16

  function IntegerType(): Shape { Slot(1, WByte, Slot(2, WBool, End)) }

  function LogicalType(): Shape { Slot(1, WStruct(End), Slot(10, WStruct(IntegerType()), End)) }

  function SchemaElement(): Shape {
    Slot(1, WI32, Slot(3, WI32, Slot(4, WBinary, Slot(5, WI32, Slot(6, WI32, Slot(10, WStruct(LogicalType()), End))))))
  }

  function PageEncodingStats(): Shape { Slot(1, WI32, Slot(2, WI32, Slot(3, WI32, End))) }

  function ColumnMetaData(): Shape {
    Slot(1, WI32, Slot(2, WList(WI32, 1, MAX_ENCODINGS), Slot(3, WList(WBinary, 1, 1), Slot(4, WI32,
      Slot(5, WI64, Slot(6, WI64, Slot(7, WI64, Slot(9, WI64,
        Slot(13, WList(WStruct(PageEncodingStats()), 0, MAX_ENCODINGS), End)))))))))
  }

  function ColumnChunk(): Shape { Slot(2, WI64, Slot(3, WStruct(ColumnMetaData()), End)) }

  function RowGroup(): Shape {
    Slot(1, WList(WStruct(ColumnChunk()), N_COLUMNS, N_COLUMNS),
      Slot(2, WI64, Slot(3, WI64, Slot(5, WI64, Slot(6, WI64, Slot(7, WI16, End))))))
  }

  function KeyValue(): Shape { Slot(1, WBinary, Slot(2, WBinary, End)) }

  function ColumnOrder(): Shape { Slot(1, WStruct(End), End) }

  function FileMetaData(): Shape {
    Slot(1, WI32, Slot(2, WList(WStruct(SchemaElement()), N_COLUMNS + 1, N_COLUMNS + 1), Slot(3, WI64,
      Slot(4, WList(WStruct(RowGroup()), 1, MAX_GROUPS_PER_PART),
        Slot(5, WList(WStruct(KeyValue()), 0, MAX_KEY_VALUES), Slot(6, WBinary,
          Slot(7, WList(WStruct(ColumnOrder()), N_COLUMNS, N_COLUMNS), End)))))))
  }

  function DataPageHeader(): Shape { Slot(1, WI32, Slot(2, WI32, Slot(3, WI32, Slot(4, WI32, End)))) }

  function PageHeader(): Shape {
    Slot(1, WI32, Slot(2, WI32, Slot(3, WI32, Slot(5, WStruct(DataPageHeader()), End))))
  }

  // The bounds of the shapes, one slot at a time.

  ghost predicate Bounds(shape: Shape, nodes: nat, depth: nat) {
    ShapeBound(shape) == nodes && ShapeDepth(shape) == depth
  }

  lemma Scalar(id: int, wire: Wire, rest: Shape, nodes: nat, depth: nat)
    requires Bounds(rest, nodes, depth) && !wire.WList? && !wire.WStruct?
    ensures Bounds(Slot(id, wire, rest), nodes + 1, depth)
  {
  }

  lemma Nested(id: int, shape: Shape, rest: Shape, n: nat, d: nat, nodes: nat, depth: nat)
    requires Bounds(rest, nodes, depth) && Bounds(shape, n, d)
    ensures Bounds(Slot(id, WStruct(shape), rest), nodes + 1 + n, if 1 + d >= depth then 1 + d else depth)
  {
  }

  lemma Listed(id: int, shape: Shape, min: nat, max: nat, rest: Shape, n: nat, d: nat, nodes: nat, depth: nat)
    requires Bounds(rest, nodes, depth) && Bounds(shape, n, d)
    ensures Bounds(Slot(id, WList(WStruct(shape), min, max), rest), nodes + 1 + max * (1 + n),
                   if 2 + d >= depth then 2 + d else depth)
  {
    assert NodeBound(WStruct(shape)) == n && DepthBound(WStruct(shape)) == 1 + d;
    assert NodeBound(WList(WStruct(shape), min, max)) == max * (1 + n);
    assert DepthBound(WList(WStruct(shape), min, max)) == 2 + d;
  }

  lemma ListedScalar(id: int, wire: Wire, min: nat, max: nat, rest: Shape, nodes: nat, depth: nat)
    requires Bounds(rest, nodes, depth) && !wire.WList? && !wire.WStruct?
    ensures Bounds(Slot(id, WList(wire, min, max), rest), nodes + 1 + max, if 1 >= depth then 1 else depth)
  {
    assert NodeBound(WList(wire, min, max)) == max && DepthBound(WList(wire, min, max)) == 1;
  }

  lemma Nothing()
    ensures Bounds(End, 0, 0)
  {
  }

  lemma SchemaBounds()
    ensures Bounds(SchemaElement(), 10, 2)
  {
    hide Bounds;
    Nothing();
    Scalar(2, WBool, End, 0, 0);
    Scalar(1, WByte, Slot(2, WBool, End), 1, 0);
    Nested(10, IntegerType(), End, 2, 0, 0, 0);
    Nested(1, End, Slot(10, WStruct(IntegerType()), End), 0, 0, 3, 1);
    Nested(10, LogicalType(), End, 4, 1, 0, 0);
    var s10 := Slot(10, WStruct(LogicalType()), End);
    Scalar(6, WI32, s10, 5, 2);
    Scalar(5, WI32, Slot(6, WI32, s10), 6, 2);
    Scalar(4, WBinary, Slot(5, WI32, Slot(6, WI32, s10)), 7, 2);
    Scalar(3, WI32, Slot(4, WBinary, Slot(5, WI32, Slot(6, WI32, s10))), 8, 2);
    Scalar(1, WI32, Slot(3, WI32, Slot(4, WBinary, Slot(5, WI32, Slot(6, WI32, s10)))), 9, 2);
  }

  lemma ChunkBounds()
    ensures Bounds(ColumnChunk(), 52, 3)
  {
    hide Bounds;
    Nothing();
    Scalar(3, WI32, End, 0, 0);
    Scalar(2, WI32, Slot(3, WI32, End), 1, 0);
    Scalar(1, WI32, Slot(2, WI32, Slot(3, WI32, End)), 2, 0);
    Listed(13, PageEncodingStats(), 0, MAX_ENCODINGS, End, 3, 0, 0, 0);
    var s13 := Slot(13, WList(WStruct(PageEncodingStats()), 0, MAX_ENCODINGS), End);
    Scalar(9, WI64, s13, 33, 2);
    var s9 := Slot(9, WI64, s13);
    Scalar(7, WI64, s9, 34, 2);
    var s7 := Slot(7, WI64, s9);
    Scalar(6, WI64, s7, 35, 2);
    var s6 := Slot(6, WI64, s7);
    Scalar(5, WI64, s6, 36, 2);
    var s5 := Slot(5, WI64, s6);
    Scalar(4, WI32, s5, 37, 2);
    var s4 := Slot(4, WI32, s5);
    ListedScalar(3, WBinary, 1, 1, s4, 38, 2);
    var s3 := Slot(3, WList(WBinary, 1, 1), s4);
    ListedScalar(2, WI32, 1, MAX_ENCODINGS, s3, 40, 2);
    var s2 := Slot(2, WList(WI32, 1, MAX_ENCODINGS), s3);
    Scalar(1, WI32, s2, 49, 2);
    Nested(3, ColumnMetaData(), End, 50, 2, 0, 0);
    Scalar(2, WI64, Slot(3, WStruct(ColumnMetaData()), End), 51, 3);
  }

  lemma GroupBounds()
    ensures Bounds(RowGroup(), 483, 5)
  {
    hide Bounds, ColumnChunk;
    ChunkBounds();
    Nothing();
    Scalar(7, WI16, End, 0, 0);
    var s7 := Slot(7, WI16, End);
    Scalar(6, WI64, s7, 1, 0);
    var s6 := Slot(6, WI64, s7);
    Scalar(5, WI64, s6, 2, 0);
    var s5 := Slot(5, WI64, s6);
    Scalar(3, WI64, s5, 3, 0);
    var s3 := Slot(3, WI64, s5);
    Scalar(2, WI64, s3, 4, 0);
    Listed(1, ColumnChunk(), N_COLUMNS, N_COLUMNS, Slot(2, WI64, s3), 52, 3, 5, 0);
  }

  lemma FooterBounds()
    ensures Bounds(FileMetaData(), 7_903, 7)
  {
    hide Bounds, RowGroup, SchemaElement;
    SchemaBounds();
    GroupBounds();
    Nothing();
    Nested(1, End, End, 0, 0, 0, 0);
    Listed(7, ColumnOrder(), N_COLUMNS, N_COLUMNS, End, 1, 1, 0, 0);
    var s7 := Slot(7, WList(WStruct(ColumnOrder()), N_COLUMNS, N_COLUMNS), End);
    Scalar(6, WBinary, s7, 19, 3);
    var s6 := Slot(6, WBinary, s7);
    Scalar(2, WBinary, End, 0, 0);
    Scalar(1, WBinary, Slot(2, WBinary, End), 1, 0);
    Listed(5, KeyValue(), 0, MAX_KEY_VALUES, s6, 2, 0, 20, 3);
    var s5 := Slot(5, WList(WStruct(KeyValue()), 0, MAX_KEY_VALUES), s6);
    Listed(4, RowGroup(), 1, MAX_GROUPS_PER_PART, s5, 483, 5, 45, 3);
    var s4 := Slot(4, WList(WStruct(RowGroup()), 1, MAX_GROUPS_PER_PART), s5);
    Scalar(3, WI64, s4, 7_790, 7);
    var s3 := Slot(3, WI64, s4);
    Listed(2, SchemaElement(), N_COLUMNS + 1, N_COLUMNS + 1, s3, 10, 2, 7_791, 7);
    Scalar(1, WI32, Slot(2, WList(WStruct(SchemaElement()), N_COLUMNS + 1, N_COLUMNS + 1), s3), 7_902, 7);
  }

  lemma PageBounds()
    ensures Bounds(PageHeader(), 8, 1)
  {
    hide Bounds;
    Nothing();
    Scalar(4, WI32, End, 0, 0);
    Scalar(3, WI32, Slot(4, WI32, End), 1, 0);
    Scalar(2, WI32, Slot(3, WI32, Slot(4, WI32, End)), 2, 0);
    Scalar(1, WI32, Slot(2, WI32, Slot(3, WI32, Slot(4, WI32, End))), 3, 0);
    Nested(5, DataPageHeader(), End, 4, 0, 0, 0);
    var s5 := Slot(5, WStruct(DataPageHeader()), End);
    Scalar(3, WI32, s5, 5, 1);
    Scalar(2, WI32, Slot(3, WI32, s5), 6, 1);
    Scalar(1, WI32, Slot(2, WI32, Slot(3, WI32, s5)), 7, 1);
  }

  /** No parse of a footer or page header, accepted or refused, from any bytes,
      can reach the node or the depth ceiling: they are independent backstops. */
  lemma CeilingsUnreachable(bytes: seq<byte>)
    ensures !Ceiling(ParseStruct(bytes, FileMetaData(), 0, 0, 0))
    ensures !Ceiling(ParseStruct(bytes, PageHeader(), 0, 0, 0))
  {
    hide FileMetaData, PageHeader, ParseFields, ShapeBound, ShapeDepth;
    FooterBounds();
    PageBounds();
    StructBounded(bytes, FileMetaData(), 0, 0, 0);
    StructBounded(bytes, PageHeader(), 0, 0, 0);
  }
}
