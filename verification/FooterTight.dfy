/** How many nodes a footer can have: the typed shape admits 7,903, and the profile check
    leaves at most 7,901, which some footer attains. */
module FooterTight {
  import opened Prelude
  import opened Compact
  import opened CompactBounds
  import opened CompactPrint
  import opened CompactTight
  import opened Layout
  import Pages

  // ---------------------------------------------------------------- nodes of a parsed tree

  /** Fields and elements inside a parsed tree. */
  function Weight(node: Node): nat
    decreases node, 1
  {
    match node
    case List(items) => ItemsWeight(items)
    case Struct(fields) => FieldsWeight(fields)
    case _ => 0
  }

  function ItemsWeight(items: seq<Node>): nat
    decreases items, 0
  {
    if items == [] then 0 else ItemsWeight(items[..|items| - 1]) + 1 + Weight(items[|items| - 1])
  }

  function FieldsWeight(fields: seq<Entry>): nat
    decreases fields, 0
  {
    if fields == [] then 0 else FieldsWeight(fields[..|fields| - 1]) + EntryWeight(fields[|fields| - 1])
  }

  function EntryWeight(e: Entry): nat
    decreases e, 0
  {
    1 + Weight(e.node)
  }

  lemma FieldsPush(fields: seq<Entry>, e: Entry)
    ensures FieldsWeight(fields + [e]) == FieldsWeight(fields) + 1 + Weight(e.node)
  {
    assert (fields + [e])[..|fields|] == fields;
  }

  lemma ItemsPush(items: seq<Node>, node: Node)
    ensures ItemsWeight(items + [node]) == ItemsWeight(items) + 1 + Weight(node)
  {
    assert (items + [node])[..|items|] == items;
  }

  // The parser counts exactly the nodes of the tree it returns.

  lemma {:induction false} FieldsWeigh(bytes: seq<byte>, shape: Shape, depth: nat, pos: nat, nodes: nat,
                                       last: int, seen: set<int>, fields: seq<Entry>)
    ensures var r := ParseFields(bytes, shape, depth, pos, nodes, last, seen, fields);
      r.Good? ==> r.nodes + FieldsWeight(fields) == nodes + FieldsWeight(r.value)
    decreases |bytes| - pos, 0
  {
    hide FieldHeader, Find, FieldsWeight, Weight;
    if pos < |bytes| && bytes[pos] != 0 {
      var h := FieldHeader(bytes, pos, last);
      if h.Good? {
        var (ty, id) := h.value;
        var wire := Find(shape, id);
        if 1 <= id <= MAX_FIELD_ID && id !in seen && nodes + 1 <= MAX_NODES && wire.Some? {
          var v := ParseField(bytes, wire.value, ty, depth, h.pos, nodes + 1);
          if v.Good? {
            FieldWeighs(bytes, wire.value, ty, depth, h.pos, nodes + 1);
            var e := Entry(id, v.value);
            FieldsPush(fields, e);
            FieldsWeigh(bytes, shape, depth, v.pos, v.nodes, id, seen + {id}, fields + [e]);
          }
        }
      }
    }
  }

  lemma {:induction false} FieldWeighs(bytes: seq<byte>, wire: Wire, ty: nat, depth: nat, pos: nat, nodes: nat)
    ensures var r := ParseField(bytes, wire, ty, depth, pos, nodes); r.Good? ==> r.nodes == nodes + Weight(r.value)
    decreases |bytes| - pos, 3
  {
    if !wire.WBool? {
      ValueWeighs(bytes, wire, depth, pos, nodes);
    }
  }

  lemma {:induction false} ItemsWeigh(bytes: seq<byte>, element: Wire, count: nat, depth: nat, pos: nat, nodes: nat,
                                      items: seq<Node>)
    ensures var r := ParseItems(bytes, element, count, depth, pos, nodes, items);
      r.Good? ==> r.nodes + ItemsWeight(items) == nodes + ItemsWeight(r.value)
    decreases |bytes| - pos, 4, count
  {
    hide ItemsWeight, Weight;
    if count > 0 && nodes + 1 <= MAX_NODES {
      var v := ParseValue(bytes, element, depth, pos, nodes + 1);
      if v.Good? {
        ValueWeighs(bytes, element, depth, pos, nodes + 1);
        ItemsPush(items, v.value);
        ItemsWeigh(bytes, element, count - 1, depth, v.pos, v.nodes, items + [v.value]);
      }
    }
  }

  lemma {:induction false} ValueWeighs(bytes: seq<byte>, wire: Wire, depth: nat, pos: nat, nodes: nat)
    ensures var r := ParseValue(bytes, wire, depth, pos, nodes); r.Good? ==> r.nodes == nodes + Weight(r.value)
    decreases |bytes| - pos, 2
  {
    hide VarintFrom, ParseItems, ParseFields;
    if depth <= MAX_DEPTH {
      match wire
      case WList(element, min, max) =>
        var h := ListHeader(bytes, pos);
        if h.Good? {
          ItemsWeigh(bytes, element, h.value.2, depth + 1, h.pos, nodes, []);
        }
      case WStruct(shape) =>
        StructWeighs(bytes, shape, depth + 1, pos, nodes);
      case _ =>
    }
  }

  /** An accepted parse has counted exactly the fields and elements of its tree. */
  lemma {:induction false} StructWeighs(bytes: seq<byte>, shape: Shape, depth: nat, pos: nat, nodes: nat)
    ensures var r := ParseStruct(bytes, shape, depth, pos, nodes);
      r.Good? ==> r.nodes == nodes + FieldsWeight(r.value)
    decreases |bytes| - pos, 1
  {
    hide ParseFields;
    FieldsWeigh(bytes, shape, depth, pos, nodes, 0, {}, []);
  }

  // ---------------------------------------------------------------- conforming trees within the bound

  function Ids(fields: seq<Entry>): set<int> {
    set i | 0 <= i < |fields| :: fields[i].id
  }

  /** A field within its share of the bound, with something to spare if it is this one. */
  predicate Spares(e: Entry, shape: Shape, id: int, spare: nat) {
    Find(shape, e.id).Some? && Weight(e.node) + (if e.id == id then spare else 0) <= NodeBound(Find(shape, e.id).value)
  }

  lemma {:induction false} SharesFit(fields: seq<Entry>, shape: Shape, id: int, spare: nat)
    requires Unique(fields) && forall i :: 0 <= i < |fields| ==> Spares(fields[i], shape, id, spare)
    ensures FieldsWeight(fields) + (if id in Ids(fields) then spare else 0) <= Used(shape, Ids(fields))
    decreases |fields|
  {
    hide Weight, NodeBound, Used, Find;
    if fields != [] {
      var front, e := fields[..|fields| - 1], fields[|fields| - 1];
      SharesFit(front, shape, id, spare);
      IdsPush(fields);
      assert Spares(e, shape, id, spare);
      UsedMore(shape, Ids(front), e.id);
    }
  }

  lemma IdsPush(fields: seq<Entry>)
    requires fields != [] && Unique(fields)
    ensures var front, e := fields[..|fields| - 1], fields[|fields| - 1];
      Unique(front) && Ids(fields) == Ids(front) + {e.id} && e.id !in Ids(front)
  {
    var front, e := fields[..|fields| - 1], fields[|fields| - 1];
    forall id | id in Ids(fields)
      ensures id in Ids(front) + {e.id}
    {
      var i :| 0 <= i < |fields| && fields[i].id == id;
      if i < |front| {
        assert front[i].id == id;
      }
    }
    forall id | id in Ids(front)
      ensures id in Ids(fields) && id != e.id
    {
      var i :| 0 <= i < |front| && front[i].id == id;
      assert fields[i].id == id;
    }
    assert fields[|fields| - 1].id in Ids(fields);
  }

  /** Sparing part of one field spares it of the whole, present or not. */
  lemma StructSpares(fields: seq<Entry>, shape: Shape, id: int, spare: nat)
    requires Unique(fields) && forall i :: 0 <= i < |fields| ==> Spares(fields[i], shape, id, spare)
    requires spare > 0 ==> Find(shape, id).Some? && spare <= 1 + NodeBound(Find(shape, id).value)
    ensures FieldsWeight(fields) + spare <= ShapeBound(shape)
  {
    hide Weight, NodeBound, ShapeBound, Used, Find, Spares, FieldsWeight;
    SharesFit(fields, shape, id, spare);
    UsedBound(shape, Ids(fields));
    if spare > 0 && id !in Ids(fields) {
      UsedMore(shape, Ids(fields), id);
      UsedBound(shape, Ids(fields) + {id});
    }
  }

  lemma {:induction false} ListFits(items: seq<Node>, each: nat)
    requires forall i :: 0 <= i < |items| ==> Weight(items[i]) <= each
    ensures ItemsWeight(items) <= |items| * (1 + each)
    decreases |items|
  {
    hide Weight;
    if items != [] {
      var last := |items| - 1;
      ListFits(items[..last], each);
      assert |items| * (1 + each) == last * (1 + each) + 1 + each;
    }
  }

  lemma {:induction false} NodeFits(node: Node, wire: Wire)
    requires Conforms(node, wire)
    ensures Weight(node) <= NodeBound(wire)
    decreases node
  {
    match wire
    case WList(element, _, max) =>
      forall i | 0 <= i < |node.items|
        ensures Weight(node.items[i]) <= NodeBound(element)
      {
        NodeFits(node.items[i], element);
      }
      ListFits(node.items, NodeBound(element));
      CountBound(|node.items|, max, 1 + NodeBound(element));
    case WStruct(shape) =>
      forall i | 0 <= i < |node.fields|
        ensures Spares(node.fields[i], shape, 0, 0)
      {
        assert FieldConforms(node.fields[i], shape);
        NodeFits(node.fields[i].node, Find(shape, node.fields[i].id).value);
      }
      StructSpares(node.fields, shape, 0, 0);
    case _ =>
  }

  // ---------------------------------------------------------------- what the profile takes away

  lemma {:induction false} FieldFound(fields: seq<Entry>, i: nat)
    requires Unique(fields) && i < |fields|
    ensures Pages.FieldOf(fields, fields[i].id) == Some(fields[i].node)
    decreases |fields|
  {
    if i > 0 {
      assert fields[1..][i - 1] == fields[i] && fields[0].id != fields[i].id;
      FieldFound(fields[1..], i - 1);
    }
  }

  /** An integer field that is present reads as an integer. */
  lemma IntPresent(fields: seq<Entry>, shape: Shape, id: int)
    requires FieldsConform(fields, shape) && Find(shape, id) == Some(WI32)
    ensures id in Ids(fields) ==> Pages.IntOf(fields, id).Some?
  {
    if id in Ids(fields) {
      var i :| 0 <= i < |fields| && fields[i].id == id;
      FieldFound(fields, i);
      assert FieldConforms(fields[i], shape);
      assert Conforms(fields[i].node, WI32);
    }
  }

  /** The schema root has neither type nor repetition: two nodes fewer. */
  lemma RootSpares(node: Node)
    requires Conforms(node, WStruct(SchemaElement())) && ElementOk(node, 0)
    ensures Weight(node) <= 8
  {
    hide Weight, Used, ShapeBound, NodeBound, Bounds, Conforms, FieldConforms;
    var shape := SchemaElement();
    StructFits(node, shape);
    IntPresent(node.fields, shape, 1);
    IntPresent(node.fields, shape, 3);
    var ids := Ids(node.fields);
    UsedMore(shape, ids, 1);
    UsedMore(shape, ids + {1}, 3);
    UsedBound(shape, ids + {1} + {3});
    assert ShapeBound(shape) == 10 by { ElementBound(); }
  }

  lemma ElementBound()
    ensures ShapeBound(SchemaElement()) == 10 && NodeBound(WStruct(SchemaElement())) == 10
  {
    SchemaBounds();
  }

  lemma StructFits(node: Node, shape: Shape)
    requires Conforms(node, WStruct(shape))
    ensures node.Struct? && FieldsConform(node.fields, shape) && Weight(node) <= Used(shape, Ids(node.fields))
  {
    forall i | 0 <= i < |node.fields|
      ensures Spares(node.fields[i], shape, 0, 0)
    {
      assert FieldConforms(node.fields[i], shape);
      NodeFits(node.fields[i].node, Find(shape, node.fields[i].id).value);
    }
    SharesFit(node.fields, shape, 0, 0);
  }

  lemma SchemaSpares(items: seq<Node>)
    requires |items| == N_COLUMNS + 1
    requires forall i :: 0 <= i < |items| ==> Conforms(items[i], WStruct(SchemaElement())) && ElementOk(items[i], i)
    ensures ItemsWeight(items) <= 108
  {
    hide Weight, Conforms, ElementOk, SchemaElement, NodeBound;
    ElementBound();
    RootSpares(items[0]);
    var leaves := items[1..];
    forall i | 0 <= i < |leaves|
      ensures Weight(leaves[i]) <= 10
    {
      assert leaves[i] == items[i + 1];
      NodeFits(items[i + 1], WStruct(SchemaElement()));
    }
    ListFits(leaves, 10);
    FirstItem(items);
  }

  lemma {:induction false} FirstItem(items: seq<Node>)
    requires items != []
    ensures ItemsWeight(items) == 1 + Weight(items[0]) + ItemsWeight(items[1..])
    decreases |items|
  {
    hide Weight;
    var last := |items| - 1;
    if last > 0 {
      FirstItem(items[..last]);
      assert items[..last][1..] == items[1..][..last - 1];
    }
  }

  lemma FooterSpares(fields: seq<Entry>)
    requires FieldsConform(fields, FileMetaData()) && Profile(fields)
    ensures FieldsWeight(fields) <= 7_901
  {
    hide Weight, ElementOk, GroupMetaOk, SchemaElement, RowGroup, NodeBound, ShapeBound, Conforms, FieldsWeight, Bounds;
    var shape := FileMetaData();
    forall i | 0 <= i < |fields|
      ensures Spares(fields[i], shape, 2, 2)
    {
      assert FieldConforms(fields[i], shape);
      if fields[i].id == 2 {
        FieldFound(fields, i);
        assert fields[i].node.List? ==> ListOf(fields, 2) == fields[i].node.items;
        SchemaFits(fields[i].node);
      } else {
        NodeFits(fields[i].node, Find(shape, fields[i].id).value);
      }
    }
    SchemaRoom();
    StructSpares(fields, shape, 2, 2);
    assert ShapeBound(shape) == 7_903 by { FooterNodes(); }
  }

  function SchemaWire(): Wire {
    WList(WStruct(SchemaElement()), N_COLUMNS + 1, N_COLUMNS + 1)
  }

  lemma SchemaRoom()
    ensures NodeBound(SchemaWire()) == 110
  {
    hide SchemaElement;
    ElementBound();
    assert NodeBound(SchemaWire()) == 10 * (1 + NodeBound(WStruct(SchemaElement())));
  }

  lemma FooterNodes()
    ensures ShapeBound(FileMetaData()) == 7_903 && ShapeDepth(FileMetaData()) == 7
  {
    hide FileMetaData;
    FooterBounds();
  }

  lemma SchemaFits(node: Node)
    requires Conforms(node, SchemaWire())
    requires node.List? ==> forall i :: 0 <= i < |node.items| ==> ElementOk(node.items[i], i)
    ensures Weight(node) + 2 <= NodeBound(SchemaWire())
  {
    hide ElementOk, SchemaElement, NodeBound, ItemsWeight;
    SchemaRoom();
    SchemaSpares(node.items);
  }

  // ---------------------------------------------------------------- a footer that attains it

  function ElementTail(): Shape { Slot(6, WI32, Slot(10, WStruct(LogicalType()), End)) }

  /** The root of the schema: a name and nine children. */
  function Root(): Tree {
    Rec(More(4, true, Blob([]), More(5, true, Num(|COLUMNS|), FullestFields(ElementTail()))))
  }

  /** The leaf of one column. */
  function Leaf(column: Pages.Column): Tree {
    Rec(More(1, true, Num(PhysicalCode(column.physical)), More(3, true, Num(if column.optional then 1 else 0),
      More(4, true, Blob([]), More(5, true, Num(0), FullestFields(ElementTail()))))))
  }

  function Elements(): (s: seq<Tree>)
    ensures |s| == N_COLUMNS + 1
  {
    [Root()] + seq(N_COLUMNS, i requires 0 <= i < N_COLUMNS => Leaf(COLUMNS[i]))
  }

  function FooterTail(): Shape { FileMetaData().rest.rest }

  function FullFooter(): Fields {
    More(1, true, Num(0), More(2, true, Arr(Long, Elements()), FullestFields(FooterTail())))
  }

  lemma TailBounds()
    ensures Bounds(ElementTail(), 6, 2)
  {
    hide Bounds;
    Nothing();
    Scalar(2, WBool, End, 0, 0);
    Scalar(1, WByte, Slot(2, WBool, End), 1, 0);
    Nested(10, IntegerType(), End, 2, 0, 0, 0);
    Nested(1, End, Slot(10, WStruct(IntegerType()), End), 0, 0, 3, 1);
    Nested(10, LogicalType(), End, 4, 1, 0, 0);
    Scalar(6, WI32, Slot(10, WStruct(LogicalType()), End), 5, 2);
  }

  lemma TailRegular()
    ensures RegularShape(ElementTail())
  {
    assert RegularShape(LogicalType());
  }

  lemma TailFound(id: int)
    ensures Find(ElementTail(), id).Some? ==>
      (id == 6 || id == 10) && Find(SchemaElement(), id) == Find(ElementTail(), id)
  {
    var s10 := Slot(10, WStruct(LogicalType()), End);
    assert Find(End, id).None? && Find(s10, id) == if id == 10 then Some(s10.wire) else Find(End, id);
    assert Find(ElementTail(), id).Some? ==> id == 6 || id == 10;
    var s4 := Slot(4, WBinary, Slot(5, WI32, ElementTail()));
    assert id != 4 && id != 5 ==> Find(s4, id) == Find(ElementTail(), id);
    assert SchemaElement() == Slot(1, WI32, Slot(3, WI32, s4));
  }

  /** What printing and counting need to know of one element. */
  ghost predicate Prints(t: Tree, count: nat) {
    var wire := WStruct(SchemaElement());
    Printable(t, wire) && |Print(t, wire)| <= 100 && Count(t) == count && Height(t) == 3
  }

  lemma TailPrints(seen: set<int>)
    requires 6 !in seen && 10 !in seen
    ensures var tail := FullestFields(ElementTail());
      && PrintableFields(tail, SchemaElement(), 5, seen) && |PrintFields(tail, SchemaElement(), 5, seen)| <= 25
      && CountFields(tail) == 6 && HeightFields(tail) == 2
  {
    hide FullestFields, PrintableFields, PrintFields, ShapeBound, ShapeDepth, RegularShape, CountFields, HeightFields;
    TailRegular();
    TailBounds();
    forall id | Find(ElementTail(), id).Some?
      ensures Find(SchemaElement(), id) == Find(ElementTail(), id) && id !in seen
    {
      TailFound(id);
    }
    FieldsPrint(ElementTail(), SchemaElement(), 5, seen);
    FieldsCount(ElementTail());
  }

  /** A field in the long form takes two bytes besides its value. */
  lemma FieldPrints(f: Fields, shape: Shape, last: int, seen: set<int>, wire: Wire, size: nat, rest: nat)
    requires f.More? && f.long && 1 <= f.id <= MAX_FIELD_ID && f.id !in seen
    requires Find(shape, f.id) == Some(wire) && !wire.WBool?
    requires Printable(f.value, wire) && |Print(f.value, wire)| <= size
    requires PrintableFields(f.rest, shape, f.id, seen + {f.id})
    requires |PrintFields(f.rest, shape, f.id, seen + {f.id})| <= rest
    ensures PrintableFields(f, shape, last, seen) && |PrintFields(f, shape, last, seen)| <= 2 + size + rest
  {
    hide Varint, Find, Printable, Print;
    VarintShort(Zigzag(f.id));
  }

  lemma ScalarField(f: Fields, last: int, seen: set<int>, rest: nat)
    requires f.More? && f.long && 1 <= f.id <= MAX_FIELD_ID && f.id !in seen
    requires var wire := Find(SchemaElement(), f.id);
      (wire == Some(WI32) && f.value.Num? && 0 <= f.value.v < 64) || (wire == Some(WBinary) && f.value == Blob([]))
    requires PrintableFields(f.rest, SchemaElement(), f.id, seen + {f.id})
    requires |PrintFields(f.rest, SchemaElement(), f.id, seen + {f.id})| <= rest
    ensures PrintableFields(f, SchemaElement(), last, seen)
    ensures |PrintFields(f, SchemaElement(), last, seen)| <= 3 + rest
    ensures CountFields(f) == 1 + CountFields(f.rest) && HeightFields(f) == HeightFields(f.rest)
  {
    hide Varint, SchemaElement, Find, PrintableFields, PrintFields;
    VarintShort(0);
    if f.value.Num? {
      VarintShort(Zigzag(f.value.v));
    }
    FieldPrints(f, SchemaElement(), last, seen, Find(SchemaElement(), f.id).value, 1, rest);
  }

  lemma RootPrints()
    ensures Prints(Root(), 8)
  {
    hide FullestFields, PrintableFields, PrintFields, CountFields, HeightFields;
    var tail := FullestFields(ElementTail());
    TailPrints({} + {4} + {5});
    var f5 := More(5, true, Num(|COLUMNS|), tail);
    ScalarField(f5, 4, {} + {4}, 25);
    ScalarField(More(4, true, Blob([]), f5), 0, {}, 28);
  }

  lemma LeafPrints(column: Pages.Column)
    requires column in COLUMNS
    ensures Prints(Leaf(column), 10)
  {
    hide FullestFields, PrintableFields, PrintFields, CountFields, HeightFields;
    var tail := FullestFields(ElementTail());
    var s1 := {} + {1};
    var s3 := s1 + {3};
    var s4 := s3 + {4};
    TailPrints(s4 + {5});
    var f5 := More(5, true, Num(0), tail);
    ScalarField(f5, 4, s4, 25);
    var f4 := More(4, true, Blob([]), f5);
    ScalarField(f4, 3, s3, 28);
    var f3 := More(3, true, Num(if column.optional then 1 else 0), f4);
    ScalarField(f3, 1, s1, 31);
    ScalarField(More(1, true, Num(PhysicalCode(column.physical)), f3), 0, {}, 34);
  }

  lemma {:induction false} ItemsPrint(items: seq<Tree>, count: nat)
    requires forall i :: 0 <= i < |items| ==> Prints(items[i], count)
    ensures PrintableItems(items, WStruct(SchemaElement()))
    ensures |PrintItems(items, WStruct(SchemaElement()))| <= 100 * |items|
    ensures CountItems(items) == |items| * (1 + count) && HeightItems(items) == if items == [] then 0 else 4
    decreases |items|
  {
    hide Printable, Print, Count, Height, SchemaElement;
    if items != [] {
      assert Prints(items[0], count);
      ItemsPrint(items[1..], count);
      assert |items| * (1 + count) == 1 + count + (|items| - 1) * (1 + count);
    }
  }

  lemma ElementsPrint()
    ensures PrintableItems(Elements(), WStruct(SchemaElement()))
    ensures |PrintItems(Elements(), WStruct(SchemaElement()))| <= 1000
    ensures CountItems(Elements()) == 108 && HeightItems(Elements()) == 4
  {
    hide Prints, Printable, Print, Count, Height, SchemaElement, Root, Leaf;
    var items := Elements();
    RootPrints();
    var leaves := items[1..];
    forall i | 0 <= i < |leaves|
      ensures Prints(leaves[i], 10)
    {
      assert leaves[i] == Leaf(COLUMNS[i]);
      LeafPrints(COLUMNS[i]);
    }
    ItemsPrint(leaves, 10);
    RootIs(items[0]);
  }

  lemma RootIs(t: Tree)
    requires Prints(t, 8)
    ensures Printable(t, WStruct(SchemaElement())) && |Print(t, WStruct(SchemaElement()))| <= 100
    ensures Count(t) == 8 && Height(t) == 3
  {
    hide Printable, Print, Count, Height;
  }

  lemma FooterTailPrints()
    ensures var shape, tail := FileMetaData(), FullestFields(FooterTail());
      && PrintableFields(tail, shape, 2, {} + {1} + {2})
      && |PrintFields(tail, shape, 2, {} + {1} + {2})| <= 1 + 4 * 7_791
      && CountFields(tail) == 7_791 && HeightFields(tail) <= 7
  {
    hide FullestFields, PrintableFields, PrintFields, CountFields, HeightFields, SchemaElement, RowGroup;
    var shape := FileMetaData();
    FooterIsRegular();
    RestRegular(shape);
    RestRegular(shape.rest);
    forall id | Find(FooterTail(), id).Some?
      ensures Find(shape, id) == Find(FooterTail(), id) && id !in {} + {1} + {2}
    {
      assert Find(shape.rest, id) == Find(FooterTail(), id);
    }
    FieldsPrint(FooterTail(), shape, 2, {} + {1} + {2});
    FieldsCount(FooterTail());
    TailNodes();
  }

  /** The rest of a regular shape is regular and has none of its first id. */
  lemma RestRegular(shape: Shape)
    requires RegularShape(shape) && shape.Slot?
    ensures RegularShape(shape.rest) && Find(shape.rest, shape.id).None?
  {
  }

  lemma TailNodes()
    ensures ShapeBound(FooterTail()) == 7_791 && ShapeDepth(FooterTail()) <= 7
  {
    hide SchemaElement, RowGroup, NodeBound, DepthBound;
    var shape := FileMetaData();
    FooterNodes();
    SchemaRoom();
    assert ShapeBound(shape) == 1 + NodeBound(WI32) + ShapeBound(shape.rest);
    assert ShapeBound(shape.rest) == 1 + NodeBound(SchemaWire()) + ShapeBound(FooterTail());
    assert NodeBound(WI32) == 0 by { ScalarBound(); }
  }

  lemma ScalarBound()
    ensures NodeBound(WI32) == 0
  {
  }

  lemma SchemaPrints()
    ensures var t := Arr(Long, Elements());
      && Printable(t, SchemaWire()) && |Print(t, SchemaWire())| <= 1010 && Count(t) == 108 && Height(t) == 4
  {
    hide SchemaElement, Elements, Varint, PrintItems, PrintableItems, CountItems, HeightItems;
    ElementsPrint();
    VarintShort(10);
  }

  lemma ZeroPrints()
    ensures Printable(Num(0), WI32) && |Print(Num(0), WI32)| == 1
  {
  }

  lemma FullPrints()
    ensures var shape, f := FileMetaData(), FullFooter();
      && PrintableFields(f, shape, 0, {}) && |PrintFields(f, shape, 0, {})| <= 40_000
      && CountFields(f) == 7_901 && HeightFields(f) <= 7
  {
    hide FullestFields, SchemaElement, RowGroup, Elements, Printable, Print, PrintableFields, PrintFields, Count,
         Height;
    var shape, f := FileMetaData(), FullFooter();
    FooterTailPrints();
    SchemaPrints();
    ZeroPrints();
    FieldPrints(f.rest, shape, 1, {} + {1}, SchemaWire(), 1010, 1 + 4 * 7_791);
    FieldPrints(f, shape, 0, {}, WI32, 1, 35_000);
    assert Count(Num(0)) == 0 && Height(Num(0)) == 0 by { ZeroCounts(); }
  }

  lemma ZeroCounts()
    ensures Count(Num(0)) == 0 && Height(Num(0)) == 0
  {
  }

  // The profile accepts it.

  lemma {:induction false} ErasedAt(items: seq<Tree>, i: nat)
    requires i < |items|
    ensures |EraseItems(items)| == |items| && EraseItems(items)[i] == Erase(items[i])
    decreases |items|
  {
    hide Erase;
    if |items| > 1 {
      ErasedAt(items[1..], if i > 0 then i - 1 else 0);
    }
  }

  lemma {:induction false} CopiesErased(t: Tree, n: nat)
    ensures forall e :: e in EraseItems(Copies(t, n)) ==> e == Erase(t)
  {
    hide Erase;
    if n > 0 {
      CopiesErased(t, n - 1);
      assert Copies(t, n)[1..] == Copies(t, n - 1);
    }
  }

  /** Every field of a shape is in its fullest message. */
  lemma {:induction false} FullestHas(shape: Shape, id: int)
    requires Find(shape, id).Some?
    ensures Pages.FieldOf(EraseFields(FullestFields(shape)), id) == Some(Erase(Fullest(Find(shape, id).value)))
    decreases shape
  {
    hide Erase, Fullest;
    if shape.id != id {
      FullestHas(shape.rest, id);
      assert EraseFields(FullestFields(shape))[1..] == EraseFields(FullestFields(shape.rest));
    }
  }

  /** A list field of a fullest message holds copies of its fullest element. */
  lemma FullestCopies(shape: Shape, id: int)
    requires Find(shape, id).Some? && Find(shape, id).value.WList?
    ensures forall e :: e in ListOf(EraseFields(FullestFields(shape)), id) ==>
      e == Erase(Fullest(Find(shape, id).value.element))
  {
    hide EraseItems, FullestFields, EraseFields;
    FullestHas(shape, id);
    var wire := Find(shape, id).value;
    CopiesErased(Fullest(wire.element), wire.max);
  }

  lemma FullestStruct(shape: Shape)
    ensures Erase(Fullest(WStruct(shape))) == Struct(EraseFields(FullestFields(shape)))
  {
  }

  lemma StatsFit()
    ensures StatsOk(Erase(Fullest(WStruct(PageEncodingStats()))))
  {
    hide EraseFields, FullestFields;
    FullestStruct(PageEncodingStats());
    FullestHas(PageEncodingStats(), 1);
    FullestHas(PageEncodingStats(), 2);
  }

  lemma ChunkFits()
    ensures ChunkMetaOk(Erase(Fullest(WStruct(ColumnChunk()))))
  {
    hide EraseFields, FullestFields, StatsOk;
    FullestStruct(ColumnChunk());
    FullestStruct(ColumnMetaData());
    FullestHas(ColumnChunk(), 3);
    FoundIn();
    FullestCopies(ColumnMetaData(), 2);
    FullestCopies(ColumnMetaData(), 13);
    StatsFit();
  }

  lemma FoundIn()
    ensures Find(ColumnMetaData(), 2) == Some(WList(WI32, 1, MAX_ENCODINGS))
    ensures Find(ColumnMetaData(), 13) == Some(WList(WStruct(PageEncodingStats()), 0, MAX_ENCODINGS))
  {
    var s6 := Slot(6, WI64, Slot(7, WI64, Slot(9, WI64,
      Slot(13, WList(WStruct(PageEncodingStats()), 0, MAX_ENCODINGS), End))));
    assert Find(s6, 13) == Find(s6.rest.rest, 13);
    var s3 := Slot(3, WList(WBinary, 1, 1), Slot(4, WI32, Slot(5, WI64, s6)));
    assert Find(s3, 13) == Find(s3.rest.rest, 13);
    assert ColumnMetaData() == Slot(1, WI32, Slot(2, WList(WI32, 1, MAX_ENCODINGS), s3));
  }

  lemma GroupFits()
    ensures GroupMetaOk(Erase(Fullest(WStruct(RowGroup()))))
  {
    hide EraseFields, FullestFields, ChunkMetaOk, ColumnChunk;
    FullestStruct(RowGroup());
    FullestCopies(RowGroup(), 1);
    ChunkFits();
  }

  lemma {:induction false} FullestLacks(shape: Shape, id: int)
    requires Find(shape, id).None?
    ensures Pages.FieldOf(EraseFields(FullestFields(shape)), id).None?
    decreases shape
  {
    hide Erase, Fullest;
    if shape.Slot? {
      FullestLacks(shape.rest, id);
      assert EraseFields(FullestFields(shape))[1..] == EraseFields(FullestFields(shape.rest));
    }
  }

  lemma FieldStep(f: Fields, id: int)
    requires f.More?
    ensures Pages.FieldOf(EraseFields(f), id) ==
      if f.id == id then Some(Erase(f.value)) else Pages.FieldOf(EraseFields(f.rest), id)
  {
    hide Erase;
    assert EraseFields(f)[1..] == EraseFields(f.rest);
  }

  lemma TailLacks(id: int)
    requires id == 1 || id == 3
    ensures Pages.FieldOf(EraseFields(FullestFields(ElementTail())), id).None?
  {
    TailFound(id);
    FullestLacks(ElementTail(), id);
  }

  lemma RootFits()
    ensures ElementOk(Erase(Root()), 0)
  {
    hide EraseFields, FullestFields, Pages.FieldOf;
    var f := Root().fields;
    TailLacks(1);
    TailLacks(3);
    FieldStep(f, 1);
    FieldStep(f.rest, 1);
    FieldStep(f, 3);
    FieldStep(f.rest, 3);
    FieldStep(f, 5);
    FieldStep(f.rest, 5);
  }

  lemma LeafFits(i: nat)
    requires i < |COLUMNS|
    ensures ElementOk(Erase(Leaf(COLUMNS[i])), i + 1)
  {
    hide EraseFields, FullestFields, Pages.FieldOf;
    var f := Leaf(COLUMNS[i]).fields;
    FieldStep(f, 1);
    FieldStep(f, 3);
    FieldStep(f.rest, 3);
    FieldStep(f, 5);
    FieldStep(f.rest, 5);
    FieldStep(f.rest.rest, 5);
    FieldStep(f.rest.rest.rest, 5);
  }

  lemma FullFits()
    ensures Profile(EraseFields(FullFooter()))
  {
    hide EraseFields, FullestFields, Pages.FieldOf, ElementOk, GroupMetaOk, Root, Leaf, SchemaElement, RowGroup,
         EraseItems;
    var f := FullFooter();
    FieldStep(f, 2);
    FieldStep(f.rest, 2);
    FieldStep(f, 4);
    FieldStep(f.rest, 4);
    ErasedAt(Elements(), 0);
    forall i | 0 <= i < |EraseItems(Elements())|
      ensures ElementOk(EraseItems(Elements())[i], i)
    {
      ErasedAt(Elements(), i);
      if i == 0 {
        RootFits();
      } else {
        LeafFits(i - 1);
      }
    }
    assert ListOf(EraseFields(f), 2) == EraseItems(Elements());
    assert ListOf(EraseFields(f), 4) == ListOf(EraseFields(FullestFields(FooterTail())), 4);
    assert Find(FooterTail(), 4) == Some(WList(WStruct(RowGroup()), 1, MAX_GROUPS_PER_PART));
    FullestCopies(FooterTail(), 4);
    GroupFits();
  }

  // ---------------------------------------------------------------- the maximum

  /** No footer of the profile, from any bytes, has more than 7,901 nodes. */
  lemma ProfileBound(footer: seq<byte>)
    requires ProfileFooter(footer)
    ensures ParseStruct(footer, FileMetaData(), 0, 0, 0).nodes <= 7_901
  {
    hide ParseStruct, FileMetaData, Profile, FieldsConform, FieldsWeight;
    StructAccepted(footer, FileMetaData(), 0, 0, 0);
    StructWeighs(footer, FileMetaData(), 0, 0, 0);
    FooterSpares(ParseStruct(footer, FileMetaData(), 0, 0, 0).value);
  }

  /** Some footer of the profile has 7,901 nodes. */
  lemma ProfileMaximum()
    ensures PrintableFields(FullFooter(), FileMetaData(), 0, {})
    ensures var footer := PrintFields(FullFooter(), FileMetaData(), 0, {});
      ProfileFooter(footer) && ParseStruct(footer, FileMetaData(), 0, 0, 0).nodes == 7_901 && |footer| <= 40_000
  {
    hide ParseStruct, FileMetaData, FullFooter, Profile, PrintableFields, PrintFields, EraseFields, CountFields,
         HeightFields;
    FullPrints();
    FullFits();
    var footer := PrintFields(FullFooter(), FileMetaData(), 0, {});
    RoundTrip(FileMetaData(), FullFooter(), []);
    assert footer + [] == footer;
  }
}
