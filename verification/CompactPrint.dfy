/** A Compact printer, in every header form the parser admits, and the proof that
    parsing undoes printing wherever the printed bytes stand. */
module CompactPrint {
  import opened Prelude
  import opened Compact

  /** How a list header spells its count; `Zero` is the single zero byte. */
  datatype Form = Short | Long | Zero

  datatype Tree =
    | Num(v: int)
    | Blob(content: seq<byte>)
    | Arr(form: Form, items: seq<Tree>)
    | Rec(fields: Fields)

  datatype Fields = Done | More(id: int, long: bool, value: Tree, rest: Fields)

  // ---------------------------------------------------------------- printing

  function Varint(n: nat): (p: seq<byte>)
    ensures |p| > 0
  {
    if n < 128 then [n] else [n % 128 + 128] + Varint(n / 128)
  }

  function Zigzag(v: int): nat {
    if v >= 0 then 2 * v else -2 * v - 1
  }

  function TypeNibble(wire: Wire, value: Tree): nat {
    if wire.WBool? then (if value == Num(1) then 1 else 2) else Code(wire)
  }

  /** What the parser keeps of a tree: integers and structure, not blob contents. */
  function Erase(t: Tree): Node
    decreases t, 1
  {
    match t
    case Num(v) => Int(v)
    case Blob(_) => Bytes
    case Arr(_, items) => List(EraseItems(items))
    case Rec(fields) => Struct(EraseFields(fields))
  }

  function EraseItems(items: seq<Tree>): seq<Node>
    decreases items, 0
  {
    if items == [] then [] else [Erase(items[0])] + EraseItems(items[1..])
  }

  function EraseFields(fields: Fields): seq<Entry>
    decreases fields, 0
  {
    if fields.Done? then [] else [Entry(fields.id, Erase(fields.value))] + EraseFields(fields.rest)
  }

  /** A tree that can stand where a value of this shape is expected. */
  predicate Printable(t: Tree, wire: Wire)
    decreases t, 1
  {
    match wire
    case WBool => false
    case WByte => t.Num? && InRange(t.v, 8)
    case WI16 => t.Num? && InRange(t.v, 16)
    case WI32 => t.Num? && InRange(t.v, 32)
    case WI64 => t.Num? && InRange(t.v, 64)
    case WBinary => t.Blob?
    case WList(element, min, max) =>
      && t.Arr? && min <= |t.items| <= max
      && (t.form.Zero? ==> t.items == []) && (t.form.Short? ==> |t.items| < 15)
      && PrintableItems(t.items, element)
    case WStruct(shape) => t.Rec? && PrintableFields(t.fields, shape, 0, {})
  }

  predicate PrintableItems(items: seq<Tree>, element: Wire)
    decreases items, 0
  {
    items == [] || (Printable(items[0], element) && PrintableItems(items[1..], element))
  }

  /** Each known id at most once; the short form only reaches the next fifteen. */
  predicate PrintableFields(f: Fields, shape: Shape, last: int, seen: set<int>)
    decreases f, 0
  {
    f.More? ==>
    && 1 <= f.id <= MAX_FIELD_ID && f.id !in seen && Find(shape, f.id).Some?
    && (!f.long ==> 1 <= f.id - last <= 15)
    && (var wire := Find(shape, f.id).value;
        if wire.WBool? then f.value == Num(0) || f.value == Num(1) else Printable(f.value, wire))
    && PrintableFields(f.rest, shape, f.id, seen + {f.id})
  }

  function Header(form: Form, count: nat, code: nat): seq<byte>
    requires code < 16 && (form.Short? ==> count < 15)
  {
    match form
    case Zero => [0]
    case Short => [16 * count + code]
    case Long => [240 + code] + Varint(count)
  }

  function FieldHead(f: Fields, wire: Wire, last: int): seq<byte>
    requires f.More? && (!f.long ==> 1 <= f.id - last <= 15)
  {
    var ty := TypeNibble(wire, f.value);
    if f.long then [ty] + Varint(Zigzag(f.id)) else [16 * (f.id - last) + ty]
  }

  function Print(t: Tree, wire: Wire): seq<byte>
    requires Printable(t, wire)
    decreases t, 1
  {
    match wire
    case WByte => [t.v % 256]
    case WBinary => Varint(|t.content|) + t.content
    case WList(element, _, _) => Header(t.form, |t.items|, Code(element)) + PrintItems(t.items, element)
    case WStruct(shape) => PrintFields(t.fields, shape, 0, {})
    case _ => Varint(Zigzag(if t.Num? then t.v else 0))
  }

  function PrintItems(items: seq<Tree>, element: Wire): seq<byte>
    requires PrintableItems(items, element)
    decreases items, 0
  {
    if items == [] then [] else Print(items[0], element) + PrintItems(items[1..], element)
  }

  function PrintFields(f: Fields, shape: Shape, last: int, seen: set<int>): seq<byte>
    requires PrintableFields(f, shape, last, seen)
    decreases f, 0
  {
    if f.Done? then [0]
    else
      var wire := Find(shape, f.id).value;
      FieldHead(f, wire, last) + (if wire.WBool? then [] else Print(f.value, wire))
      + PrintFields(f.rest, shape, f.id, seen + {f.id})
  }

  /** Nodes the parser counts, and nesting it enters, for a tree. */
  function Count(t: Tree): nat
    decreases t, 1
  {
    match t
    case Arr(_, items) => CountItems(items)
    case Rec(fields) => CountFields(fields)
    case _ => 0
  }

  function CountItems(items: seq<Tree>): nat
    decreases items, 0
  {
    if items == [] then 0 else 1 + Count(items[0]) + CountItems(items[1..])
  }

  function CountFields(fields: Fields): nat
    decreases fields, 0
  {
    if fields.Done? then 0 else 1 + Count(fields.value) + CountFields(fields.rest)
  }

  function Height(t: Tree): nat
    decreases t, 1
  {
    match t
    case Arr(_, items) => HeightItems(items)
    case Rec(fields) => 1 + HeightFields(fields)
    case _ => 0
  }

  function HeightItems(items: seq<Tree>): nat
    decreases items, 0
  {
    if items == [] then 0 else var a, b := 1 + Height(items[0]), HeightItems(items[1..]); if a >= b then a else b
  }

  function HeightFields(fields: Fields): nat
    decreases fields, 0
  {
    if fields.Done? then 0 else var a, b := Height(fields.value), HeightFields(fields.rest); if a >= b then a else b
  }

  // ---------------------------------------------------------------- round trip

  /** `p` stands in `bytes` at `pos`. */
  predicate At(bytes: seq<byte>, pos: nat, p: seq<byte>) {
    pos + |p| <= |bytes| && bytes[pos..pos + |p|] == p
  }

  lemma AtSplit(bytes: seq<byte>, pos: nat, a: seq<byte>, b: seq<byte>)
    requires At(bytes, pos, a + b)
    ensures At(bytes, pos, a) && At(bytes, pos + |a|, b)
  {
    var w := bytes[pos..pos + |a + b|];
    assert w[..|a|] == a && w[|a|..] == b;
    assert w[..|a|] == bytes[pos..pos + |a|];
    assert w[|a|..] == bytes[pos + |a|..pos + |a| + |b|];
  }

  lemma AtHead(bytes: seq<byte>, pos: nat, p: seq<byte>)
    requires At(bytes, pos, p) && p != []
    ensures pos < |bytes| && bytes[pos] == p[0]
  {
    assert bytes[pos..pos + |p|][0] == bytes[pos];
  }

  /** What the groups from `k` on can still hold: 2^(64 - 7k). */
  function Room(k: nat): nat
    requires k <= 9
    decreases 9 - k
  {
    if k == 9 then 2 else 128 * Room(k + 1)
  }

  lemma RoomIsU64()
    ensures Room(0) == U64_MAX + 1
  {
    assert Room(8) == 256;
    assert Room(7) == 32_768;
    assert Room(6) == 4_194_304;
    assert Room(5) == 536_870_912;
    assert Room(4) == 68_719_476_736;
    assert Room(3) == 8_796_093_022_208;
    assert Room(2) == 1_125_899_906_842_624;
    assert Room(1) == 144_115_188_075_855_872;
  }

  lemma {:induction false} VarintParses(bytes: seq<byte>, pos: nat, n: nat, k: nat)
    requires k <= 9 && n < Room(k) && At(bytes, pos, Varint(n))
    ensures VarintFrom(bytes, pos, k) == Good(n, pos + |Varint(n)|, 0)
    decreases n
  {
    AtHead(bytes, pos, Varint(n));
    if n >= 128 {
      AtSplit(bytes, pos, [n % 128 + 128], Varint(n / 128));
      VarintParses(bytes, pos + 1, n / 128, k + 1);
    }
  }

  lemma SignedParses(bytes: seq<byte>, pos: nat, v: int, bits: nat)
    requires (bits == 16 || bits == 32 || bits == 64) && InRange(v, bits) && At(bytes, pos, Varint(Zigzag(v)))
    ensures Signed(bytes, pos, bits) == Good(v, pos + |Varint(Zigzag(v))|, 0)
  {
    RoomIsU64();
    VarintParses(bytes, pos, Zigzag(v), 0);
  }

  lemma CodeBounds(wire: Wire)
    ensures 1 <= Code(wire) < 16
  {
  }

  lemma HeaderParses(bytes: seq<byte>, pos: nat, form: Form, count: nat, code: nat)
    requires 1 <= code < 16 && (form.Short? ==> count < 15) && (form.Zero? ==> count == 0) && count <= U64_MAX
    requires At(bytes, pos, Header(form, count, code))
    ensures ListHeader(bytes, pos) ==
      Good((form.Zero?, if form.Zero? then 0 else code, count), pos + |Header(form, count, code)|, 0)
  {
    AtHead(bytes, pos, Header(form, count, code));
    match form
    case Zero =>
    case Short =>
      assert (16 * count + code) / 16 == count && (16 * count + code) % 16 == code;
    case Long =>
      RoomIsU64();
      AtSplit(bytes, pos, [240 + code], Varint(count));
      VarintParses(bytes, pos + 1, count, 0);
  }

  lemma FieldHeadParses(bytes: seq<byte>, pos: nat, f: Fields, wire: Wire, last: int)
    requires f.More? && 1 <= f.id <= MAX_FIELD_ID && (!f.long ==> 1 <= f.id - last <= 15)
    requires At(bytes, pos, FieldHead(f, wire, last))
    ensures pos < |bytes| && bytes[pos] != 0
    ensures FieldHeader(bytes, pos, last)
            == Good((TypeNibble(wire, f.value), f.id), pos + |FieldHead(f, wire, last)|, 0)
  {
    CodeBounds(wire);
    var ty := TypeNibble(wire, f.value);
    AtHead(bytes, pos, FieldHead(f, wire, last));
    if f.long {
      AtSplit(bytes, pos, [ty], Varint(Zigzag(f.id)));
      SignedParses(bytes, pos + 1, f.id, 16);
      assert ty / 16 == 0 && ty % 16 == ty;
    } else {
      assert (16 * (f.id - last) + ty) / 16 == f.id - last && (16 * (f.id - last) + ty) % 16 == ty;
    }
  }

  lemma {:induction false} PrintedSize(items: seq<Tree>, element: Wire)
    requires PrintableItems(items, element)
    ensures |items| <= |PrintItems(items, element)|
    decreases items
  {
    if items != [] {
      PrintedNonempty(items[0], element);
      PrintedSize(items[1..], element);
    }
  }

  lemma PrintedNonempty(t: Tree, wire: Wire)
    requires Printable(t, wire)
    ensures |Print(t, wire)| > 0
  {
    hide Varint;
    if wire.WStruct? {
      FieldsNonempty(t.fields, wire.shape, 0, {});
    }
  }

  lemma FieldsNonempty(fields: Fields, shape: Shape, last: int, seen: set<int>)
    requires PrintableFields(fields, shape, last, seen)
    ensures |PrintFields(fields, shape, last, seen)| > 0
  {
  }

  lemma {:induction false} ItemsParse(bytes: seq<byte>, pos: nat, element: Wire, items: seq<Tree>,
                                      depth: nat, nodes: nat, acc: seq<Node>)
    requires |bytes| <= U64_MAX && PrintableItems(items, element) && At(bytes, pos, PrintItems(items, element))
    requires nodes + CountItems(items) <= MAX_NODES && (items != [] ==> depth + HeightItems(items) <= MAX_DEPTH + 1)
    ensures ParseItems(bytes, element, |items|, depth, pos, nodes, acc) ==
      Good(acc + EraseItems(items), pos + |PrintItems(items, element)|, nodes + CountItems(items))
    decreases items, 0
  {
    hide ParseValue, Print, Erase, Count, Height, Printable;
    if items == [] {
      assert acc + EraseItems(items) == acc;
    } else {
      var rest := items[1..];
      AtSplit(bytes, pos, Print(items[0], element), PrintItems(rest, element));
      ValueParses(bytes, pos, element, items[0], depth, nodes + 1);
      var node := Erase(items[0]);
      ItemsParse(bytes, pos + |Print(items[0], element)|, element, rest, depth, nodes + 1 + Count(items[0]),
                 acc + [node]);
      assert acc + EraseItems(items) == acc + [node] + EraseItems(rest);
    }
  }

  /** One turn of the field loop. */
  lemma FieldStep(bytes: seq<byte>, shape: Shape, depth: nat, pos: nat, nodes: nat, last: int, seen: set<int>,
                  acc: seq<Entry>, ty: nat, id: int, p: nat, node: Node, q: nat, n: nat)
    requires pos < |bytes| && bytes[pos] != 0 && FieldHeader(bytes, pos, last) == Good((ty, id), p, 0)
    requires 1 <= id <= MAX_FIELD_ID && id !in seen && nodes + 1 <= MAX_NODES && Find(shape, id).Some?
    requires ParseField(bytes, Find(shape, id).value, ty, depth, p, nodes + 1) == Good(node, q, n)
    ensures ParseFields(bytes, shape, depth, pos, nodes, last, seen, acc) ==
            ParseFields(bytes, shape, depth, q, n, id, seen + {id}, acc + [Entry(id, node)])
  {
    hide FieldHeader, Find, ParseField;
  }

  lemma {:induction false} FieldsParse(bytes: seq<byte>, pos: nat, shape: Shape, f: Fields,
                                       last: int, seen: set<int>, depth: nat, nodes: nat, acc: seq<Entry>)
    requires |bytes| <= U64_MAX && PrintableFields(f, shape, last, seen)
    requires At(bytes, pos, PrintFields(f, shape, last, seen))
    requires nodes + CountFields(f) <= MAX_NODES && depth + HeightFields(f) <= MAX_DEPTH
    ensures ParseFields(bytes, shape, depth, pos, nodes, last, seen, acc) ==
      Good(acc + EraseFields(f), pos + |PrintFields(f, shape, last, seen)|, nodes + CountFields(f))
    decreases f, 3
  {
    if f.Done? {
      AtHead(bytes, pos, [0]);
      assert acc + EraseFields(f) == acc;
    } else {
      FieldsParseMore(bytes, pos, shape, f, last, seen, depth, nodes, acc);
    }
  }

  lemma {:induction false} FieldsParseMore(bytes: seq<byte>, pos: nat, shape: Shape, f: Fields,
                                           last: int, seen: set<int>, depth: nat, nodes: nat, acc: seq<Entry>)
    requires |bytes| <= U64_MAX && PrintableFields(f, shape, last, seen) && f.More?
    requires At(bytes, pos, PrintFields(f, shape, last, seen))
    requires nodes + CountFields(f) <= MAX_NODES && depth + HeightFields(f) <= MAX_DEPTH
    ensures ParseFields(bytes, shape, depth, pos, nodes, last, seen, acc) ==
      Good(acc + EraseFields(f), pos + |PrintFields(f, shape, last, seen)|, nodes + CountFields(f))
    decreases f, 2
  {
    hide FieldHeader, FieldHead, Find, ParseFields, ParseField, ParseValue, Print, Erase, Count, Height, Printable, At;
    var wire := Find(shape, f.id).value;
    var head := FieldHead(f, wire, last);
    var body := if wire.WBool? then [] else Print(f.value, wire);
    var tail := PrintFields(f.rest, shape, f.id, seen + {f.id});
    AtSplit(bytes, pos, head + body, tail);
    AtSplit(bytes, pos, head, body);
    FieldHeadParses(bytes, pos, f, wire, last);
    FieldParses(bytes, pos + |head|, wire, f, depth, nodes + 1);
    var e := Entry(f.id, Erase(f.value));
    var q, n := pos + |head + body|, nodes + 1 + Count(f.value);
    FieldStep(bytes, shape, depth, pos, nodes, last, seen, acc, TypeNibble(wire, f.value), f.id, pos + |head|, e.node,
              q, n);
    FieldsParse(bytes, q, shape, f.rest, f.id, seen + {f.id}, depth, n, acc + [e]);
    assert acc + EraseFields(f) == acc + [e] + EraseFields(f.rest);
  }

  lemma {:induction false} FieldParses(bytes: seq<byte>, pos: nat, wire: Wire, f: Fields, depth: nat, nodes: nat)
    requires |bytes| <= U64_MAX && f.More?
    requires if wire.WBool? then f.value == Num(0) || f.value == Num(1)
             else Printable(f.value, wire) && At(bytes, pos, Print(f.value, wire))
    requires nodes + Count(f.value) <= MAX_NODES && depth + Height(f.value) <= MAX_DEPTH
    ensures ParseField(bytes, wire, TypeNibble(wire, f.value), depth, pos, nodes) ==
      Good(Erase(f.value), pos + (if wire.WBool? then 0 else |Print(f.value, wire)|), nodes + Count(f.value))
    decreases f.value, 2
  {
    if !wire.WBool? {
      ValueParses(bytes, pos, wire, f.value, depth, nodes);
    }
  }

  lemma {:induction false} ScalarParses(bytes: seq<byte>, pos: nat, wire: Wire, t: Tree, depth: nat, nodes: nat)
    requires |bytes| <= U64_MAX && Printable(t, wire) && At(bytes, pos, Print(t, wire)) && depth <= MAX_DEPTH
    requires !wire.WList? && !wire.WStruct?
    ensures ParseValue(bytes, wire, depth, pos, nodes) == Good(Erase(t), pos + |Print(t, wire)|, nodes)
  {
    hide VarintFrom, Varint;
    AtHead(bytes, pos, Print(t, wire));
    match wire
    case WI16 => SignedParses(bytes, pos, t.v, 16);
    case WI32 => SignedParses(bytes, pos, t.v, 32);
    case WI64 => SignedParses(bytes, pos, t.v, 64);
    case WBinary =>
      RoomIsU64();
      AtSplit(bytes, pos, Varint(|t.content|), t.content);
      VarintParses(bytes, pos, |t.content|, 0);
    case _ =>
  }

  /** Parsing a printed value returns its tree and consumes exactly its bytes, for
      every shape, header form, position and surrounding bytes. */
  lemma {:induction false} ValueParses(bytes: seq<byte>, pos: nat, wire: Wire, t: Tree, depth: nat, nodes: nat)
    requires |bytes| <= U64_MAX && Printable(t, wire) && At(bytes, pos, Print(t, wire))
    requires nodes + Count(t) <= MAX_NODES && depth + Height(t) <= MAX_DEPTH
    ensures ParseValue(bytes, wire, depth, pos, nodes) == Good(Erase(t), pos + |Print(t, wire)|, nodes + Count(t))
    decreases t, 1
  {
    hide VarintFrom, Varint, ParseItems, ParseFields, PrintItems, PrintFields, ListHeader, Header;
    match wire
    case WList(element, min, max) =>
      CodeBounds(element);
      var head := Header(t.form, |t.items|, Code(element));
      AtSplit(bytes, pos, head, PrintItems(t.items, element));
      PrintedSize(t.items, element);
      HeaderParses(bytes, pos, t.form, |t.items|, Code(element));
      ItemsParse(bytes, pos + |head|, element, t.items, depth + 1, nodes, []);
      assert [] + EraseItems(t.items) == EraseItems(t.items);
    case WStruct(shape) =>
      FieldsParse(bytes, pos, shape, t.fields, 0, {}, depth + 1, nodes, []);
      assert [] + EraseFields(t.fields) == EraseFields(t.fields);
    case _ =>
      ScalarParses(bytes, pos, wire, t, depth, nodes);
  }

  /** The message form of the round trip: a printed struct, with anything after it. */
  lemma RoundTrip(shape: Shape, fields: Fields, after: seq<byte>)
    requires PrintableFields(fields, shape, 0, {}) && CountFields(fields) <= MAX_NODES
    requires HeightFields(fields) <= MAX_DEPTH
    requires |PrintFields(fields, shape, 0, {}) + after| <= U64_MAX
    ensures var p := PrintFields(fields, shape, 0, {});
      ParseStruct(p + after, shape, 0, 0, 0) == Good(EraseFields(fields), |p|, CountFields(fields))
  {
    hide ParseFields, PrintFields, EraseFields;
    var p := PrintFields(fields, shape, 0, {});
    assert (p + after)[0..0 + |p|] == p;
    FieldsParse(p + after, 0, shape, fields, 0, {}, 0, 0, []);
    assert [] + EraseFields(fields) == EraseFields(fields);
  }
}
