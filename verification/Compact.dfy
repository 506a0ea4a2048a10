/** The typed Compact Thrift preflight: a parser driven by static wire shapes.

    The functions are what the parser computes from a position; `Parser` is the
    stateful reader, its methods proved to compute the same. */
module Compact {
  import opened Prelude

  type byte = x: int | 0 <= x < 256

  /** Wire shapes. A list carries its inclusive count range, a struct its fields. */
  datatype Wire =
    | WBool | WByte | WI16 | WI32 | WI64 | WBinary
    | WList(element: Wire, min: nat, max: nat)
    | WStruct(shape: Shape)

  datatype Shape = End | Slot(id: int, wire: Wire, rest: Shape)

  datatype Node = Int(v: int) | Bytes | List(items: seq<Node>) | Struct(fields: seq<Entry>)

  datatype Entry = Entry(id: int, node: Node)

  /** The last three are all limits; they are told apart so that the ceilings can be
      spoken of. */
  datatype Error = Invalid | TooMany | NodeCeiling | DepthCeiling

  datatype Parsed<+T> = Good(value: T, pos: nat, nodes: nat) | Bad(error: Error)

  const MAX_DEPTH: nat := 12
  const MAX_NODES: nat := 16_384
  const MAX_FIELD_ID: int := 63

  function Code(wire: Wire): nat {
    match wire
    case WBool => 1
    case WByte => 3
    case WI16 => 4
    case WI32 => 5
    case WI64 => 6
    case WBinary => 8
    case WList(_, _, _) => 9
    case WStruct(_) => 12
  }

  function Find(shape: Shape, id: int): Option<Wire> {
    match shape
    case End => None
    case Slot(k, wire, rest) => if k == id then Some(wire) else Find(rest, id)
  }

  // ---------------------------------------------------------------- integers

  /** The groups of a varint from group `k` on: at most ten, and the tenth holds one bit. */
  function VarintFrom(bytes: seq<byte>, pos: nat, k: nat): (r: Parsed<nat>)
    requires k <= 9
    ensures r.Good? ==> pos < r.pos <= |bytes| && r.nodes == 0
    decreases 9 - k
  {
    if pos >= |bytes| then Bad(Invalid)
    else
      var b := bytes[pos];
      if k == 9 && b > 1 then Bad(Invalid)
      else if b < 128 then Good(b, pos + 1, 0)
      else if k == 9 then Bad(Invalid)
      else
        match VarintFrom(bytes, pos + 1, k + 1)
        case Bad(e) => Bad(e)
        case Good(n, p, _) => Good(b % 128 + 128 * n, p, 0)
  }

  function Unzigzag(n: nat): int {
    if n % 2 == 0 then n / 2 else -(n / 2) - 1
  }

  function SignedByte(b: int): int {
    if b < 128 then b else b - 256
  }

  function InRange(v: int, bits: nat): bool
    requires bits == 8 || bits == 16 || bits == 32 || bits == 64
  {
    if bits == 8 then -0x80 <= v < 0x80
    else if bits == 16 then -0x8000 <= v < 0x8000
    else if bits == 32 then -0x8000_0000 <= v < 0x8000_0000
    else -0x8000_0000_0000_0000 <= v < 0x8000_0000_0000_0000
  }

  function Signed(bytes: seq<byte>, pos: nat, bits: nat): (r: Parsed<int>)
    requires bits == 16 || bits == 32 || bits == 64
    ensures r.Good? ==> pos < r.pos <= |bytes|
  {
    match VarintFrom(bytes, pos, 0)
    case Bad(e) => Bad(e)
    case Good(n, p, _) => if InRange(Unzigzag(n), bits) then Good(Unzigzag(n), p, 0) else Bad(Invalid)
  }

  // ---------------------------------------------------------------- the parser

  /** A field header: type and id, short form relative to the previous id. */
  function FieldHeader(bytes: seq<byte>, pos: nat, last: int): (r: Parsed<(nat, int)>)
    requires pos < |bytes|
    ensures r.Good? ==> pos < r.pos <= |bytes|
  {
    var header := bytes[pos];
    if header / 16 == 0 then
      match Signed(bytes, pos + 1, 16)
      case Bad(e) => Bad(e)
      case Good(id, p, _) => Good((header % 16, id), p, 0)
    else Good((header % 16, last + header / 16), pos + 1, 0)
  }

  function ParseStruct(bytes: seq<byte>, shape: Shape, depth: nat, pos: nat, nodes: nat): (r: Parsed<seq<Entry>>)
    ensures r.Good? ==> pos < r.pos <= |bytes|
    decreases |bytes| - pos, 1
  {
    if depth > MAX_DEPTH then Bad(DepthCeiling)
    else ParseFields(bytes, shape, depth, pos, nodes, 0, {}, [])
  }

  function ParseFields(bytes: seq<byte>, shape: Shape, depth: nat, pos: nat, nodes: nat,
                       last: int, seen: set<int>, fields: seq<Entry>): (r: Parsed<seq<Entry>>)
    ensures r.Good? ==> pos < r.pos <= |bytes|
    decreases |bytes| - pos, 0
  {
    if pos >= |bytes| then Bad(Invalid)
    else if bytes[pos] == 0 then Good(fields, pos + 1, nodes)
    else
      match FieldHeader(bytes, pos, last)
      case Bad(e) => Bad(e)
      case Good((ty, id), p, _) =>
        if !(1 <= id <= MAX_FIELD_ID) || id in seen then Bad(Invalid)
        else if nodes + 1 > MAX_NODES then Bad(NodeCeiling)
        else
          match Find(shape, id)
          case None => Bad(Invalid)
          case Some(wire) =>
            match ParseField(bytes, wire, ty, depth, p, nodes + 1)
            case Bad(e) => Bad(e)
            case Good(node, q, n) => ParseFields(bytes, shape, depth, q, n, id, seen + {id}, fields + [Entry(id, node)])
  }

  /** A field's value: a bool is its own type nibble, anything else must match. */
  function ParseField(bytes: seq<byte>, wire: Wire, ty: nat, depth: nat, pos: nat, nodes: nat): (r: Parsed<Node>)
    ensures r.Good? ==> pos <= r.pos && (pos <= |bytes| ==> r.pos <= |bytes|)
    decreases |bytes| - pos, 3
  {
    if wire.WBool? then
      if ty == 1 then Good(Int(1), pos, nodes) else if ty == 2 then Good(Int(0), pos, nodes) else Bad(Invalid)
    else if ty != Code(wire) then Bad(Invalid)
    else ParseValue(bytes, wire, depth, pos, nodes)
  }

  function ParseValue(bytes: seq<byte>, wire: Wire, depth: nat, pos: nat, nodes: nat): (r: Parsed<Node>)
    ensures r.Good? ==> pos < r.pos <= |bytes|
    decreases |bytes| - pos, 2
  {
    if depth > MAX_DEPTH then Bad(DepthCeiling)
    else
      match wire
      case WBool => Bad(Invalid)
      case WByte =>
        if pos >= |bytes| then Bad(Invalid)
        else Good(Int(SignedByte(bytes[pos])), pos + 1, nodes)
      case WI16 => IntNode(Signed(bytes, pos, 16), nodes)
      case WI32 => IntNode(Signed(bytes, pos, 32), nodes)
      case WI64 => IntNode(Signed(bytes, pos, 64), nodes)
      case WBinary =>
        (match VarintFrom(bytes, pos, 0)
         case Bad(e) => Bad(e)
         case Good(n, p, _) =>
           if n > |bytes| then Bad(TooMany)
           else if p + n > |bytes| then Bad(Invalid)
           else Good(Bytes, p + n, nodes))
      case WList(element, min, max) =>
        (match ListHeader(bytes, pos)
         case Bad(e) => Bad(e)
         case Good((zero, code, count), p, _) =>
           if count > max then Bad(TooMany)
           else if count < min || (!zero && code != Code(element)) then Bad(Invalid)
           else
             match ParseItems(bytes, element, count, depth + 1, p, nodes, [])
             case Bad(e) => Bad(e)
             case Good(items, q, n) => Good(List(items), q, n))
      case WStruct(shape) =>
        (match ParseStruct(bytes, shape, depth + 1, pos, nodes)
         case Bad(e) => Bad(e)
         case Good(fields, p, n) => Good(Struct(fields), p, n))
  }

  function IntNode(r: Parsed<int>, nodes: nat): (n: Parsed<Node>)
    ensures n.Good? <==> r.Good?
    ensures n.Good? ==> n.pos == r.pos && n.value == Int(r.value) && n.nodes == nodes
  {
    match r
    case Bad(e) => Bad(e)
    case Good(v, p, _) => Good(Int(v), p, nodes)
  }

  /** A list header: whether the byte is zero, the element code, and the count. */
  function ListHeader(bytes: seq<byte>, pos: nat): (r: Parsed<(bool, nat, nat)>)
    ensures r.Good? ==> pos < r.pos <= |bytes|
  {
    if pos >= |bytes| then Bad(Invalid)
    else
      var h := bytes[pos];
      if h == 0 then Good((true, 0, 0), pos + 1, 0)
      else if h / 16 == 15 then
        match VarintFrom(bytes, pos + 1, 0)
        case Bad(e) => Bad(e)
        case Good(n, p, _) => Good((false, h % 16, n), p, 0)
      else Good((false, h % 16, h / 16), pos + 1, 0)
  }

  function ParseItems(bytes: seq<byte>, element: Wire, count: nat, depth: nat, pos: nat, nodes: nat,
                      items: seq<Node>): (r: Parsed<seq<Node>>)
    ensures r.Good? ==> pos <= r.pos && (pos <= |bytes| ==> r.pos <= |bytes|)
    decreases |bytes| - pos, 4, count
  {
    if count == 0 then Good(items, pos, nodes)
    else if nodes + 1 > MAX_NODES then Bad(NodeCeiling)
    else
      match ParseValue(bytes, element, depth, pos, nodes + 1)
      case Bad(e) => Bad(e)
      case Good(node, p, n) => ParseItems(bytes, element, count - 1, depth, p, n, items + [node])
  }
}
