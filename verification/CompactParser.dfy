/** The stateful reader: one cursor and one node counter, advanced in place. Its
    methods compute what the parsing functions say, and leave the cursor there. */
module CompactParser {
  import opened Prelude
  import opened Compact

  /** A varint value whose first groups add up to `n` and whose rest is `r`. */
  function Joined(n: nat, weight: nat, r: Parsed<nat>): Parsed<nat> {
    match r
    case Bad(e) => Bad(e)
    case Good(v, p, _) => Good(n + weight * v, p, 0)
  }

  lemma JoinStep(bytes: seq<byte>, pos: nat, k: nat, n: nat, weight: nat)
    requires k < 9 && pos < |bytes| && bytes[pos] >= 128
    ensures Joined(n, weight, VarintFrom(bytes, pos, k)) ==
            Joined(n + weight * (bytes[pos] % 128), 128 * weight, VarintFrom(bytes, pos + 1, k + 1))
  {
    var rest := VarintFrom(bytes, pos + 1, k + 1);
    if rest.Good? {
      Distribute(weight, bytes[pos] % 128, rest.value);
    }
  }

  lemma Distribute(w: nat, b: nat, v: nat)
    ensures w * (b + 128 * v) == w * b + 128 * w * v
  {
  }

  class Parser {
    const bytes: seq<byte>
    var pos: nat
    var nodes: nat

    constructor (input: seq<byte>)
      ensures bytes == input && pos == 0 && nodes == 0
    {
      bytes := input;
      pos := 0;
      nodes := 0;
    }

    method ReadByte() returns (r: Result<byte, Error>)
      modifies this`pos
      ensures old(pos) < |bytes| ==> r == Ok(bytes[old(pos)]) && pos == old(pos) + 1
      ensures old(pos) >= |bytes| ==> r == Err(Invalid) && pos == old(pos)
    {
      if pos >= |bytes| {
        return Err(Invalid);
      }
      r := Ok(bytes[pos]);
      pos := pos + 1;
    }

    method ReadVarint() returns (r: Result<nat, Error>)
      modifies this`pos
      ensures match VarintFrom(bytes, old(pos), 0)
              case Bad(e) => r == Err(e)
              case Good(n, p, _) => r == Ok(n) && pos == p
      ensures pos >= old(pos)
    {
      var n: nat, k: nat, weight: nat := 0, 0, 1;
      while k < 10
        invariant k <= 9 && pos >= old(pos)
        invariant Joined(n, weight, VarintFrom(bytes, pos, k)) == VarintFrom(bytes, old(pos), 0)
        decreases 10 - k
      {
        if pos < |bytes| && bytes[pos] >= 128 && k < 9 {
          JoinStep(bytes, pos, k, n, weight);
        }
        var b := ReadByte();
        if b.Err? {
          return Err(b.error);
        }
        if k == 9 && b.value > 1 {
          return Err(Invalid);
        }
        var group: nat := b.value % 128;
        n := n + weight * group;
        if b.value < 128 {
          return Ok(n);
        }
        k, weight := k + 1, 128 * weight;
      }
      r := Err(Invalid);
    }

    method ReadSigned(bits: nat) returns (r: Result<int, Error>)
      requires bits == 16 || bits == 32 || bits == 64
      modifies this`pos
      ensures match Signed(bytes, old(pos), bits)
              case Bad(e) => r == Err(e)
              case Good(v, p, _) => r == Ok(v) && pos == p
      ensures pos >= old(pos)
    {
      var n := ReadVarint();
      if n.Err? {
        return Err(n.error);
      }
      var v := Unzigzag(n.value);
      r := if InRange(v, bits) then Ok(v) else Err(Invalid);
    }

    method CountNode() returns (ok: bool)
      modifies this`nodes
      ensures nodes == old(nodes) + 1 && (ok <==> nodes <= MAX_NODES)
    {
      nodes := nodes + 1;
      ok := nodes <= MAX_NODES;
    }

    method ReadFieldHeader(last: int) returns (r: Result<(nat, int), Error>)
      requires pos < |bytes| && bytes[pos] != 0
      modifies this`pos
      ensures match FieldHeader(bytes, old(pos), last)
              case Bad(e) => r == Err(e)
              case Good(h, p, _) => r == Ok(h) && pos == p
      ensures pos > old(pos)
    {
      var header := bytes[pos];
      pos := pos + 1;
      var id := last + header / 16;
      if header / 16 == 0 {
        var long := ReadSigned(16);
        if long.Err? {
          return Err(long.error);
        }
        id := long.value;
      }
      r := Ok((header % 16, id));
    }

    method Structure(shape: Shape, depth: nat) returns (r: Result<seq<Entry>, Error>)
      modifies this
      ensures match ParseStruct(bytes, shape, depth, old(pos), old(nodes))
              case Bad(e) => r == Err(e)
              case Good(f, p, n) => r == Ok(f) && pos == p && nodes == n
      decreases |bytes| - pos, 1
    {
      hide FieldHeader, Find, ParseValue, ParseField;
      if depth > MAX_DEPTH {
        return Err(DepthCeiling);
      }
      var last, seen, fields := 0, {}, [];
      while pos < |bytes| && bytes[pos] != 0
        invariant old(pos) <= pos
        invariant ParseFields(bytes, shape, depth, pos, nodes, last, seen, fields) ==
                  ParseFields(bytes, shape, depth, old(pos), old(nodes), 0, {}, [])
        decreases |bytes| - pos
      {
        var h := ReadFieldHeader(last);
        if h.Err? {
          return Err(h.error);
        }
        var (ty, id) := h.value;
        if !(1 <= id <= MAX_FIELD_ID) || id in seen {
          return Err(Invalid);
        }
        var counted := CountNode();
        if !counted {
          return Err(NodeCeiling);
        }
        var wire := Find(shape, id);
        if wire.None? {
          return Err(Invalid);
        }
        var v := FieldValue(wire.value, ty, depth);
        if v.Err? {
          return Err(v.error);
        }
        last, seen, fields := id, seen + {id}, fields + [Entry(id, v.value)];
      }
      var stop := ReadByte();
      r := if stop.Ok? then Ok(fields) else Err(Invalid);
    }

    method FieldValue(wire: Wire, ty: nat, depth: nat) returns (r: Result<Node, Error>)
      modifies this
      ensures match ParseField(bytes, wire, ty, depth, old(pos), old(nodes))
              case Bad(e) => r == Err(e)
              case Good(v, p, n) => r == Ok(v) && pos == p && nodes == n
      decreases |bytes| - pos, 3
    {
      if wire.WBool? {
        if ty == 1 {
          return Ok(Int(1));
        }
        if ty == 2 {
          return Ok(Int(0));
        }
        return Err(Invalid);
      }
      if ty != Code(wire) {
        return Err(Invalid);
      }
      r := ReadValue(wire, depth);
    }

    method ReadValue(wire: Wire, depth: nat) returns (r: Result<Node, Error>)
      modifies this
      ensures match ParseValue(bytes, wire, depth, old(pos), old(nodes))
              case Bad(e) => r == Err(e)
              case Good(v, p, n) => r == Ok(v) && pos == p && nodes == n
      decreases |bytes| - pos, 2
    {
      hide VarintFrom, ParseFields, ParseItems, Signed;
      if depth > MAX_DEPTH {
        return Err(DepthCeiling);
      }
      match wire
      case WBool => r := Err(Invalid);
      case WByte =>
        var b := ReadByte();
        r := if b.Ok? then Ok(Int(SignedByte(b.value))) else Err(b.error);
      case WI16 => r := ReadInt(16);
      case WI32 => r := ReadInt(32);
      case WI64 => r := ReadInt(64);
      case WBinary =>
        var n := ReadVarint();
        if n.Err? {
          return Err(n.error);
        }
        if n.value > |bytes| {
          return Err(TooMany);
        }
        if pos + n.value > |bytes| {
          return Err(Invalid);
        }
        pos := pos + n.value;
        r := Ok(Bytes);
      case WList(element, min, max) => r := ReadList(element, min, max, depth);
      case WStruct(shape) =>
        var f := Structure(shape, depth + 1);
        r := if f.Ok? then Ok(Struct(f.value)) else Err(f.error);
    }

    method ReadInt(bits: nat) returns (r: Result<Node, Error>)
      requires bits == 16 || bits == 32 || bits == 64
      modifies this`pos
      ensures match IntNode(Signed(bytes, old(pos), bits), nodes)
              case Bad(e) => r == Err(e)
              case Good(v, p, _) => r == Ok(v) && pos == p
    {
      hide Signed;
      var v := ReadSigned(bits);
      r := if v.Ok? then Ok(Int(v.value)) else Err(v.error);
    }

    method ReadListHeader() returns (r: Result<(bool, nat, nat), Error>)
      modifies this`pos
      ensures match ListHeader(bytes, old(pos))
              case Bad(e) => r == Err(e)
              case Good(h, p, _) => r == Ok(h) && pos == p
      ensures r.Ok? ==> pos > old(pos)
    {
      var h := ReadByte();
      if h.Err? {
        return Err(h.error);
      }
      if h.value == 0 {
        return Ok((true, 0, 0));
      }
      if h.value / 16 == 15 {
        var n := ReadVarint();
        return if n.Ok? then Ok((false, h.value % 16, n.value)) else Err(n.error);
      }
      r := Ok((false, h.value % 16, h.value / 16));
    }

    method ReadList(element: Wire, min: nat, max: nat, depth: nat) returns (r: Result<Node, Error>)
      requires depth <= MAX_DEPTH
      modifies this
      ensures match ParseValue(bytes, WList(element, min, max), depth, old(pos), old(nodes))
              case Bad(e) => r == Err(e)
              case Good(v, p, n) => r == Ok(v) && pos == p && nodes == n
      decreases |bytes| - pos, 1
    {
      hide ListHeader;
      var h := ReadListHeader();
      if h.Err? {
        return Err(h.error);
      }
      var (zero, code, count) := h.value;
      if count > max {
        return Err(TooMany);
      }
      if count < min || (!zero && code != Code(element)) {
        return Err(Invalid);
      }
      ghost var start, was := pos, nodes;
      var items := [];
      var k := 0;
      while k < count
        invariant k <= count && start <= pos
        invariant ParseItems(bytes, element, count - k, depth + 1, pos, nodes, items) ==
                  ParseItems(bytes, element, count, depth + 1, start, was, [])
        decreases count - k
      {
        var counted := CountNode();
        if !counted {
          return Err(NodeCeiling);
        }
        var v := ReadValue(element, depth + 1);
        if v.Err? {
          return Err(v.error);
        }
        items := items + [v.value];
        k := k + 1;
      }
      r := Ok(List(items));
    }
  }
}
