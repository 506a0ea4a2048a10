/** Policy masking of entity records: what is visible, and what a visible record shows. */
module Sanitize {
  import opened Prelude

  /** Haystack values. Lists, dicts and grids nest; every other kind is a scalar, a
      reference or a nominal value. */
  datatype Kind =
    | Scalar(bits: nat)
    | Ref(val: string, dis: Option<string>)
    | Nominal(spec: string, provenance: nat)
    | List(items: Kinds)
    | Record(fields: Dict)
    | Grid(meta: Dict, cols: Cols, rows: Dicts)

  datatype Kinds = NoItems | Item(value: Kind, next: Kinds)

  /** Tags in iteration order. */
  datatype Dict = NoTags | Tag(name: string, value: Kind, next: Dict)

  datatype Cols = NoCols | Col(name: string, meta: Dict, next: Cols)

  datatype Dicts = NoRows | Row(row: Dict, next: Dicts)

  datatype Policy = Policy(
    entity: string -> bool, tag: (string, string) -> bool, reference: string -> bool, display: string -> bool,
    spec: string -> bool, library: string -> bool, provenance: (string, nat) -> bool)

  // ---------------------------------------------------------------- visibility

  /** Split at the first "::". */
  function SplitOnce(s: string): Option<(string, string)> {
    if |s| < 2 then None
    else if s[0] == ':' && s[1] == ':' then Some(("", s[2..]))
    else
      match SplitOnce(s[1..])
      case None => None
      case Some((library, name)) => Some(([s[0]] + library, name))
  }

  predicate Separated(s: string) {
    exists i :: 0 <= i < |s| - 1 && s[i] == ':' && s[i + 1] == ':'
  }

  lemma StaysClear(c: char, t: string)
    requires !Separated(t) && (t != [] ==> c != ':' || t[0] != ':')
    ensures !Separated([c] + t)
  {
    var s := [c] + t;
    forall i | 0 <= i < |s| - 1
      ensures s[i] != ':' || s[i + 1] != ':'
    {
      if i > 0 {
        assert s[i] == t[i - 1] && s[i + 1] == t[i - 1 + 1];
      }
    }
  }

  /** The split is at the first separator, and there is none to find otherwise. */
  lemma {:induction false} SplitOnceMeans(s: string)
    ensures SplitOnce(s).Some? <==> Separated(s)
    ensures SplitOnce(s).Some? ==>
      var (library, name) := SplitOnce(s).value;
      s == library + "::" + name && !Separated(library + ":")
  {
    if |s| >= 2 && !(s[0] == ':' && s[1] == ':') {
      SplitOnceMeans(s[1..]);
      if Separated(s) {
        var i :| 0 <= i < |s| - 1 && s[i] == ':' && s[i + 1] == ':';
        assert s[1..][i - 1] == ':' && s[1..][i - 1 + 1] == ':';
      }
      if Separated(s[1..]) {
        var i :| 0 <= i < |s[1..]| - 1 && s[1..][i] == ':' && s[1..][i + 1] == ':';
        assert s[i + 1] == ':' && s[i + 1 + 1] == ':';
        var (library, name) := SplitOnce(s[1..]).value;
        assert s == [s[0]] + s[1..];
        assert (library + ":")[0] == s[1];
        StaysClear(s[0], library + ":");
        assert [s[0]] + library + ":" == [s[0]] + (library + ":");
      }
    }
  }

  /** The library of a structural `spec` or `of` annotation. */
  function CatalogLibrary(tag: string, value: Kind): Option<string> {
    if (tag != "spec" && tag != "of") || !value.Ref? then None
    else
      match SplitOnce(value.val)
      case None => None
      case Some((library, name)) => if library == "" || name == "" then None else Some(library)
  }

  predicate NominalVisible(policy: Policy, spec: string, provenance: nat) {
    && policy.spec(spec) && SplitOnce(spec).Some? && policy.library(SplitOnce(spec).value.0)
    && policy.provenance(spec, provenance)
  }

  predicate MemberVisible(policy: Policy, tag: string, value: Kind, own: bool)
    decreases value, 1
  {
    match CatalogLibrary(tag, value)
    case Some(library) => policy.spec(value.val) && policy.library(library)
    case None => ValueVisible(policy, value, own)
  }

  predicate ValueVisible(policy: Policy, value: Kind, own: bool)
    decreases value, 0
  {
    match value
    case Ref(val, _) => own || (policy.entity(val) && policy.reference(val))
    case Nominal(spec, provenance) => NominalVisible(policy, spec, provenance)
    case List(items) => ItemsVisible(policy, items)
    case Record(fields) => DictVisible(policy, fields)
    case Grid(meta, cols, rows) => DictVisible(policy, meta) && ColsVisible(policy, cols) && RowsVisible(policy, rows)
    case Scalar(_) => true
  }

  predicate ItemsVisible(policy: Policy, items: Kinds)
    decreases items
  {
    items.NoItems? || (ValueVisible(policy, items.value, false) && ItemsVisible(policy, items.next))
  }

  predicate DictVisible(policy: Policy, dict: Dict)
    decreases dict
  {
    dict.NoTags? || (MemberVisible(policy, dict.name, dict.value, false) && DictVisible(policy, dict.next))
  }

  predicate ColsVisible(policy: Policy, cols: Cols)
    decreases cols
  {
    cols.NoCols? || (DictVisible(policy, cols.meta) && ColsVisible(policy, cols.next))
  }

  predicate RowsVisible(policy: Policy, rows: Dicts)
    decreases rows
  {
    rows.NoRows? || (DictVisible(policy, rows.row) && RowsVisible(policy, rows.next))
  }

  // ---------------------------------------------------------------- masking

  function CopyValue(policy: Policy, owner: string, value: Kind): Kind
    decreases value
  {
    match value
    case Ref(val, dis) => Ref(val, if policy.display(val) then dis else None)
    case List(items) => List(CopyItems(policy, owner, items))
    case Record(fields) => Record(CopyDict(policy, owner, fields))
    case Grid(meta, cols, rows) =>
      Grid(CopyDict(policy, owner, meta), CopyCols(policy, owner, cols), CopyRows(policy, owner, rows))
    case _ => value
  }

  function CopyItems(policy: Policy, owner: string, items: Kinds): Kinds
    decreases items
  {
    if items.NoItems? then NoItems
    else Item(CopyValue(policy, owner, items.value), CopyItems(policy, owner, items.next))
  }

  function CopyDict(policy: Policy, owner: string, dict: Dict): Dict
    decreases dict
  {
    if dict.NoTags? then NoTags
    else if policy.tag(owner, dict.name) then
      Tag(dict.name, CopyValue(policy, owner, dict.value), CopyDict(policy, owner, dict.next))
    else CopyDict(policy, owner, dict.next)
  }

  function CopyCols(policy: Policy, owner: string, cols: Cols): Cols
    decreases cols
  {
    if cols.NoCols? then NoCols
    else if policy.tag(owner, cols.name) then
      Col(cols.name, CopyDict(policy, owner, cols.meta), CopyCols(policy, owner, cols.next))
    else CopyCols(policy, owner, cols.next)
  }

  function CopyRows(policy: Policy, owner: string, rows: Dicts): Dicts
    decreases rows
  {
    if rows.NoRows? then NoRows else Row(CopyDict(policy, owner, rows.row), CopyRows(policy, owner, rows.next))
  }

  predicate OwnId(id: string, tag: string, value: Kind) {
    tag == "id" && value.Ref? && value.val == id
  }

  /** Keep the visible top-level tags, masked. */
  function Fields(policy: Policy, id: string, raw: Dict): Dict
    decreases raw
  {
    if raw.NoTags? then NoTags
    else if policy.tag(id, raw.name) && MemberVisible(policy, raw.name, raw.value, OwnId(id, raw.name, raw.value)) then
      Tag(raw.name, CopyValue(policy, id, raw.value), Fields(policy, id, raw.next))
    else Fields(policy, id, raw.next)
  }

  function Sanitized(policy: Policy, id: string, raw: Dict): Option<Dict> {
    if policy.entity(id) then Some(Fields(policy, id, raw)) else None
  }

  // ---------------------------------------------------------------- visible means no denied identity

  /** Something a value discloses: an entity, a catalog declaration, or a nominal spec. */
  datatype Identity =
    | Entity(val: string)
    | Declaration(val: string, library: string)
    | Nominally(spec: string, provenance: nat)

  predicate Allowed(policy: Policy, identity: Identity) {
    match identity
    case Entity(val) => policy.entity(val) && policy.reference(val)
    case Declaration(val, library) => policy.spec(val) && policy.library(library)
    case Nominally(spec, provenance) => NominalVisible(policy, spec, provenance)
  }

  function MemberIdentities(tag: string, value: Kind): set<Identity>
    decreases value, 1
  {
    match CatalogLibrary(tag, value)
    case Some(library) => {Declaration(value.val, library)}
    case None => Identities(value)
  }

  /** Every identity at any depth of a value, under whatever tag. */
  function Identities(value: Kind): set<Identity>
    decreases value, 0
  {
    match value
    case Ref(val, _) => {Entity(val)}
    case Nominal(spec, provenance) => {Nominally(spec, provenance)}
    case List(items) => ItemIdentities(items)
    case Record(fields) => DictIdentities(fields)
    case Grid(meta, cols, rows) => DictIdentities(meta) + ColIdentities(cols) + RowIdentities(rows)
    case Scalar(_) => {}
  }

  function ItemIdentities(items: Kinds): set<Identity>
    decreases items
  {
    if items.NoItems? then {} else Identities(items.value) + ItemIdentities(items.next)
  }

  function DictIdentities(dict: Dict): set<Identity>
    decreases dict
  {
    if dict.NoTags? then {} else MemberIdentities(dict.name, dict.value) + DictIdentities(dict.next)
  }

  function ColIdentities(cols: Cols): set<Identity>
    decreases cols
  {
    if cols.NoCols? then {} else DictIdentities(cols.meta) + ColIdentities(cols.next)
  }

  function RowIdentities(rows: Dicts): set<Identity>
    decreases rows
  {
    if rows.NoRows? then {} else DictIdentities(rows.row) + RowIdentities(rows.next)
  }

  predicate AllAllowed(policy: Policy, identities: set<Identity>) {
    forall x :: x in identities ==> Allowed(policy, x)
  }

  lemma {:induction false} MemberVisibleMeans(policy: Policy, tag: string, value: Kind)
    ensures MemberVisible(policy, tag, value, false) <==> AllAllowed(policy, MemberIdentities(tag, value))
    decreases value, 1
  {
    ValueVisibleMeans(policy, value);
  }

  /** A value is visible exactly when none of its nested identities is denied. */
  lemma {:induction false} ValueVisibleMeans(policy: Policy, value: Kind)
    ensures ValueVisible(policy, value, false) <==> AllAllowed(policy, Identities(value))
    decreases value, 0
  {
    match value
    case List(items) => ItemsVisibleMean(policy, items);
    case Record(fields) => DictVisibleMeans(policy, fields);
    case Grid(meta, cols, rows) =>
      DictVisibleMeans(policy, meta);
      ColsVisibleMean(policy, cols);
      RowsVisibleMean(policy, rows);
    case _ =>
  }

  lemma {:induction false} ItemsVisibleMean(policy: Policy, items: Kinds)
    ensures ItemsVisible(policy, items) <==> AllAllowed(policy, ItemIdentities(items))
    decreases items
  {
    if items.Item? {
      ValueVisibleMeans(policy, items.value);
      ItemsVisibleMean(policy, items.next);
    }
  }

  lemma {:induction false} DictVisibleMeans(policy: Policy, dict: Dict)
    ensures DictVisible(policy, dict) <==> AllAllowed(policy, DictIdentities(dict))
    decreases dict
  {
    if dict.Tag? {
      MemberVisibleMeans(policy, dict.name, dict.value);
      DictVisibleMeans(policy, dict.next);
    }
  }

  lemma {:induction false} ColsVisibleMean(policy: Policy, cols: Cols)
    ensures ColsVisible(policy, cols) <==> AllAllowed(policy, ColIdentities(cols))
    decreases cols
  {
    if cols.Col? {
      DictVisibleMeans(policy, cols.meta);
      ColsVisibleMean(policy, cols.next);
    }
  }

  lemma {:induction false} RowsVisibleMean(policy: Policy, rows: Dicts)
    ensures RowsVisible(policy, rows) <==> AllAllowed(policy, RowIdentities(rows))
    decreases rows
  {
    if rows.Row? {
      DictVisibleMeans(policy, rows.row);
      RowsVisibleMean(policy, rows.next);
    }
  }

  // ---------------------------------------------------------------- what may leave

  /** No denied tag or column, and no denied display, at any depth. */
  predicate Masked(policy: Policy, owner: string, value: Kind)
    decreases value
  {
    match value
    case Ref(val, dis) => dis.Some? ==> policy.display(val)
    case List(items) => MaskedItems(policy, owner, items)
    case Record(fields) => MaskedDict(policy, owner, fields)
    case Grid(meta, cols, rows) =>
      MaskedDict(policy, owner, meta) && MaskedCols(policy, owner, cols) && MaskedRows(policy, owner, rows)
    case _ => true
  }

  predicate MaskedItems(policy: Policy, owner: string, items: Kinds)
    decreases items
  {
    items.NoItems? || (Masked(policy, owner, items.value) && MaskedItems(policy, owner, items.next))
  }

  predicate MaskedDict(policy: Policy, owner: string, dict: Dict)
    decreases dict
  {
    dict.NoTags? ||
    (policy.tag(owner, dict.name) && Masked(policy, owner, dict.value) && MaskedDict(policy, owner, dict.next))
  }

  predicate MaskedCols(policy: Policy, owner: string, cols: Cols)
    decreases cols
  {
    cols.NoCols? ||
    (policy.tag(owner, cols.name) && MaskedDict(policy, owner, cols.meta) && MaskedCols(policy, owner, cols.next))
  }

  predicate MaskedRows(policy: Policy, owner: string, rows: Dicts)
    decreases rows
  {
    rows.NoRows? || (MaskedDict(policy, owner, rows.row) && MaskedRows(policy, owner, rows.next))
  }

  /** Copying masks, discloses no new identity, and changes nothing already masked. */
  lemma {:induction false} CopyMasks(policy: Policy, owner: string, value: Kind)
    ensures Masked(policy, owner, CopyValue(policy, owner, value))
    ensures Identities(CopyValue(policy, owner, value)) <= Identities(value)
    ensures Masked(policy, owner, value) ==> CopyValue(policy, owner, value) == value
    decreases value
  {
    match value
    case List(items) => CopyItemsMasks(policy, owner, items);
    case Record(fields) => CopyDictMasks(policy, owner, fields);
    case Grid(meta, cols, rows) =>
      CopyDictMasks(policy, owner, meta);
      CopyColsMasks(policy, owner, cols);
      CopyRowsMasks(policy, owner, rows);
    case _ =>
  }

  lemma {:induction false} CopyItemsMasks(policy: Policy, owner: string, items: Kinds)
    ensures MaskedItems(policy, owner, CopyItems(policy, owner, items))
    ensures ItemIdentities(CopyItems(policy, owner, items)) <= ItemIdentities(items)
    ensures MaskedItems(policy, owner, items) ==> CopyItems(policy, owner, items) == items
    decreases items
  {
    if items.Item? {
      CopyMasks(policy, owner, items.value);
      CopyItemsMasks(policy, owner, items.next);
    }
  }

  lemma {:induction false} CopyDictMasks(policy: Policy, owner: string, dict: Dict)
    ensures MaskedDict(policy, owner, CopyDict(policy, owner, dict))
    ensures DictIdentities(CopyDict(policy, owner, dict)) <= DictIdentities(dict)
    ensures MaskedDict(policy, owner, dict) ==> CopyDict(policy, owner, dict) == dict
    decreases dict
  {
    if dict.Tag? {
      CopyMasks(policy, owner, dict.value);
      CopyMember(policy, owner, dict.name, dict.value);
      CopyDictMasks(policy, owner, dict.next);
    }
  }

  lemma {:induction false} CopyColsMasks(policy: Policy, owner: string, cols: Cols)
    ensures MaskedCols(policy, owner, CopyCols(policy, owner, cols))
    ensures ColIdentities(CopyCols(policy, owner, cols)) <= ColIdentities(cols)
    ensures MaskedCols(policy, owner, cols) ==> CopyCols(policy, owner, cols) == cols
    decreases cols
  {
    if cols.Col? {
      CopyDictMasks(policy, owner, cols.meta);
      CopyColsMasks(policy, owner, cols.next);
    }
  }

  lemma {:induction false} CopyRowsMasks(policy: Policy, owner: string, rows: Dicts)
    ensures MaskedRows(policy, owner, CopyRows(policy, owner, rows))
    ensures RowIdentities(CopyRows(policy, owner, rows)) <= RowIdentities(rows)
    ensures MaskedRows(policy, owner, rows) ==> CopyRows(policy, owner, rows) == rows
    decreases rows
  {
    if rows.Row? {
      CopyDictMasks(policy, owner, rows.row);
      CopyRowsMasks(policy, owner, rows.next);
    }
  }

  lemma CopyMember(policy: Policy, owner: string, tag: string, value: Kind)
    requires Identities(CopyValue(policy, owner, value)) <= Identities(value)
    ensures MemberIdentities(tag, CopyValue(policy, owner, value)) <= MemberIdentities(tag, value)
  {
  }

  // ---------------------------------------------------------------- soundness and idempotence

  /** The value under a tag. */
  function Get(dict: Dict, tag: string): Option<Kind> {
    if dict.NoTags? then None else if dict.name == tag then Some(dict.value) else Get(dict.next, tag)
  }

  predicate Distinct(dict: Dict) {
    dict.NoTags? || (Get(dict.next, dict.name).None? && Distinct(dict.next))
  }

  /** A top-level tag discloses only its own record or allowed identities. */
  predicate Discloses(policy: Policy, id: string, tag: string, value: Kind) {
    OwnId(id, tag, value) || AllAllowed(policy, MemberIdentities(tag, value))
  }

  /** Every tag that leaves is allowed, masked to the last level, and discloses only the
      record's own id or identities the policy allows. */
  predicate Clean(policy: Policy, id: string, dict: Dict)
    decreases dict
  {
    dict.NoTags? ||
    (&& policy.tag(id, dict.name) && Masked(policy, id, dict.value) && Discloses(policy, id, dict.name, dict.value)
     && Clean(policy, id, dict.next))
  }

  lemma {:induction false} FieldsClean(policy: Policy, id: string, raw: Dict)
    ensures Clean(policy, id, Fields(policy, id, raw))
    decreases raw
  {
    hide Identities, Masked, ValueVisible, AllAllowed;
    if raw.Tag? {
      FieldsClean(policy, id, raw.next);
      if MemberVisible(policy, raw.name, raw.value, OwnId(id, raw.name, raw.value)) {
        MaskedMember(policy, id, raw.name, raw.value);
      }
    }
  }

  lemma MaskedMember(policy: Policy, id: string, tag: string, value: Kind)
    requires MemberVisible(policy, tag, value, OwnId(id, tag, value))
    ensures Masked(policy, id, CopyValue(policy, id, value))
    ensures Discloses(policy, id, tag, CopyValue(policy, id, value))
  {
    CopyMasks(policy, id, value);
    CopyMember(policy, id, tag, value);
    MemberVisibleMeans(policy, tag, value);
  }

  lemma {:induction false} CleanIsFixed(policy: Policy, id: string, dict: Dict)
    requires Clean(policy, id, dict)
    ensures Fields(policy, id, dict) == dict
    decreases dict
  {
    hide Identities, Masked, ValueVisible, AllAllowed, CopyValue;
    if dict.Tag? {
      CopyMasks(policy, id, dict.value);
      MemberVisibleMeans(policy, dict.name, dict.value);
      OwnIsVisible(policy, id, dict.name, dict.value);
      CleanIsFixed(policy, id, dict.next);
    }
  }

  lemma OwnIsVisible(policy: Policy, id: string, tag: string, value: Kind)
    ensures OwnId(id, tag, value) ==> MemberVisible(policy, tag, value, true)
  {
  }

  /** Which tags survive, and as what. */
  lemma {:induction false} SurvivesIff(policy: Policy, id: string, raw: Dict, tag: string)
    requires Distinct(raw)
    ensures Get(Fields(policy, id, raw), tag) ==
      match Get(raw, tag)
      case None => None
      case Some(value) =>
        if policy.tag(id, tag) && Discloses(policy, id, tag, value) then Some(CopyValue(policy, id, value)) else None
    decreases raw
  {
    hide Identities, AllAllowed, ValueVisible, CopyValue;
    if raw.Tag? {
      SurvivesIff(policy, id, raw.next, tag);
      MemberVisibleMeans(policy, raw.name, raw.value);
      OwnIsVisible(policy, id, raw.name, raw.value);
    }
  }

  /** Sanitizing is sound, and sanitizing again changes nothing: a retained projection
      passes reauthorization while its policy is unchanged. */
  lemma SanitizeIsSound(policy: Policy, id: string, raw: Dict)
    ensures var out := Sanitized(policy, id, raw);
      out.Some? ==> Clean(policy, id, out.value) && Sanitized(policy, id, out.value) == out
  {
    FieldsClean(policy, id, raw);
    CleanIsFixed(policy, id, Fields(policy, id, raw));
  }

  /** A projection is reauthorized exactly when every retained row is clean under the
      policy in force. */
  lemma ReauthorizedIff(policy: Policy, id: string, row: Dict)
    ensures Sanitized(policy, id, row) == Some(row) <==> policy.entity(id) && Clean(policy, id, row)
  {
    FieldsClean(policy, id, row);
    if Clean(policy, id, row) {
      CleanIsFixed(policy, id, row);
    }
  }
}
