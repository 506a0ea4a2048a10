/** The data structure under every history write: a strictly increasing vector
    of samples, updated by binary-search upserts (native writes) or by sort,
    dedupe and merge (authorised submissions), then trimmed to a capacity.

    Both are compared with one reference, the last-writer-wins map of everything
    written. */
module Series {
  import opened Prelude

  datatype Item = Item(ts: int, val: Value)

  predicate Sorted(s: seq<Item>) {
    forall i, j :: 0 <= i < j < |s| ==> s[i].ts < s[j].ts
  }

  /** Reference semantics of a list of writes: the last one at an instant wins. */
  function ToMap(s: seq<Item>): map<int, Value> {
    if s == [] then map[] else ToMap(s[..|s| - 1])[s[|s| - 1].ts := s[|s| - 1].val]
  }

  predicate Has(s: seq<Item>, ts: int) {
    exists i :: 0 <= i < |s| && s[i].ts == ts
  }

  lemma {:induction false} ToMapKeys(s: seq<Item>, ts: int)
    ensures ts in ToMap(s) <==> Has(s, ts)
  {
    if s != [] {
      var front := s[..|s| - 1];
      ToMapKeys(front, ts);
      if Has(front, ts) {
        var i :| 0 <= i < |front| && front[i].ts == ts;
        assert s[i].ts == ts;
      }
      if Has(s, ts) && s[|s| - 1].ts != ts {
        var i :| 0 <= i < |s| && s[i].ts == ts;
        assert front[i].ts == ts;
      }
      assert s[|s| - 1].ts == ts ==> Has(s, ts);
    }
  }

  lemma {:induction false} SortedLookup(s: seq<Item>, i: nat)
    requires Sorted(s) && i < |s|
    ensures s[i].ts in ToMap(s) && ToMap(s)[s[i].ts] == s[i].val
  {
    if i < |s| - 1 {
      SortedLookup(s[..|s| - 1], i);
    }
  }

  lemma {:induction false} SortedSize(s: seq<Item>)
    requires Sorted(s)
    ensures |ToMap(s)| == |s|
  {
    if s != [] {
      var front := s[..|s| - 1];
      SortedSize(front);
      ToMapKeys(front, s[|s| - 1].ts);
      assert ToMap(s).Keys == ToMap(front).Keys + {s[|s| - 1].ts};
    }
  }

  lemma DropLast(s: seq<Item>)
    requires Sorted(s) && s != []
    ensures ToMap(s[..|s| - 1]) == ToMap(s) - {s[|s| - 1].ts}
  {
    ToMapKeys(s[..|s| - 1], s[|s| - 1].ts);
  }

  lemma SameLast(a: seq<Item>, b: seq<Item>)
    requires Sorted(a) && Sorted(b) && ToMap(a) == ToMap(b) && |a| == |b| > 0
    ensures a[|a| - 1] == b[|b| - 1]
  {
    var n := |a| - 1;
    SortedLookup(a, n);
    SortedLookup(b, n);
    ToMapKeys(b, a[n].ts);
    ToMapKeys(a, b[n].ts);
  }

  /** A series is determined by the map it stands for. */
  lemma {:induction false} Canonical(a: seq<Item>, b: seq<Item>)
    requires Sorted(a) && Sorted(b) && ToMap(a) == ToMap(b)
    ensures a == b
  {
    SortedSize(a);
    SortedSize(b);
    if a != [] {
      SameLast(a, b);
      DropLast(a);
      DropLast(b);
      Canonical(a[..|a| - 1], b[..|b| - 1]);
      assert a == a[..|a| - 1] + [a[|a| - 1]] && b == b[..|b| - 1] + [b[|b| - 1]];
    }
  }

  // ---------------------------------------------------------------- native write

  function Insert(s: seq<Item>, item: Item): seq<Item> {
    if s == [] || s[|s| - 1].ts < item.ts then s + [item]
    else if s[|s| - 1].ts == item.ts then s[..|s| - 1] + [item]
    else Insert(s[..|s| - 1], item) + [s[|s| - 1]]
  }

  function InsertAll(s: seq<Item>, batch: seq<Item>): seq<Item> {
    if batch == [] then s
    else Insert(InsertAll(s, batch[..|batch| - 1]), batch[|batch| - 1])
  }

  lemma PutCommutes(m: map<int, Value>, k: int, v: Value, k': int, v': Value)
    requires k != k'
    ensures m[k := v][k' := v'] == m[k' := v'][k := v]
  {
  }

  lemma PutOverlay(m: map<int, Value>, over: map<int, Value>, k: int, v: Value)
    ensures (m + over)[k := v] == m + over[k := v]
  {
  }

  lemma Snoc(s: seq<Item>, x: Item)
    ensures ToMap(s + [x]) == ToMap(s)[x.ts := x.val]
  {
    assert (s + [x])[..|s|] == s;
  }

  lemma {:induction false} InsertSorted(s: seq<Item>, item: Item)
    requires Sorted(s)
    ensures Sorted(Insert(s, item))
    ensures forall x :: x in Insert(s, item) ==> x == item || x in s
  {
    if s != [] && s[|s| - 1].ts >= item.ts {
      var front, last := s[..|s| - 1], s[|s| - 1];
      assert s == front + [last];
      if last.ts > item.ts {
        InsertSorted(front, item);
        assert forall x :: x in Insert(front, item) ==> x.ts < last.ts;
      }
    }
  }

  lemma {:induction false} InsertMeaning(s: seq<Item>, item: Item)
    ensures ToMap(Insert(s, item)) == ToMap(s)[item.ts := item.val]
  {
    if s == [] || s[|s| - 1].ts < item.ts {
      Snoc(s, item);
    } else {
      var front, last := s[..|s| - 1], s[|s| - 1];
      if last.ts == item.ts {
        Snoc(front, item);
      } else {
        InsertMeaning(front, item);
        Snoc(Insert(front, item), last);
        PutCommutes(ToMap(front), item.ts, item.val, last.ts, last.val);
      }
    }
  }

  lemma {:induction false} InsertAllMeaning(s: seq<Item>, batch: seq<Item>)
    requires Sorted(s)
    ensures Sorted(InsertAll(s, batch)) && ToMap(InsertAll(s, batch)) == ToMap(s) + ToMap(batch)
  {
    if batch != [] {
      InsertAllMeaning(s, batch[..|batch| - 1]);
      InsertMeaning(InsertAll(s, batch[..|batch| - 1]), batch[|batch| - 1]);
      InsertSorted(InsertAll(s, batch[..|batch| - 1]), batch[|batch| - 1]);
      PutOverlay(ToMap(s), ToMap(batch[..|batch| - 1]), batch[|batch| - 1].ts, batch[|batch| - 1].val);
    }
  }

  /** `binary_search_by` over the instants. */
  method Search(s: seq<Item>, ts: int) returns (found: bool, index: nat)
    requires Sorted(s)
    ensures index <= |s|
    ensures found <==> Has(s, ts)
    ensures found ==> index < |s| && s[index].ts == ts
    ensures forall i :: 0 <= i < index ==> s[i].ts < ts
    ensures !found ==> forall i :: index <= i < |s| ==> ts < s[i].ts
  {
    var low, high := 0, |s|;
    while low < high
      invariant low <= high <= |s|
      invariant forall i :: 0 <= i < low ==> s[i].ts < ts
      invariant forall i :: high <= i < |s| ==> ts < s[i].ts
    {
      var mid := (low + high) / 2;
      if s[mid].ts < ts {
        low := mid + 1;
      } else if ts < s[mid].ts {
        high := mid;
      } else {
        return true, mid;
      }
    }
    return false, low;
  }

  /** One step of the native write loop: replace in place or insert. */
  method Upsert(s: seq<Item>, item: Item) returns (r: seq<Item>)
    requires Sorted(s)
    ensures r == Insert(s, item)
  {
    var found, index := Search(s, item.ts);
    if found {
      InsertReplaces(s, item, index);
      r := s[index := item];
    } else {
      InsertSplices(s, item, index);
      r := s[..index] + [item] + s[index..];
    }
  }

  lemma {:induction false} InsertReplaces(s: seq<Item>, item: Item, index: nat)
    requires Sorted(s) && index < |s| && s[index].ts == item.ts
    ensures Insert(s, item) == s[index := item]
  {
    var n := |s| - 1;
    if index < n {
      InsertReplaces(s[..n], item, index);
      assert s[index := item] == s[..n][index := item] + [s[n]];
    }
  }

  lemma {:induction false} InsertSplices(s: seq<Item>, item: Item, index: nat)
    requires index <= |s|
    requires forall i :: 0 <= i < index ==> s[i].ts < item.ts
    requires forall i :: index <= i < |s| ==> item.ts < s[i].ts
    ensures Insert(s, item) == s[..index] + [item] + s[index..]
  {
    if index < |s| {
      var n := |s| - 1;
      InsertSplices(s[..n], item, index);
      assert s[..n][..index] == s[..index];
      assert s[index..] == s[..n][index..] + [s[n]];
    }
  }

  method UpsertAll(s: seq<Item>, batch: seq<Item>) returns (r: seq<Item>)
    requires Sorted(s)
    ensures r == InsertAll(s, batch)
  {
    r := s;
    for k := 0 to |batch|
      invariant r == InsertAll(s, batch[..k])
    {
      assert batch[..k + 1][..k] == batch[..k];
      InsertAllMeaning(s, batch[..k]);
      r := Upsert(r, batch[k]);
    }
    assert batch[..|batch|] == batch;
  }

  // ---------------------------------------------------------------- trim

  datatype Window = Window(items: seq<Item>, evicted: Option<int>)

  function Excess(items: seq<Item>, capacity: nat): nat {
    Monus(|items|, capacity)
  }

  function Watermark(prior: Option<int>, through: int): int {
    if prior.None? then through else Max(prior.value, through)
  }

  /** `trim`: drop the oldest samples above capacity and raise the watermark. */
  function Trim(w: Window, capacity: nat): Window {
    var excess := Excess(w.items, capacity);
    if excess == 0 then w
    else Window(w.items[excess..], Some(Watermark(w.evicted, w.items[excess - 1].ts)))
  }

  /** The retained effect of one write on a series. */
  function Apply(w: Window, batch: seq<Item>, capacity: nat): Window {
    Trim(Window(InsertAll(w.items, batch), w.evicted), capacity)
  }

  // ---------------------------------------------------------------- sort, dedupe, merge

  /** `sort_by_key`: stable, so equal instants keep their submitted order. */
  function StableInsert(s: seq<Item>, item: Item): seq<Item> {
    if s == [] || s[|s| - 1].ts <= item.ts then s + [item]
    else StableInsert(s[..|s| - 1], item) + [s[|s| - 1]]
  }

  function StableSort(s: seq<Item>): seq<Item> {
    if s == [] then [] else StableInsert(StableSort(s[..|s| - 1]), s[|s| - 1])
  }

  predicate Ascending(s: seq<Item>) {
    forall i, j :: 0 <= i < j < |s| ==> s[i].ts <= s[j].ts
  }

  lemma {:induction false} StableInsertMeaning(s: seq<Item>, item: Item)
    ensures ToMap(StableInsert(s, item)) == ToMap(s)[item.ts := item.val]
    ensures Ascending(s) ==> Ascending(StableInsert(s, item))
    ensures forall x :: x in StableInsert(s, item) ==> x == item || x in s
    ensures |StableInsert(s, item)| == |s| + 1
  {
    if s == [] || s[|s| - 1].ts <= item.ts {
      assert (s + [item])[..|s|] == s;
    } else {
      var front, last := s[..|s| - 1], s[|s| - 1];
      StableInsertMeaning(front, item);
      var r0 := StableInsert(front, item);
      assert (r0 + [last])[..|r0|] == r0;
      assert s == front + [last];
    }
  }

  lemma {:induction false} StableSortMeaning(s: seq<Item>)
    ensures ToMap(StableSort(s)) == ToMap(s)
    ensures Ascending(StableSort(s)) && |StableSort(s)| == |s|
  {
    if s != [] {
      StableSortMeaning(s[..|s| - 1]);
      StableInsertMeaning(StableSort(s[..|s| - 1]), s[|s| - 1]);
    }
  }

  /** The dedupe loop: a repeated instant replaces the entry just pushed. */
  method Dedupe(input: seq<Item>) returns (unique: seq<Item>)
    requires Ascending(input)
    ensures Sorted(unique) && ToMap(unique) == ToMap(input)
  {
    unique := [];
    for k := 0 to |input|
      invariant Sorted(unique) && ToMap(unique) == ToMap(input[..k])
      invariant unique != [] ==> k > 0 && unique[|unique| - 1].ts <= input[k - 1].ts
    {
      assert input[..k + 1][..k] == input[..k];
      var n := |unique|;
      if unique != [] && unique[n - 1].ts == input[k].ts {
        ghost var was := unique;
        unique := unique[n - 1 := input[k]];
        assert unique[..n - 1] == was[..n - 1];
        assert ToMap(unique) == ToMap(was)[input[k].ts := input[k].val];
      } else {
        ghost var was := unique;
        unique := unique + [input[k]];
        assert unique[..n] == was;
      }
    }
    assert input[..|input|] == input;
  }

  /** The two-way merge of the retained series with the deduplicated input; on
      equal instants the incoming sample replaces the old one. */
  method Merge(kept: seq<Item>, incoming: seq<Item>) returns (merged: seq<Item>)
    requires Sorted(kept) && Sorted(incoming)
    ensures Sorted(merged) && ToMap(merged) == ToMap(kept) + ToMap(incoming)
  {
    merged := [];
    var i, j := 0, 0;
    assert ToMap(merged) == ToMap(kept[..0]) + ToMap(incoming[..0]);
    hide ToMap;
    while i < |kept| || j < |incoming|
      invariant i <= |kept| && j <= |incoming|
      invariant Sorted(merged)
      invariant ToMap(merged) == ToMap(kept[..i]) + ToMap(incoming[..j])
      invariant forall x :: x in merged && i < |kept| ==> x.ts < kept[i].ts
      invariant forall x :: x in merged && j < |incoming| ==> x.ts < incoming[j].ts
      decreases |kept| - i + |incoming| - j
    {
      ghost var was := merged;
      if i < |kept| && j < |incoming| && kept[i].ts < incoming[j].ts {
        merged := merged + [kept[i]];
        PushOld(was, kept, i, incoming, j);
        i := i + 1;
      } else if i < |kept| && j < |incoming| && kept[i].ts == incoming[j].ts {
        merged := merged + [incoming[j]];
        PushBoth(was, kept, i, incoming, j);
        i, j := i + 1, j + 1;
      } else if j < |incoming| {
        merged := merged + [incoming[j]];
        PushNew(was, kept, i, incoming, j);
        j := j + 1;
      } else {
        merged := merged + [kept[i]];
        PushOld(was, kept, i, incoming, j);
        i := i + 1;
      }
    }
    assert kept[..|kept|] == kept && incoming[..|incoming|] == incoming;
  }

  lemma PushOld(merged: seq<Item>, kept: seq<Item>, i: nat, incoming: seq<Item>, j: nat)
    requires Sorted(kept) && Sorted(incoming) && i < |kept| && j <= |incoming|
    requires j < |incoming| ==> kept[i].ts < incoming[j].ts
    requires ToMap(merged) == ToMap(kept[..i]) + ToMap(incoming[..j])
    requires forall x :: x in merged ==> x.ts < kept[i].ts
    ensures ToMap(merged + [kept[i]]) == ToMap(kept[..i + 1]) + ToMap(incoming[..j])
  {
    assert (merged + [kept[i]])[..|merged|] == merged;
    assert kept[..i + 1][..i] == kept[..i];
    ToMapKeys(merged, kept[i].ts);
    ToMapKeys(incoming[..j], kept[i].ts);
    assert kept[i].ts !in ToMap(incoming[..j]);
  }

  lemma PushBoth(merged: seq<Item>, kept: seq<Item>, i: nat, incoming: seq<Item>, j: nat)
    requires i < |kept| && j < |incoming| && kept[i].ts == incoming[j].ts
    requires ToMap(merged) == ToMap(kept[..i]) + ToMap(incoming[..j])
    ensures ToMap(merged + [incoming[j]]) == ToMap(kept[..i + 1]) + ToMap(incoming[..j + 1])
  {
    assert (merged + [incoming[j]])[..|merged|] == merged;
    assert kept[..i + 1][..i] == kept[..i];
    assert incoming[..j + 1][..j] == incoming[..j];
  }

  lemma PushNew(merged: seq<Item>, kept: seq<Item>, i: nat, incoming: seq<Item>, j: nat)
    requires i <= |kept| && j < |incoming|
    requires ToMap(merged) == ToMap(kept[..i]) + ToMap(incoming[..j])
    ensures ToMap(merged + [incoming[j]]) == ToMap(kept[..i]) + ToMap(incoming[..j + 1])
  {
    assert (merged + [incoming[j]])[..|merged|] == merged;
    assert incoming[..j + 1][..j] == incoming[..j];
  }

  /** The value half of the native write: per-item upserts, then trim. */
  method NativeNext(w: Window, samples: seq<Item>, capacity: nat)
      returns (next: Window, unique: nat, evicted: nat)
    requires Sorted(w.items)
    ensures next == Apply(w, samples, capacity)
    ensures unique == |ToMap(samples)|
    ensures evicted == Excess(InsertAll(w.items, samples), capacity)
  {
    StableSortMeaning(samples);
    var instants := Dedupe(StableSort(samples));
    SortedSize(instants);
    unique := |instants|;
    var updated := UpsertAll(w.items, samples);
    next := Trim(Window(updated, w.evicted), capacity);
    evicted := Excess(updated, capacity);
  }

  lemma ApplySorted(w: Window, samples: seq<Item>, capacity: nat)
    requires Sorted(w.items)
    ensures Sorted(Apply(w, samples, capacity).items)
  {
    InsertAllMeaning(w.items, samples);
  }

  /** The value half of `prepare`: sort, dedupe, merge, trim, and the two counts
      the receipt reports. It computes exactly what the native per-item write
      would leave behind. */
  method PrepareNext(w: Window, samples: seq<Item>, capacity: nat)
      returns (next: Window, unique: nat, evicted: nat)
    requires Sorted(w.items)
    ensures next == Apply(w, samples, capacity)
    ensures unique == |ToMap(samples)|
    ensures evicted == Excess(InsertAll(w.items, samples), capacity)
  {
    StableSortMeaning(samples);
    var input := StableSort(samples);
    var incoming := Dedupe(input);
    SortedSize(incoming);
    unique := |incoming|;
    var merged := Merge(w.items, incoming);
    InsertAllMeaning(w.items, samples);
    Canonical(merged, InsertAll(w.items, samples));
    next := Trim(Window(merged, w.evicted), capacity);
    evicted := Excess(merged, capacity);
  }

  // ---------------------------------------------------------------- bounded refines unbounded

  /** `items` are exactly the newest `capacity` instants of `m`, with `m`'s values. */
  ghost predicate Newest(items: seq<Item>, m: map<int, Value>, capacity: nat) {
    && Sorted(items)
    && |items| == Min(capacity, |m|)
    && (forall i :: 0 <= i < |items| ==> items[i].ts in m && m[items[i].ts] == items[i].val)
    && (forall t, i :: t in m && !Has(items, t) && 0 <= i < |items| ==> t < items[i].ts)
  }

  /** The watermark is the greatest instant of `m` that is no longer retained. */
  ghost predicate GreatestDropped(evicted: Option<int>, items: seq<Item>, m: map<int, Value>) {
    match evicted
    case None => forall t :: t in m ==> Has(items, t)
    case Some(e) => e in m && !Has(items, e) && forall t :: t in m && !Has(items, t) ==> t <= e
  }

  ghost predicate Refines(w: Window, m: map<int, Value>, capacity: nat) {
    Newest(w.items, m, capacity) && GreatestDropped(w.evicted, w.items, m)
  }

  /** Everything written by a run of batches, under last-writer-wins. */
  function Written(batches: seq<seq<Item>>): map<int, Value> {
    if batches == [] then map[] else Written(batches[..|batches| - 1]) + ToMap(batches[|batches| - 1])
  }

  /** The bounded store over the same run, from an empty series. */
  function Run(batches: seq<seq<Item>>, capacity: nat): Window {
    if batches == [] then Window([], None)
    else Apply(Run(batches[..|batches| - 1], capacity), batches[|batches| - 1], capacity)
  }

  lemma KeysOf(s: seq<Item>)
    ensures forall t :: t in ToMap(s) <==> Has(s, t)
  {
    forall t ensures t in ToMap(s) <==> Has(s, t) { ToMapKeys(s, t); }
  }

  /** If something was dropped the series is full, so the oldest sample kept by
      the next trim is never older than the oldest one kept before. */
  lemma OldestNeverSinks(items: seq<Item>, all: seq<Item>, capacity: nat)
    requires Sorted(items) && Sorted(all) && |items| == capacity > 0
    requires forall i :: 0 <= i < |items| ==> Has(all, items[i].ts)
    ensures |all| >= capacity && items[0].ts <= all[|all| - capacity].ts
  {
    KeysOf(items);
    KeysOf(all);
    SortedSize(items);
    SortedSize(all);
    forall t | t in ToMap(items).Keys ensures t in ToMap(all).Keys {
      var k :| 0 <= k < |items| && items[k].ts == t;
      assert Has(all, items[k].ts);
    }
    SubsetSize(ToMap(items).Keys, ToMap(all).Keys);
    var e := |all| - capacity;
    if items[0].ts > all[e].ts {
      var tail := all[e + 1..];
      assert Sorted(tail);
      forall t | t in ToMap(items).Keys ensures t in ToMap(tail).Keys {
        var k :| 0 <= k < |items| && items[k].ts == t;
        assert items[k].ts >= items[0].ts;
        var j :| 0 <= j < |all| && all[j].ts == t;
        assert j > e;
        assert tail[j - e - 1].ts == t;
        ToMapKeys(tail, t);
      }
      SortedSize(tail);
      SubsetSize(ToMap(items).Keys, ToMap(tail).Keys);
    }
  }

  /** `all` holds current values of `m'`, and lacks only what `items` already lacked. */
  ghost predicate Untrimmed(items: seq<Item>, m: map<int, Value>, all: seq<Item>, m': map<int, Value>) {
    && Sorted(all)
    && (forall i :: 0 <= i < |all| ==> all[i].ts in m' && m'[all[i].ts] == all[i].val)
    && (forall t :: t in m' && !Has(all, t) ==> t in m && !Has(items, t))
    && (forall i :: 0 <= i < |items| ==> Has(all, items[i].ts))
    && (forall t :: t in m ==> t in m')
  }

  lemma InsertAllUntrimmed(items: seq<Item>, m: map<int, Value>, batch: seq<Item>, capacity: nat)
    requires Newest(items, m, capacity)
    ensures Untrimmed(items, m, InsertAll(items, batch), m + ToMap(batch))
  {
    var all := InsertAll(items, batch);
    InsertAllMeaning(items, batch);
    KeysOf(items);
    KeysOf(all);
    forall i | 0 <= i < |all|
      ensures all[i].ts in m + ToMap(batch) && (m + ToMap(batch))[all[i].ts] == all[i].val
    {
      SortedLookup(all, i);
      if all[i].ts !in ToMap(batch) {
        assert all[i].ts in ToMap(items);
        var k :| 0 <= k < |items| && items[k].ts == all[i].ts;
        SortedLookup(items, k);
      }
    }
    forall i | 0 <= i < |items| ensures Has(all, items[i].ts) {
      SortedLookup(items, i);
      assert items[i].ts in ToMap(all);
    }
  }

  lemma FullWhenDropped(items: seq<Item>, m: map<int, Value>, capacity: nat, t: int)
    requires Newest(items, m, capacity) && t in m && !Has(items, t)
    ensures |items| == capacity
  {
    KeysOf(items);
    SortedSize(items);
    forall k | k in ToMap(items).Keys ensures k in m.Keys {
      var i :| 0 <= i < |items| && items[i].ts == k;
    }
    SubsetSize(ToMap(items).Keys + {t}, m.Keys);
  }

  /** What the next trim drops, and what was dropped before, all lies below what stays. */
  lemma DroppedBelow(items: seq<Item>, m: map<int, Value>, all: seq<Item>, m': map<int, Value>, capacity: nat, t: int)
    requires capacity > 0 && Newest(items, m, capacity) && Untrimmed(items, m, all, m')
    requires t in m'
    ensures !Has(all, t) ==> |all| >= capacity && t < all[|all| - capacity].ts
    ensures var e := Excess(all, capacity); !Has(all[e..], t) && e < |all| ==> t < all[e].ts
  {
    var e := Excess(all, capacity);
    if Has(all, t) {
      var j :| 0 <= j < |all| && all[j].ts == t;
      assert j >= e ==> all[e..][j - e].ts == t;
    } else {
      FullWhenDropped(items, m, capacity, t);
      OldestNeverSinks(items, all, capacity);
    }
  }

  lemma RetainedSize(items: seq<Item>, m: map<int, Value>, all: seq<Item>, m': map<int, Value>, capacity: nat)
    requires capacity > 0 && Newest(items, m, capacity) && Untrimmed(items, m, all, m')
    ensures |all| - Excess(all, capacity) == Min(capacity, |m'|)
  {
    KeysOf(all);
    SortedSize(all);
    forall t | t in ToMap(all).Keys ensures t in m'.Keys {
      var i :| 0 <= i < |all| && all[i].ts == t;
    }
    SubsetSize(ToMap(all).Keys, m'.Keys);
    if t :| t in m' && !Has(all, t) {
      DroppedBelow(items, m, all, m', capacity, t);
    } else {
      forall t | t in m'.Keys ensures t in ToMap(all).Keys {
        assert Has(all, t);
      }
      assert ToMap(all).Keys == m'.Keys;
    }
  }

  lemma SuffixHas(all: seq<Item>, e: nat, t: int)
    requires Sorted(all) && e <= |all|
    ensures e > 0 ==> !Has(all[e..], all[e - 1].ts)
    ensures Has(all, t) && !Has(all[e..], t) ==> e > 0 && t <= all[e - 1].ts
    ensures e < |all| && t < all[e].ts ==> !Has(all[e..], t)
  {
    if Has(all, t) {
      var j :| 0 <= j < |all| && all[j].ts == t;
      assert j >= e ==> all[e..][j - e].ts == t;
    }
  }

  lemma NextWatermark(w: Window, m: map<int, Value>, all: seq<Item>, m': map<int, Value>, capacity: nat)
    requires capacity > 0 && Refines(w, m, capacity) && Untrimmed(w.items, m, all, m')
    ensures var n := Trim(Window(all, w.evicted), capacity); GreatestDropped(n.evicted, n.items, m')
  {
    var e := Excess(all, capacity);
    var n := Trim(Window(all, w.evicted), capacity);
    assert n.items == all[e..];
    if w.evicted.Some? {
      FullWhenDropped(w.items, m, capacity, w.evicted.value);
      OldestNeverSinks(w.items, all, capacity);
      assert w.items[0].ts <= all[e].ts;
      SuffixHas(all, e, w.evicted.value);
    }
    SuffixHas(all, e, 0);
    forall t | t in m' && !Has(n.items, t) ensures n.evicted.Some? && t <= n.evicted.value {
      SuffixHas(all, e, t);
    }
  }

  lemma TrimRefines(w: Window, m: map<int, Value>, all: seq<Item>, m': map<int, Value>, capacity: nat)
    requires capacity > 0 && Refines(w, m, capacity) && Untrimmed(w.items, m, all, m')
    ensures Refines(Trim(Window(all, w.evicted), capacity), m', capacity)
  {
    var n := Trim(Window(all, w.evicted), capacity);
    assert n.items == all[Excess(all, capacity)..];
    RetainedSize(w.items, m, all, m', capacity);
    NextWatermark(w, m, all, m', capacity);
    forall t, i | t in m' && !Has(n.items, t) && 0 <= i < |n.items| ensures t < n.items[i].ts {
      DroppedBelow(w.items, m, all, m', capacity, t);
    }
  }

  /** One bounded write keeps the refinement. */
  lemma ApplyRefines(w: Window, m: map<int, Value>, batch: seq<Item>, capacity: nat)
    requires capacity > 0 && Refines(w, m, capacity)
    ensures Refines(Apply(w, batch, capacity), m + ToMap(batch), capacity)
  {
    InsertAllUntrimmed(w.items, m, batch, capacity);
    TrimRefines(w, m, InsertAll(w.items, batch), m + ToMap(batch), capacity);
  }

  /** After any run of writes at a fixed capacity, the store holds exactly the
      newest `capacity` instants of the last-writer-wins map of everything
      written, and its watermark is the greatest instant dropped. */
  lemma {:induction false} BoundedRefinesUnbounded(batches: seq<seq<Item>>, capacity: nat)
    requires capacity > 0
    ensures Refines(Run(batches, capacity), Written(batches), capacity)
  {
    if batches == [] {
      assert Written(batches) == map[];
    } else {
      var front := batches[..|batches| - 1];
      BoundedRefinesUnbounded(front, capacity);
      ApplyRefines(Run(front, capacity), Written(front), batches[|batches| - 1], capacity);
    }
  }

  /** A series as the store keeps it: strictly increasing, its watermark below every sample. */
  ghost predicate Stored(w: Window) {
    Sorted(w.items) && (w.evicted.Some? && w.items != [] ==> w.evicted.value < w.items[0].ts)
  }

  lemma RefinesStored(w: Window, m: map<int, Value>, capacity: nat)
    requires Refines(w, m, capacity)
    ensures Stored(w)
  {
  }

  /** The reference determines the store: nothing else refines the same writes. */
  lemma RefinementIsUnique(w: Window, w': Window, m: map<int, Value>, capacity: nat)
    requires Refines(w, m, capacity) && Refines(w', m, capacity)
    ensures w == w'
  {
    NewestIsUnique(w.items, w'.items, m, capacity);
  }

  lemma NewestIncluded(a: seq<Item>, b: seq<Item>, m: map<int, Value>, capacity: nat, i: nat)
    requires Newest(a, m, capacity) && Newest(b, m, capacity) && i < |a|
    ensures Has(b, a[i].ts)
  {
    if !Has(b, a[i].ts) {
      KeysOf(a);
      KeysOf(b);
      SortedSize(a);
      SortedSize(b);
      forall t | t in ToMap(b).Keys ensures t in ToMap(a).Keys {
        var j :| 0 <= j < |b| && b[j].ts == t;
      }
      SubsetSize(ToMap(b).Keys + {a[i].ts}, ToMap(a).Keys);
    }
  }

  lemma NewestIsUnique(a: seq<Item>, b: seq<Item>, m: map<int, Value>, capacity: nat)
    requires Newest(a, m, capacity) && Newest(b, m, capacity)
    ensures a == b
  {
    KeysOf(a);
    KeysOf(b);
    forall t ensures t in ToMap(a) <==> t in ToMap(b) {
      if t in ToMap(a) {
        var i :| 0 <= i < |a| && a[i].ts == t;
        NewestIncluded(a, b, m, capacity, i);
      }
      if t in ToMap(b) {
        var i :| 0 <= i < |b| && b[i].ts == t;
        NewestIncluded(b, a, m, capacity, i);
      }
    }
    forall t | t in ToMap(a) ensures ToMap(a)[t] == ToMap(b)[t] {
      var i :| 0 <= i < |a| && a[i].ts == t;
      var j :| 0 <= j < |b| && b[j].ts == t;
      SortedLookup(a, i);
      SortedLookup(b, j);
    }
    Canonical(a, b);
  }
}
