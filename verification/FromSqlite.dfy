/** The recovery loops themselves: they accept exactly the recoverable databases,
    and rebuild the projection from them. */
module FromSqlite {
  import opened Prelude
  import opened Series
  import opened Store
  import opened Sqlite
  import opened SqliteRuns

  datatype SqliteError = Incompatible | LimitExceeded

  method CheckItems(items: seq<Item>, capacity: nat) returns (ok: bool)
    ensures ok <==> Sorted(items) && |items| <= capacity && Supported(items)
  {
    for k := 0 to |items|
      invariant k <= capacity && Sorted(items[..k]) && Supported(items[..k])
    {
      if k >= capacity {
        return false;
      }
      if items[k].val.Rich? {
        return false;
      }
      if k > 0 && items[k - 1].ts >= items[k].ts {
        return false;
      }
      assert items[..k + 1] == items[..k] + [items[k]];
    }
    assert items[..|items|] == items;
    ok := true;
  }

  method CheckPoints(db: Db, cfg: Config) returns (ok: bool)
    ensures ok <==> forall id :: id in db.points ==> PointRowOk(id, db.points[id], db, cfg)
  {
    var todo := db.points.Keys;
    while todo != {}
      invariant todo <= db.points.Keys
      invariant forall id :: id in db.points && id !in todo ==> PointRowOk(id, db.points[id], db, cfg)
      decreases todo
    {
      var id :| id in todo;
      var p := db.points[id];
      if id == "" || |id| > 256 || p.version.incarnation != cfg.incarnation(id)
         || p.version.generation == 0 || p.version.generation > db.sequence {
        return false;
      }
      var items := CheckItems(p.window.items, cfg.limits.items);
      if !items {
        return false;
      }
      todo := todo - {id};
    }
    ok := true;
  }

  /** Every change so far is well formed and chained, and `last` names the newest
      one of each point. */
  ghost predicate Scanned(db: Db, n: nat, last: map<string, nat>)
    requires n <= |db.changes|
  {
    && (forall i :: 0 <= i < n ==> ChangeRowOk(db, i))
    && (forall i, j :: 0 <= i < j < n ==> ChainOk(db.changes, i, j))
    && (forall p :: p in last ==> last[p] < n && db.changes[last[p]].point == p && Quiet(db.changes, last[p], n))
    && (forall i :: 0 <= i < n ==> db.changes[i].point in last)
  }

  method CheckChanges(db: Db) returns (ok: bool, last: map<string, nat>)
    ensures ok <==> (forall i :: 0 <= i < |db.changes| ==> ChangeRowOk(db, i))
                    && (forall i, j :: 0 <= i < j < |db.changes| ==> ChainOk(db.changes, i, j))
    ensures ok ==> Scanned(db, |db.changes|, last)
  {
    last := map[];
    for n := 0 to |db.changes|
      invariant Scanned(db, n, last)
    {
      var c := db.changes[n];
      var row := c.before.incarnation == c.after.incarnation && c.before.generation + 1 == c.after.generation
                 && c.sequence > 0 && c.unique <= c.submitted && c.operation.Some?
                 && (n > 0 ==> db.changes[n - 1].sequence + 1 == c.sequence)
                 && c.point in db.points
                 && c.after.incarnation == db.points[c.point].version.incarnation
                 && c.after.generation <= db.points[c.point].version.generation;
      if !row {
        assert !ChangeRowOk(db, n);
        return false, last;
      }
      if c.point in last && db.changes[last[c.point]].after != c.before {
        assert !ChainOk(db.changes, last[c.point], n);
        return false, last;
      }
      ScanOne(db, n, last);
      last := last[c.point := n];
    }
    ok := true;
  }

  lemma ScanOne(db: Db, n: nat, last: map<string, nat>)
    requires n < |db.changes| && Scanned(db, n, last) && ChangeRowOk(db, n)
    requires db.changes[n].point in last ==> db.changes[last[db.changes[n].point]].after == db.changes[n].before
    ensures Scanned(db, n + 1, last[db.changes[n].point := n])
  {
    var p := db.changes[n].point;
    forall i | 0 <= i < n ensures ChainOk(db.changes, i, n) {
      if db.changes[i].point == p && Quiet(db.changes, i, n) {
        assert p in last;
        assert last[p] <= i;
        assert i <= last[p];
      }
    }
  }

  method CheckNewest(db: Db, last: map<string, nat>) returns (ok: bool)
    requires Scanned(db, |db.changes|, last)
    ensures ok <==> forall i :: 0 <= i < |db.changes| ==> NewestOk(db, i)
  {
    hide ChangeRowOk, ChainOk;
    var todo := last.Keys;
    while todo != {}
      invariant todo <= last.Keys
      invariant forall p :: p in last && p !in todo ==> NewestOk(db, last[p])
      decreases todo
    {
      var p :| p in todo;
      PointKnown(db, last[p], |db.changes|, last);
      var c := db.changes[last[p]];
      var series := db.points[p];
      if c.after.generation != series.version.generation || c.retained != |series.window.items|
         || c.evictedThrough != series.window.evicted {
        assert !NewestOk(db, last[p]);
        return false;
      }
      todo := todo - {p};
    }
    ok := true;
    forall i | 0 <= i < |db.changes| ensures NewestOk(db, i) {
      var p := db.changes[i].point;
      if Quiet(db.changes, i, |db.changes|) {
        assert last[p] <= i <= last[p];
      }
    }
  }

  lemma PointKnown(db: Db, i: nat, n: nat, last: map<string, nat>)
    requires n <= |db.changes| && i < n && Scanned(db, n, last)
    ensures db.changes[i].point in db.points
  {
    assert ChangeRowOk(db, i);
  }

  /** What the receipt loop has established about the receipts already read. */
  ghost predicate Read(db: Db, done: map<Binding, Record>, tips: set<string>, proven: seq<bool>, cfg: Config) {
    && |proven| == |db.changes|
    && (forall b :: b in done ==> b in db.receipts && done[b] == db.receipts[b] && ReceiptRowOk(db, b, cfg))
    && (forall b, c :: b in done && c in done && b != c ==>
          && (TipProved(db, b).Some? ==> TipProved(db, b) != TipProved(db, c))
          && (ChangeProved(db, b).Some? ==> ChangeProved(db, b) != ChangeProved(db, c)))
    && (forall b :: b in done && TipProved(db, b).Some? ==> TipProved(db, b).value in tips)
    && (forall id :: id in tips ==> id in db.points && exists b :: b in done && TipProved(db, b) == Some(id))
    && (forall b :: b in done && ChangeProved(db, b).Some? ==>
          ChangeProved(db, b).value < |proven| && proven[ChangeProved(db, b).value])
    && (forall i :: 0 <= i < |proven| && proven[i] ==> exists b :: b in done && ChangeProved(db, b) == Some(i))
  }

  function Marked(proven: seq<bool>, at: Option<nat>): seq<bool>
    requires at.Some? ==> at.value < |proven|
  {
    if at.Some? then proven[at.value := true] else proven
  }

  function Tipped(tips: set<string>, at: Option<string>): set<string> {
    if at.Some? then tips + {at.value} else tips
  }

  lemma ReadOne(db: Db, done: map<Binding, Record>, tips: set<string>, proven: seq<bool>, b: Binding, cfg: Config)
    requires Read(db, done, tips, proven, cfg) && b in db.receipts && b !in done && ReceiptRowOk(db, b, cfg)
    requires TipProved(db, b).Some? ==> TipProved(db, b).value !in tips
    requires ChangeProved(db, b).Some? ==> ChangeProved(db, b).value < |proven| && !proven[ChangeProved(db, b).value]
    ensures Read(db, done[b := db.receipts[b]],
                 Tipped(tips, TipProved(db, b)), Marked(proven, ChangeProved(db, b)), cfg)
  {
    hide ReceiptRowOk;
    var done' := done[b := db.receipts[b]];
    var tips' := Tipped(tips, TipProved(db, b));
    var proven' := Marked(proven, ChangeProved(db, b));
    TipInPoints(db, b);
    forall id | id in tips' ensures exists c :: c in done' && TipProved(db, c) == Some(id) {
      if id in tips {
        var c :| c in done && TipProved(db, c) == Some(id);
        assert c in done';
      } else {
        assert b in done' && TipProved(db, b) == Some(id);
      }
    }
    forall i | 0 <= i < |proven'| && proven'[i] ensures exists c :: c in done' && ChangeProved(db, c) == Some(i) {
      if proven[i] {
        var c :| c in done && ChangeProved(db, c) == Some(i);
        assert c in done';
      } else {
        assert b in done' && ChangeProved(db, b) == Some(i);
      }
    }
  }

  lemma TipInPoints(db: Db, b: Binding)
    requires b in db.receipts
    ensures TipProved(db, b).Some? ==> TipProved(db, b).value in db.points
  {
  }

  lemma Unread(db: Db, done: map<Binding, Record>, tips: set<string>, proven: seq<bool>, b: Binding, cfg: Config)
    requires Read(db, done, tips, proven, cfg) && b in db.receipts && b !in done
    requires (TipProved(db, b).Some? && TipProved(db, b).value in tips)
             || (ChangeProved(db, b).Some? && ChangeProved(db, b).value < |proven| && proven[ChangeProved(db, b).value])
    ensures !ProofsDistinct(db)
  {
    hide ReceiptRowOk, TipProved, ChangeProved;
    if TipProved(db, b).Some? && TipProved(db, b).value in tips {
      var c :| c in done && TipProved(db, c) == Some(TipProved(db, b).value);
      assert c != b && c in db.receipts;
    } else {
      var c :| c in done && ChangeProved(db, c) == Some(ChangeProved(db, b).value);
      assert c != b && c in db.receipts;
    }
  }

  method CheckReceipts(db: Db, cfg: Config) returns (ok: bool, bytes: nat)
    ensures ok <==> (forall b :: b in db.receipts ==> ReceiptRowOk(db, b, cfg)) && Proofs(db)
                    && Total(db.receipts, cfg.retained) <= cfg.limits.receiptBytes
    ensures ok ==> bytes == Total(db.receipts, cfg.retained)
  {
    hide ReceiptRowOk, TipProved, ChangeProved, Total, ProofsDistinct, AllProved, Read;
    var todo := db.receipts.Keys;
    var tips: set<string> := {};
    var proven := seq(|db.changes|, i => false);
    ghost var done: map<Binding, Record> := map[];
    bytes := 0;
    StartRead(db, cfg);
    while todo != {}
      invariant todo <= db.receipts.Keys && done.Keys == db.receipts.Keys - todo
      invariant Read(db, done, tips, proven, cfg)
      invariant |proven| == |db.changes|
      invariant bytes == Total(done, cfg.retained) <= cfg.limits.receiptBytes
      decreases todo
    {
      var b :| b in todo;
      if !ReceiptRowOk(db, b, cfg) {
        return false, bytes;
      }
      var tip, change := TipProved(db, b), ChangeProved(db, b);
      if tip.Some? && tip.value in tips {
        Unread(db, done, tips, proven, b, cfg);
        return false, bytes;
      }
      ProvedInLedger(db, b, cfg);
      if change.Some? && proven[change.value] {
        Unread(db, done, tips, proven, b, cfg);
        return false, bytes;
      }
      ReadOne(db, done, tips, proven, b, cfg);
      TotalInsert(done, cfg.retained, b, db.receipts[b]);
      proven := Marked(proven, change);
      tips := Tipped(tips, tip);
      bytes := bytes + cfg.retained(b, db.receipts[b].request);
      done := done[b := db.receipts[b]];
      todo := todo - {b};
      if bytes > cfg.limits.receiptBytes {
        PartialTotal(db, done, tips, proven, cfg);
        return false, bytes;
      }
    }
    Complete(db, done, tips, proven, cfg);
    ok := |tips| == |db.points| && forall i :: 0 <= i < |proven| ==> proven[i];
  }

  lemma StartRead(db: Db, cfg: Config)
    ensures Read(db, map[], {}, seq(|db.changes|, i => false), cfg)
    ensures Total(map[], cfg.retained) == 0
  {
  }

  lemma ProvedInLedger(db: Db, b: Binding, cfg: Config)
    requires b in db.receipts && ReceiptRowOk(db, b, cfg)
    ensures ChangeProved(db, b).Some? ==> ChangeProved(db, b).value < |db.changes|
  {
    hide ReceiptValid, ReceiptMatches;
  }

  lemma {:induction false} SubTotal(m: map<Binding, Record>, done: map<Binding, Record>, f: (Binding, Request) -> nat)
    requires forall b :: b in done ==> b in m && m[b] == done[b]
    ensures Total(done, f) <= Total(m, f)
    decreases |done|
  {
    if b :| b in done {
      TotalRemove(done, f, b);
      TotalRemove(m, f, b);
      SubTotal(m - {b}, done - {b}, f);
    } else {
      assert done == map[];
    }
  }

  lemma PartialTotal(db: Db, done: map<Binding, Record>, tips: set<string>, proven: seq<bool>, cfg: Config)
    requires Read(db, done, tips, proven, cfg)
    ensures Total(done, cfg.retained) <= Total(db.receipts, cfg.retained)
  {
    hide Total, ReceiptRowOk, TipProved, ChangeProved;
    SubTotal(db.receipts, done, cfg.retained);
  }

  /** Counting proven tips is enough, because only points are counted. */
  lemma Complete(db: Db, done: map<Binding, Record>, tips: set<string>, proven: seq<bool>, cfg: Config)
    requires Read(db, done, tips, proven, cfg) && done.Keys == db.receipts.Keys
    ensures done == db.receipts && forall b :: b in db.receipts ==> ReceiptRowOk(db, b, cfg)
    ensures ProofsDistinct(db)
    ensures AllProved(db) <==> |tips| == |db.points| && forall i :: 0 <= i < |proven| ==> proven[i]
  {
    hide ReceiptRowOk, TipProved, ChangeProved;
    assert done == db.receipts;
    assert tips <= db.points.Keys;
    SameSize(tips, db.points.Keys);
    if AllProved(db) {
      forall id | id in db.points ensures id in tips {
        assert TipHasProof(db, id);
      }
      assert tips == db.points.Keys;
      forall i | 0 <= i < |proven| ensures proven[i] {
        assert ChangeHasProof(db, i);
      }
    } else if |tips| == |db.points| {
      forall id | id in db.points ensures TipHasProof(db, id) {
        assert id in tips;
      }
      if forall i :: 0 <= i < |proven| ==> proven[i] {
        forall i | 0 <= i < |db.changes| ensures ChangeHasProof(db, i) {
          assert proven[i];
        }
      }
    }
  }

  lemma SameSize(a: set<string>, b: set<string>)
    requires a <= b
    ensures |a| == |b| <==> a == b
  {
    assert b == a + (b - a);
  }

  /** `from_sqlite`: accepts exactly the recoverable databases. */
  method Open(db: Db, cfg: Config) returns (r: Result<Authority, SqliteError>)
    ensures r.Ok? <==> Recoverable(db, cfg)
    ensures r.Ok? ==> r.value == Rebuilt(db, cfg)
  {
    hide Total, Proofs, ReceiptRowOk, ChangeRowOk, ChainOk, NewestOk, PointRowOk;
    if !Fits(db, cfg) {
      return Err(LimitExceeded);
    }
    var points := CheckPoints(db, cfg);
    if !points {
      return Err(Incompatible);
    }
    var changes, last := CheckChanges(db);
    if !changes || (if db.changes == [] then 0 else db.changes[|db.changes| - 1].sequence) != db.sequence {
      return Err(Incompatible);
    }
    var newest := CheckNewest(db, last);
    if !newest {
      return Err(Incompatible);
    }
    var receipts, bytes := CheckReceipts(db, cfg);
    if !receipts {
      return Err(Incompatible);
    }
    r := Ok(Authority(db.points, db.receipts, bytes, db.changes, db.sequence));
  }
}
