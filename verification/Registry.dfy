/** The table of subscriptions: bindings, entries and the bytes they share. */
module Registry {
  import opened Ordered
  import opened Prelude
  import opened Subscription

  type SessionId = nat
  type Key = nat

  datatype Entry = Entry(
    session: SessionId, key: Key, canonical: seq<nat>, base: nat, reservation: nat,
    legacy: bool, active: bool, record: Record)

  datatype Table = Table(entries: map<Watch, Entry>, bindings: map<(SessionId, Key), Watch>, reserved: nat)

  /** A creation request as it reaches the table. */
  datatype Creation = Creation(
    session: SessionId, key: Key, canonical: seq<nat>, ids: seq<Id>, principalBytes: nat, legacy: bool)

  datatype Admission = Inserted | Existing(watch: Watch) | Mismatch | Full

  datatype Publication = Done | Retry | NoCapacity | Gone

  // ---------------------------------------------------------------- counting

  function ActiveWatches(entries: map<Watch, Entry>): set<Watch> {
    set w | w in entries && entries[w].active
  }

  function Own(entries: map<Watch, Entry>, session: SessionId): set<Watch> {
    set w | w in entries && entries[w].session == session
  }

  function OwnActive(entries: map<Watch, Entry>, session: SessionId): set<Watch> {
    set w | w in entries && entries[w].session == session && entries[w].active
  }

  ghost function Sum(entries: map<Watch, Entry>): nat
    decreases |entries|
  {
    if entries == map[] then 0
    else
      var w := Pick(entries.Keys);
      entries[w].reservation + Sum(entries - {w})
  }

  ghost function Pick(s: set<Watch>): Watch
    requires s != {}
    ensures Pick(s) in s
  {
    var w :| w in s; w
  }

  lemma {:induction false} SumRemove(entries: map<Watch, Entry>, w: Watch)
    requires w in entries
    ensures Sum(entries) == entries[w].reservation + Sum(entries - {w})
    decreases |entries|
  {
    var p := Pick(entries.Keys);
    if p != w {
      SumRemove(entries - {p}, w);
      assert entries - {p} - {w} == entries - {w} - {p};
      SumRemove(entries - {w}, p);
    }
  }

  lemma SumPut(entries: map<Watch, Entry>, w: Watch, entry: Entry)
    ensures Sum(entries[w := entry]) == Sum(entries - {w}) + entry.reservation
  {
    SumRemove(entries[w := entry], w);
    assert entries[w := entry] - {w} == entries - {w};
  }

  // ---------------------------------------------------------------- operations

  function BaseReservation(creation: Creation, limits: Limits): nat {
    SatAdd(
      SatAdd(
        SatAdd(SatAdd(Min(12 * limits.maxViewBytes, U64_MAX), Min(2 * limits.maxDeliveryBytes, U64_MAX)),
               Min(4 * |creation.canonical|, U64_MAX)),
        creation.principalBytes),
      4096)
  }

  function NewEntry(creation: Creation, limits: Limits, size: Id -> nat): Entry {
    var base := BaseReservation(creation, limits);
    Entry(creation.session, creation.key, creation.canonical, base, SatAdd(base, MembershipBytes(creation.ids, size)),
          creation.legacy, true, Record(0, Preparing))
  }

  function Insert(table: Table, watch: Watch, entry: Entry): Table {
    Table(table.entries[watch := entry], table.bindings[KeyOf(entry) := watch], table.reserved + entry.reservation)
  }

  predicate HasRoom(table: Table, creation: Creation, limits: Limits, size: Id -> nat) {
    && |ActiveWatches(table.entries)| < limits.maxWatches
    && |OwnActive(table.entries, creation.session)| < limits.maxWatchesPerSession
    && |table.entries| < limits.maxBindings
    && |Own(table.entries, creation.session)| < limits.maxBindingsPerSession
    && NewEntry(creation, limits, size).reservation <= Monus(limits.maxRetainedBytes, table.reserved)
  }

  /** Look a creation up by its session and key, or admit it. */
  function Admit(table: Table, creation: Creation, watch: Watch, limits: Limits, size: Id -> nat): (Table, Admission)
    requires Bound(table)
  {
    var key := (creation.session, creation.key);
    if key in table.bindings then
      var entry := table.entries[table.bindings[key]];
      if entry.canonical != creation.canonical || entry.legacy != creation.legacy then (table, Mismatch)
      else (table, Existing(table.bindings[key]))
    else if HasRoom(table, creation, limits, size) then
      (Insert(table, watch, NewEntry(creation, limits, size)), Inserted)
    else (table, Full)
  }

  function Remove(table: Table, watch: Watch): Table {
    if watch !in table.entries then table
    else
      var entry := table.entries[watch];
      Table(table.entries - {watch}, table.bindings - {KeyOf(entry)}, Monus(table.reserved, entry.reservation))
  }

  function Required(entry: Entry, next: Record, size: Id -> nat): nat {
    if next.status.Serving? then SatAdd(entry.base, MembershipBytes(next.status.live.ids, size)) else entry.reservation
  }

  predicate Lapsed(record: Record, now: nat) {
    record.status.Serving? && record.status.live.leaseUntil <= now
  }

  /** Compare and swap one record, reserving any growth of its membership first. */
  function Install(table: Table, watch: Watch, revision: nat, next: Record, now: nat, limits: Limits,
                   size: Id -> nat): (Table, Publication) {
    if watch !in table.entries then (table, Gone)
    else
      var entry := table.entries[watch];
      if entry.record.revision != revision || Lapsed(entry.record, now) then (table, Retry)
      else
        var growth := Monus(Required(entry, next, size), entry.reservation);
        if growth > Monus(limits.maxRetainedBytes, table.reserved) then (table, NoCapacity)
        else
          var reservation := entry.reservation + growth;
          var swapped := entry.(reservation := reservation, active := next.status.Serving?, record := next);
          (table.(entries := table.entries[watch := swapped], reserved := table.reserved + growth), Done)
  }

  /** Stop a record whose revision has not moved. */
  function Terminate(table: Table, watch: Watch, revision: nat, reason: Resync): (Table, bool) {
    if watch in table.entries && table.entries[watch].record.revision == revision < U64_MAX then
      var stopped := table.entries[watch].(active := false, record := Record(revision + 1, Stopped(reason)));
      (table.(entries := table.entries[watch := stopped]), true)
    else (table, false)
  }

  /** What one maintenance pass makes of an entry it could lock. */
  function Aged(entry: Entry, now: nat): Entry {
    if Lapsed(entry.record, now)
    then entry.(active := false, record := Record(Min(entry.record.revision + 1, U64_MAX), Stopped(LeaseExpired)))
    else entry
  }

  predicate Swept(entry: Entry, busy: bool, now: nat, closed: set<SessionId>) {
    entry.session in closed || (!busy && entry.legacy && !Aged(entry, now).active)
  }

  function AgedAt(entry: Entry, watch: Watch, now: nat, closed: set<SessionId>, busy: set<Watch>): Entry {
    if entry.session in closed || watch in busy then entry else Aged(entry, now)
  }

  function Kept(bindings: map<(SessionId, Key), Watch>, swept: set<Watch>): map<(SessionId, Key), Watch> {
    map k | k in bindings && bindings[k] !in swept :: bindings[k]
  }

  function AgedEntries(entries: map<Watch, Entry>, now: nat, closed: set<SessionId>, busy: set<Watch>)
    : map<Watch, Entry>
  {
    map w | w in entries :: AgedAt(entries[w], w, now, closed, busy)
  }

  function SweptWatches(entries: map<Watch, Entry>, now: nat, closed: set<SessionId>, busy: set<Watch>): set<Watch> {
    set w | w in entries && Swept(entries[w], w in busy, now, closed)
  }

  /** One maintenance pass: lapsed leases stop, closed sessions and dead legacy watches leave. */
  ghost function Maintained(table: Table, now: nat, closed: set<SessionId>, busy: set<Watch>): Table {
    var swept := SweptWatches(table.entries, now, closed, busy);
    var entries := AgedEntries(table.entries, now, closed, busy) - swept;
    Table(entries, Kept(table.bindings, swept), Sum(entries))
  }

  // ---------------------------------------------------------------- the invariant

  function KeyOf(entry: Entry): (SessionId, Key) {
    (entry.session, entry.key)
  }

  /** Bindings and entries name each other, one to one. */
  ghost predicate Bound(table: Table) {
    && (forall k :: k in table.bindings ==>
          table.bindings[k] in table.entries && KeyOf(table.entries[table.bindings[k]]) == k)
    && (forall w :: w in table.entries ==>
          KeyOf(table.entries[w]) in table.bindings && table.bindings[KeyOf(table.entries[w])] == w)
  }

  ghost predicate Covered(entry: Entry, size: Id -> nat) {
    && Required(entry, entry.record, size) <= entry.reservation
    && (entry.active <==> entry.record.status.Preparing? || entry.record.status.Serving?)
  }

  ghost predicate AllCovered(entries: map<Watch, Entry>, size: Id -> nat) {
    forall w :: w in entries ==> Covered(entries[w], size)
  }

  ghost predicate WithinCounts(entries: map<Watch, Entry>, limits: Limits) {
    && |ActiveWatches(entries)| <= limits.maxWatches && |entries| <= limits.maxBindings
    && forall s ::
         |OwnActive(entries, s)| <= limits.maxWatchesPerSession && |Own(entries, s)| <= limits.maxBindingsPerSession
  }

  ghost predicate TableOk(table: Table, limits: Limits, size: Id -> nat) {
    && Bound(table)
    && table.reserved == Sum(table.entries) <= limits.maxRetainedBytes
    && AllCovered(table.entries, size)
    && WithinCounts(table.entries, limits)
  }

  // ---------------------------------------------------------------- every operation keeps it

  lemma CountsShrink(was: map<Watch, Entry>, next: map<Watch, Entry>, limits: Limits)
    requires WithinCounts(was, limits) && next.Keys <= was.Keys
    requires forall w :: w in next ==> next[w].session == was[w].session && (next[w].active ==> was[w].active)
    ensures WithinCounts(next, limits)
  {
    SubsetSize(next.Keys, was.Keys);
    SubsetSize(ActiveWatches(next), ActiveWatches(was));
    forall s
      ensures |OwnActive(next, s)| <= |OwnActive(was, s)| && |Own(next, s)| <= |Own(was, s)|
    {
      SubsetSize(OwnActive(next, s), OwnActive(was, s));
      SubsetSize(Own(next, s), Own(was, s));
    }
  }

  lemma BindingHasEntry(table: Table, key: (SessionId, Key))
    requires Bound(table)
    ensures key in table.bindings ==> table.bindings[key] in table.entries
  {
  }

  lemma BoundInsert(table: Table, watch: Watch, entry: Entry)
    requires Bound(table) && watch !in table.entries && KeyOf(entry) !in table.bindings
    ensures Bound(Insert(table, watch, entry))
  {
  }

  lemma BoundRemove(table: Table, watch: Watch)
    requires Bound(table)
    ensures Bound(Remove(table, watch))
  {
  }

  lemma AdmitKeeps(table: Table, creation: Creation, watch: Watch, limits: Limits, size: Id -> nat)
    requires TableOk(table, limits, size) && watch !in table.entries
    ensures TableOk(Admit(table, creation, watch, limits, size).0, limits, size)
  {
    hide MembershipBytes, BaseReservation, Bound, WithinCounts, Sum, ActiveWatches, Own, OwnActive;
    var (next, outcome) := Admit(table, creation, watch, limits, size);
    if outcome.Inserted? {
      var entry := NewEntry(creation, limits, size);
      SumPut(table.entries, watch, entry);
      assert table.entries - {watch} == table.entries;
      BoundInsert(table, watch, entry);
      CountsGrow(table.entries, watch, entry, limits);
    }
  }

  lemma CountsGrow(entries: map<Watch, Entry>, watch: Watch, entry: Entry, limits: Limits)
    requires WithinCounts(entries, limits) && watch !in entries && entry.active
    requires |ActiveWatches(entries)| < limits.maxWatches
    requires |OwnActive(entries, entry.session)| < limits.maxWatchesPerSession
    requires |entries| < limits.maxBindings && |Own(entries, entry.session)| < limits.maxBindingsPerSession
    ensures WithinCounts(entries[watch := entry], limits)
  {
    hide ActiveWatches, Own, OwnActive;
    var next := entries[watch := entry];
    assert next.Keys == entries.Keys + {watch};
    CountActive(entries, watch, entry);
    forall s
      ensures |OwnActive(next, s)| <= limits.maxWatchesPerSession && |Own(next, s)| <= limits.maxBindingsPerSession
    {
      CountOwn(entries, watch, entry, s);
      CountOwnActive(entries, watch, entry, s);
    }
  }

  lemma CountActive(entries: map<Watch, Entry>, w: Watch, entry: Entry)
    requires w !in entries
    ensures |ActiveWatches(entries[w := entry])| == |ActiveWatches(entries)| + if entry.active then 1 else 0
  {
    if entry.active {
      assert ActiveWatches(entries[w := entry]) == ActiveWatches(entries) + {w};
    } else {
      assert ActiveWatches(entries[w := entry]) == ActiveWatches(entries);
    }
  }

  lemma CountOwn(entries: map<Watch, Entry>, w: Watch, entry: Entry, session: SessionId)
    requires w !in entries
    ensures |Own(entries[w := entry], session)| == |Own(entries, session)| + if entry.session == session then 1 else 0
  {
    if entry.session == session {
      assert Own(entries[w := entry], session) == Own(entries, session) + {w};
    } else {
      assert Own(entries[w := entry], session) == Own(entries, session);
    }
  }

  lemma CountOwnActive(entries: map<Watch, Entry>, w: Watch, entry: Entry, session: SessionId)
    requires w !in entries
    ensures |OwnActive(entries[w := entry], session)|
            == |OwnActive(entries, session)| + if entry.session == session && entry.active then 1 else 0
  {
    if entry.session == session && entry.active {
      assert OwnActive(entries[w := entry], session) == OwnActive(entries, session) + {w};
    } else {
      assert OwnActive(entries[w := entry], session) == OwnActive(entries, session);
    }
  }

  lemma RemoveKeeps(table: Table, watch: Watch, limits: Limits, size: Id -> nat)
    requires TableOk(table, limits, size)
    ensures TableOk(Remove(table, watch), limits, size)
  {
    hide Covered, Bound, WithinCounts, Sum;
    if watch in table.entries {
      SumRemove(table.entries, watch);
      BoundRemove(table, watch);
      CountsShrink(table.entries, Remove(table, watch).entries, limits);
    }
  }

  /** Replacing one entry in place keeps the bindings and the total in step. */
  lemma UpdateKeeps(table: Table, watch: Watch, entry: Entry, limits: Limits, size: Id -> nat)
    requires TableOk(table, limits, size) && watch in table.entries && Covered(entry, size)
    requires KeyOf(entry) == KeyOf(table.entries[watch]) && (entry.active ==> table.entries[watch].active)
    requires table.entries[watch].reservation <= entry.reservation
    requires table.reserved + entry.reservation - table.entries[watch].reservation <= limits.maxRetainedBytes
    ensures TableOk(
      table.(entries := table.entries[watch := entry],
             reserved := table.reserved + entry.reservation - table.entries[watch].reservation),
      limits, size)
  {
    hide Covered, Bound, Sum, WithinCounts;
    SumRemove(table.entries, watch);
    SumPut(table.entries, watch, entry);
    BoundUpdate(table, watch, entry, table.reserved + entry.reservation - table.entries[watch].reservation);
    CountsShrink(table.entries, table.entries[watch := entry], limits);
  }

  lemma BoundUpdate(table: Table, watch: Watch, entry: Entry, reserved: nat)
    requires Bound(table) && watch in table.entries && KeyOf(entry) == KeyOf(table.entries[watch])
    ensures Bound(Table(table.entries[watch := entry], table.bindings, reserved))
  {
  }

  lemma InstallKeeps(table: Table, watch: Watch, revision: nat, next: Record, now: nat, limits: Limits, size: Id -> nat)
    requires TableOk(table, limits, size)
    requires watch in table.entries && next.status.Serving? ==> table.entries[watch].active
    requires !next.status.Preparing?
    ensures TableOk(Install(table, watch, revision, next, now, limits, size).0, limits, size)
  {
    hide MembershipBytes, Sum;
    var (after, publication) := Install(table, watch, revision, next, now, limits, size);
    if publication.Done? {
      var entry := after.entries[watch];
      assert after == table.(entries := table.entries[watch := entry],
                             reserved := table.reserved + entry.reservation - table.entries[watch].reservation);
      UpdateKeeps(table, watch, entry, limits, size);
    }
  }

  lemma TerminateKeeps(table: Table, watch: Watch, revision: nat, reason: Resync, limits: Limits, size: Id -> nat)
    requires TableOk(table, limits, size)
    ensures TableOk(Terminate(table, watch, revision, reason).0, limits, size)
  {
    hide MembershipBytes, Sum;
    var (after, hit) := Terminate(table, watch, revision, reason);
    if hit {
      var entry := after.entries[watch];
      assert after == table.(entries := table.entries[watch := entry],
                             reserved := table.reserved + entry.reservation - table.entries[watch].reservation);
      UpdateKeeps(table, watch, entry, limits, size);
    }
  }

  lemma {:induction false} SumShrinks(was: map<Watch, Entry>, next: map<Watch, Entry>)
    requires next.Keys <= was.Keys && forall w :: w in next ==> next[w].reservation == was[w].reservation
    ensures Sum(next) <= Sum(was)
    decreases |was|
  {
    if was != map[] {
      var w := Pick(was.Keys);
      SumRemove(was, w);
      if w in next {
        SumRemove(next, w);
        SumShrinks(was - {w}, next - {w});
      } else {
        SumShrinks(was - {w}, next);
      }
    } else {
      assert next == map[];
    }
  }

  lemma AgedCovered(entry: Entry, now: nat, size: Id -> nat)
    requires Covered(entry, size)
    ensures Covered(Aged(entry, now), size)
    ensures KeyOf(Aged(entry, now)) == KeyOf(entry) && Aged(entry, now).reservation == entry.reservation
    ensures Aged(entry, now).active ==> entry.active
  {
    hide MembershipBytes;
  }

  /** Which entries survive a pass, and how. */
  lemma MaintainedAt(table: Table, now: nat, closed: set<SessionId>, busy: set<Watch>)
    ensures var next := Maintained(table, now, closed, busy).entries;
      && next.Keys <= table.entries.Keys
      && forall w :: w in next ==> next[w] == table.entries[w] || next[w] == Aged(table.entries[w], now)
  {
    hide Sum, Aged, Swept;
  }

  lemma BoundMaintained(table: Table, now: nat, closed: set<SessionId>, busy: set<Watch>)
    requires Bound(table)
    ensures Bound(Maintained(table, now, closed, busy))
  {
    hide Sum, Swept;
  }

  lemma MaintainKeeps(table: Table, now: nat, closed: set<SessionId>, busy: set<Watch>, limits: Limits, size: Id -> nat)
    requires TableOk(table, limits, size)
    ensures TableOk(Maintained(table, now, closed, busy), limits, size)
  {
    hide Sum, WithinCounts, Covered, Bound, Aged, Swept, AgedEntries, SweptWatches;
    var next := Maintained(table, now, closed, busy);
    MaintainedAt(table, now, closed, busy);
    forall w | w in next.entries
      ensures Covered(next.entries[w], size) && next.entries[w].reservation == table.entries[w].reservation
      ensures next.entries[w].session == table.entries[w].session
      ensures next.entries[w].active ==> table.entries[w].active
    {
      AgedCovered(table.entries[w], now, size);
    }
    SumShrinks(table.entries, next.entries);
    CountsShrink(table.entries, next.entries, limits);
    BoundMaintained(table, now, closed, busy);
  }

  // ---------------------------------------------------------------- the table in place

  class Owner {
    var entries: map<Watch, Entry>
    var bindings: map<(SessionId, Key), Watch>
    var reserved: nat

    ghost function Value(): Table
      reads this
    {
      Table(entries, bindings, reserved)
    }

    ghost predicate Valid()
      reads this
    {
      Bound(Value()) && reserved == Sum(entries)
    }

    constructor ()
      ensures Valid() && Value() == Table(map[], map[], 0)
    {
      entries, bindings, reserved := map[], map[], 0;
    }

    /** Count the active entries, this session's entries, and its active ones. */
    method Count(session: SessionId) returns (active: nat, own: nat, ownActive: nat)
      ensures active == |ActiveWatches(entries)| && own == |Own(entries, session)|
      ensures ownActive == |OwnActive(entries, session)|
    {
      hide ActiveWatches, Own, OwnActive;
      active, own, ownActive := 0, 0, 0;
      NoneCounted(session);
      var left := entries.Keys;
      ghost var done := map[];
      while left != {}
        invariant left <= entries.Keys && done == map w | w in entries && w !in left :: entries[w]
        invariant active == |ActiveWatches(done)| && own == |Own(done, session)|
        invariant ownActive == |OwnActive(done, session)|
        decreases |left|
      {
        var w :| w in left;
        CountActive(done, w, entries[w]);
        CountOwn(done, w, entries[w], session);
        CountOwnActive(done, w, entries[w], session);
        if entries[w].active {
          active := active + 1;
        }
        if entries[w].session == session {
          own := own + 1;
          if entries[w].active {
            ownActive := ownActive + 1;
          }
        }
        done := done[w := entries[w]];
        left := left - {w};
      }
      assert done == entries;
    }

    method Room(creation: Creation, limits: Limits, size: Id -> nat) returns (room: bool)
      ensures room <==> HasRoom(Value(), creation, limits, size)
    {
      hide ActiveWatches, Own, OwnActive, NewEntry;
      var active, own, ownActive := Count(creation.session);
      room := active < limits.maxWatches && ownActive < limits.maxWatchesPerSession && |entries| < limits.maxBindings
      && own < limits.maxBindingsPerSession
      && NewEntry(creation, limits, size).reservation <= Monus(limits.maxRetainedBytes, reserved);
    }

    method AdmitCreation(creation: Creation, watch: Watch, limits: Limits, size: Id -> nat) returns (outcome: Admission)
      requires Valid() && watch !in entries
      modifies this
      ensures Valid() && (Value(), outcome) == Admit(old(Value()), creation, watch, limits, size)
    {
      hide Sum, MembershipBytes, BaseReservation, HasRoom, Bound;
      var key := (creation.session, creation.key);
      BindingHasEntry(Value(), key);
      if key in bindings {
        var entry := entries[bindings[key]];
        if entry.canonical != creation.canonical || entry.legacy != creation.legacy {
          return Mismatch;
        }
        return Existing(bindings[key]);
      }
      var room := Room(creation, limits, size);
      if !room {
        return Full;
      }
      var entry := NewEntry(creation, limits, size);
      SumPut(entries, watch, entry);
      assert entries - {watch} == entries;
      BoundInsert(Value(), watch, entry);
      reserved := reserved + entry.reservation;
      bindings := bindings[key := watch];
      entries := entries[watch := entry];
      outcome := Inserted;
    }

    method RemoveEntry(watch: Watch)
      requires Valid()
      modifies this
      ensures Valid() && Value() == Remove(old(Value()), watch)
    {
      hide Sum, Bound;
      BoundRemove(Value(), watch);
      if watch in entries {
        SumRemove(entries, watch);
        var entry := entries[watch];
        entries := entries - {watch};
        bindings := bindings - {KeyOf(entry)};
        reserved := Monus(reserved, entry.reservation);
      }
    }

    method InstallRecord(watch: Watch, revision: nat, next: Record, now: nat, limits: Limits, size: Id -> nat)
      returns (publication: Publication)
      requires Valid()
      modifies this
      ensures Valid() && (Value(), publication) == Install(old(Value()), watch, revision, next, now, limits, size)
    {
      hide Sum, MembershipBytes, Bound, Required;
      if watch !in entries {
        return Gone;
      }
      var entry := entries[watch];
      if entry.record.revision != revision || Lapsed(entry.record, now) {
        return Retry;
      }
      var growth := Monus(Required(entry, next, size), entry.reservation);
      if growth > Monus(limits.maxRetainedBytes, reserved) {
        return NoCapacity;
      }
      var swapped := entry.(reservation := entry.reservation + growth, active := next.status.Serving?, record := next);
      SumRemove(entries, watch);
      SumPut(entries, watch, swapped);
      BoundUpdate(Value(), watch, swapped, reserved + growth);
      reserved := reserved + growth;
      entries := entries[watch := swapped];
      publication := Done;
    }

    method TerminateRecord(watch: Watch, revision: nat, reason: Resync) returns (hit: bool)
      requires Valid()
      modifies this
      ensures Valid() && (Value(), hit) == Terminate(old(Value()), watch, revision, reason)
    {
      hide Sum, Bound;
      if watch !in entries || entries[watch].record.revision != revision || revision >= U64_MAX {
        return false;
      }
      var stopped := entries[watch].(active := false, record := Record(revision + 1, Stopped(reason)));
      SumRemove(entries, watch);
      SumPut(entries, watch, stopped);
      BoundUpdate(Value(), watch, stopped, reserved);
      entries := entries[watch := stopped];
      hit := true;
    }

    /** Age every entry that could be locked, and mark what must leave. */
    method Age(now: nat, closed: set<SessionId>, busy: set<Watch>) returns (marked: set<Watch>)
      modifies this`entries
      ensures entries == AgedEntries(old(entries), now, closed, busy)
      ensures marked == SweptWatches(old(entries), now, closed, busy)
    {
      hide Aged;
      var left := entries.Keys;
      marked := {};
      while left != {}
        invariant left <= entries.Keys == old(entries).Keys
        invariant forall w :: w in entries ==>
          entries[w] == if w in left then old(entries)[w] else AgedAt(old(entries)[w], w, now, closed, busy)
        invariant forall w ::
          w in marked <==> w in old(entries) && w !in left && Swept(old(entries)[w], w in busy, now, closed)
        decreases |left|
      {
        var w :| w in left;
        var entry := entries[w];
        if entry.session in closed {
          marked := marked + {w};
        } else if w !in busy {
          entry := Aged(entry, now);
          entries := entries[w := entry];
          AgedSame(old(entries)[w], now);
          if entry.legacy && !entry.active {
            marked := marked + {w};
          }
        }
        left := left - {w};
      }
    }

    method Sweep(marked: set<Watch>)
      requires Valid() && marked <= entries.Keys
      modifies this
      ensures Valid() && entries == old(entries) - marked && bindings == Kept(old(bindings), marked)
    {
      hide Sum, Bound;
      ghost var was, gone := Value(), {};
      var left := marked;
      while left != {}
        invariant left <= marked && gone == marked - left && Valid()
        invariant entries == was.entries - gone && bindings == Kept(was.bindings, gone)
        decreases |left|
      {
        hide Kept;
        var w :| w in left;
        KeptStep(was, Value(), gone, w);
        RemoveEntry(w);
        left, gone := left - {w}, gone + {w};
      }
      assert gone == marked;
    }

    method Maintain(now: nat, closed: set<SessionId>, busy: set<Watch>)
      requires Valid()
      modifies this
      ensures Valid() && Value() == Maintained(old(Value()), now, closed, busy)
    {
      hide Sum, Bound, AgedEntries, SweptWatches, Kept;
      AgedKeepsShape(Value(), now, closed, busy);
      var marked := Age(now, closed, busy);
      Sweep(marked);
    }

    method Clear()
      modifies this
      ensures Valid() && Value() == Table(map[], map[], 0)
    {
      entries, bindings, reserved := map[], map[], 0;
    }
  }

  lemma NoneCounted(session: SessionId)
    ensures |ActiveWatches(map[])| == 0 && |Own(map[], session)| == 0 && |OwnActive(map[], session)| == 0
  {
  }

  lemma {:induction false} SameSum(a: map<Watch, Entry>, b: map<Watch, Entry>)
    requires a.Keys == b.Keys && forall w :: w in a ==> a[w].reservation == b[w].reservation
    ensures Sum(a) == Sum(b)
  {
    SumShrinks(a, b);
    SumShrinks(b, a);
  }

  lemma AgedSame(entry: Entry, now: nat)
    ensures KeyOf(Aged(entry, now)) == KeyOf(entry) && Aged(entry, now).legacy == entry.legacy
  {
  }

  /** Removing one marked entry removes exactly its binding. */
  lemma KeptStep(was: Table, table: Table, gone: set<Watch>, w: Watch)
    requires Bound(was) && w in was.entries && w !in gone
    requires table.entries == was.entries - gone && table.bindings == Kept(was.bindings, gone)
    ensures Remove(table, w).bindings == Kept(was.bindings, gone + {w})
    ensures Remove(table, w).entries == was.entries - (gone + {w})
  {
    var key := KeyOf(was.entries[w]);
    assert forall k :: k in was.bindings ==> (was.bindings[k] == w <==> k == key);
  }

  /** Aging changes records and flags, never keys, bindings or reservations. */
  lemma AgedKeepsShape(table: Table, now: nat, closed: set<SessionId>, busy: set<Watch>)
    requires Bound(table)
    ensures Bound(table.(entries := AgedEntries(table.entries, now, closed, busy)))
    ensures Sum(AgedEntries(table.entries, now, closed, busy)) == Sum(table.entries)
    ensures var aged := AgedEntries(table.entries, now, closed, busy);
      aged.Keys == table.entries.Keys && SweptWatches(table.entries, now, closed, busy) <= aged.Keys
  {
    hide Sum;
    SameSum(table.entries, AgedEntries(table.entries, now, closed, busy));
  }

  // ---------------------------------------------------------------- a first publication needs no more bytes

  function Weight(ids: seq<Id>, size: Id -> nat): nat {
    if ids == [] then 0 else STRING_BYTES + size(ids[0]) + Weight(ids[1..], size)
  }

  lemma {:induction false} WeightSnoc(ids: seq<Id>, id: Id, size: Id -> nat)
    ensures Weight(ids + [id], size) == Weight(ids, size) + STRING_BYTES + size(id)
  {
    if ids == [] {
      assert Weight([id][1..], size) == 0;
    } else {
      WeightSnoc(ids[1..], id, size);
      assert (ids + [id])[1..] == ids[1..] + [id];
    }
  }

  lemma {:induction false} MembershipWeighs(ids: seq<Id>, size: Id -> nat)
    ensures MembershipBytes(ids, size) == Min(64 + Weight(ids, size), U64_MAX)
    decreases |ids|
  {
    if ids != [] {
      var last := |ids| - 1;
      MembershipWeighs(ids[..last], size);
      WeightSnoc(ids[..last], ids[last], size);
      assert ids == ids[..last] + [ids[last]];
    }
  }

  lemma {:induction false} IncludeWeighs(id: Id, ids: seq<Id>, size: Id -> nat)
    ensures Weight(Include(id, ids), size) <= Weight(ids, size) + STRING_BYTES + size(id)
  {
    if ids != [] && ids[0] < id {
      IncludeWeighs(id, ids[1..], size);
      assert Include(id, ids)[1..] == Include(id, ids[1..]);
    } else {
      assert Include(id, ids) == [id] + ids ==> Include(id, ids)[1..] == ids;
    }
  }

  lemma {:induction false} NormalizeWeighs(ids: seq<Id>, size: Id -> nat)
    ensures Weight(Normalize(ids), size) <= Weight(ids, size)
  {
    if ids != [] {
      NormalizeWeighs(ids[1..], size);
      IncludeWeighs(ids[0], Normalize(ids[1..]), size);
    }
  }

  /** The bytes reserved for a requested id list cover the normalized list, so the
      first publication of an admitted watch is never refused for capacity. */
  lemma FirstPublicationFits(table: Table, watch: Watch, creation: Creation, next: Record, now: nat, limits: Limits,
                             size: Id -> nat)
    requires watch in table.entries && table.entries[watch] == NewEntry(creation, limits, size)
    requires next.status.Serving? && next.status.live.ids == Normalize(creation.ids)
    ensures Install(table, watch, 0, next, now, limits, size).1 == Done
  {
    hide BaseReservation, Normalize, Weight;
    MembershipWeighs(creation.ids, size);
    MembershipWeighs(Normalize(creation.ids), size);
    NormalizeWeighs(creation.ids, size);
  }
}
