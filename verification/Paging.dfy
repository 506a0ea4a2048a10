/** Cursor paging: bounded selection over an unordered catalog scan, ordered entity
    scans, and the pages a client walks. */
module Paging {
  import opened Ordered
  import opened Prelude

  datatype Page = Page(rows: seq<nat>, complete: bool, last: Option<nat>)

  predicate Past(name: nat, after: Option<nat>) {
    after.None? || after.value < name
  }

  function First(k: nat, names: seq<nat>): seq<nat> {
    names[..Min(k, |names|)]
  }

  /** The admissible names of a scan, in order. */
  function Collected(scan: seq<nat>, allowed: nat -> bool, after: Option<nat>): seq<nat> {
    if scan == [] then []
    else
      var front, name := Collected(scan[..|scan| - 1], allowed, after), scan[|scan| - 1];
      if allowed(name) && Past(name, after) then Include(name, front) else front
  }

  lemma {:induction false} CollectedSorts(scan: seq<nat>, allowed: nat -> bool, after: Option<nat>)
    ensures Ascending(Collected(scan, allowed, after))
    ensures forall x :: x in Collected(scan, allowed, after) <==> x in scan && allowed(x) && Past(x, after)
  {
    if scan != [] {
      var front, name := scan[..|scan| - 1], scan[|scan| - 1];
      CollectedSorts(front, allowed, after);
      IncludeSorts(name, Collected(front, allowed, after));
      assert scan == front + [name];
    }
  }

  // ---------------------------------------------------------------- the catalog: bounded selection

  /** Keep at most `limit + 1` of the smallest names seen. */
  function SelectNext(selected: seq<nat>, name: nat, limit: nat): seq<nat> {
    if |selected| > limit && name >= selected[|selected| - 1] then selected
    else
      var grown := Include(name, selected);
      if |grown| > limit + 1 then grown[..|grown| - 1] else grown
  }

  lemma {:induction false} IncludeLength(name: nat, names: seq<nat>)
    ensures |names| <= |Include(name, names)| <= |names| + 1
  {
    if names != [] && names[0] < name {
      IncludeLength(name, names[1..]);
    }
  }

  /** Selecting among the smallest names is selecting among all names. */
  lemma {:induction false} SelectionCommutes(names: seq<nat>, name: nat, k: nat)
    requires Ascending(names) && k > 0
    ensures First(k, Include(name, First(k, names))) == First(k, Include(name, names))
  {
    if names == [] || name < names[0] {
      assert Include(name, First(k, names)) == [name] + First(k, names);
    } else if name == names[0] {
      assert First(k, names)[0] == names[0];
    } else if k > 1 {
      SelectionCommutes(names[1..], name, k - 1);
      IncludeLength(name, names[1..]);
      IncludeLength(name, First(k - 1, names[1..]));
      assert First(k, names)[1..] == First(k - 1, names[1..]);
      assert First(k, names)[0] == names[0];
      FirstCons(k, names[0], Include(name, names[1..]));
      FirstCons(k, names[0], Include(name, First(k - 1, names[1..])));
    } else {
      assert First(1, names) == [names[0]];
      FirstCons(1, names[0], Include(name, names[1..]));
      FirstCons(1, names[0], Include(name, []));
      assert First(1, names)[1..] == [];
    }
  }

  lemma FirstCons(k: nat, x: nat, names: seq<nat>)
    requires k > 0
    ensures First(k, [x] + names) == [x] + First(k - 1, names)
  {
  }

  lemma SelectStep(names: seq<nat>, name: nat, limit: nat)
    requires Ascending(names)
    ensures SelectNext(First(limit + 1, names), name, limit) == First(limit + 1, Include(name, names))
  {
    hide Include, First, Ascending;
    var selected := First(limit + 1, names);
    FirstAscends(limit + 1, names);
    SelectionCommutes(names, name, limit + 1);
    IncludeLength(name, selected);
    if |selected| > limit && name >= selected[limit] {
      IncludeBeyond(selected, name);
    } else {
      FirstTrims(Include(name, selected), limit);
    }
  }

  lemma FirstAscends(k: nat, names: seq<nat>)
    requires Ascending(names)
    ensures Ascending(First(k, names)) && |First(k, names)| <= k
  {
  }

  lemma FirstTrims(names: seq<nat>, limit: nat)
    requires |names| <= limit + 2
    ensures First(limit + 1, names) == if |names| > limit + 1 then names[..|names| - 1] else names
  {
  }

  lemma {:induction false} IncludeBeyond(names: seq<nat>, name: nat)
    requires Ascending(names) && names != [] && names[|names| - 1] <= name
    ensures First(|names|, Include(name, names)) == names
  {
    if names[0] < name {
      if |names| > 1 {
        IncludeBeyond(names[1..], name);
        FirstCons(|names|, names[0], Include(name, names[1..]));
        assert names == [names[0]] + names[1..];
      } else {
        assert names[1..] == [];
        assert names == [names[0]];
      }
    }
  }

  /** Whatever the scan order, the selection is the `limit + 1` smallest admissible names. */
  method SelectCatalog(scan: seq<nat>, allowed: nat -> bool, after: Option<nat>, limit: nat)
    returns (selected: seq<nat>)
    ensures selected == First(limit + 1, Collected(scan, allowed, after))
  {
    hide SelectNext, Include;
    selected := [];
    for i := 0 to |scan|
      invariant selected == First(limit + 1, Collected(scan[..i], allowed, after))
    {
      assert scan[..i + 1][..i] == scan[..i];
      if allowed(scan[i]) && Past(scan[i], after) {
        CollectedSorts(scan[..i], allowed, after);
        SelectStep(Collected(scan[..i], allowed, after), scan[i], limit);
        selected := SelectNext(selected, scan[i], limit);
      }
    }
    assert scan[..|scan|] == scan;
  }

  /** The page of a list of matches that all lie after the cursor. */
  function PageOf(matches: seq<nat>, size: nat): Page {
    var rows := First(size, matches);
    Page(rows, |matches| <= size, if rows == [] then None else Some(rows[|rows| - 1]))
  }

  method CatalogPage(scan: seq<nat>, allowed: nat -> bool, after: Option<nat>, size: nat) returns (page: Page)
    ensures page == PageOf(Collected(scan, allowed, after), size)
  {
    hide Collected;
    var selected := SelectCatalog(scan, allowed, after, size);
    var complete := |selected| <= size;
    if !complete {
      selected := selected[..|selected| - 1];
    }
    page := Page(selected, complete, if selected == [] then None else Some(selected[|selected| - 1]));
  }

  // ---------------------------------------------------------------- entities: an ordered scan

  /** Take matches in id order until one more than a page is seen. */
  method EntityPage(ids: seq<nat>, matches: nat -> bool, after: Option<nat>, size: nat) returns (page: Page)
    requires Ascending(ids)
    ensures page == PageOf(Collected(ids, matches, after), size)
  {
    var rows: seq<nat> := [];
    assert rows == Collected(ids[..0], matches, after);
    hide Collected, PageOf, Past, Ascending;
    for i := 0 to |ids|
      invariant rows == Collected(ids[..i], matches, after) && |rows| <= size
    {
      CollectedStep(ids, matches, after, i);
      if Past(ids[i], after) && matches(ids[i]) {
        if |rows| == size {
          CollectedGrows(ids, matches, after, i + 1);
          EarlyPage(Collected(ids, matches, after), rows, ids[i]);
          return Page(rows, false, if rows == [] then None else Some(rows[|rows| - 1]));
        }
        rows := rows + [ids[i]];
      }
    }
    assert ids[..|ids|] == ids;
    WholePage(rows, size);
    page := Page(rows, true, if rows == [] then None else Some(rows[|rows| - 1]));
  }

  /** One match more than a page settles the page. */
  lemma EarlyPage(matches: seq<nat>, rows: seq<nat>, next: nat)
    requires rows + [next] <= matches
    ensures PageOf(matches, |rows|) == Page(rows, false, if rows == [] then None else Some(rows[|rows| - 1]))
  {
    assert matches[..|rows|] == (rows + [next])[..|rows|] == rows;
  }

  lemma WholePage(rows: seq<nat>, size: nat)
    requires |rows| <= size
    ensures PageOf(rows, size) == Page(rows, true, if rows == [] then None else Some(rows[|rows| - 1]))
  {
    assert rows[..|rows|] == rows;
  }

  lemma {:induction false} IncludeLast(names: seq<nat>, name: nat)
    requires forall x :: x in names ==> x < name
    ensures Include(name, names) == names + [name]
  {
    if names != [] {
      assert names[0] in names;
      assert names == [names[0]] + names[1..];
      assert forall x :: x in names[1..] ==> x in names;
      IncludeLast(names[1..], name);
    }
  }

  lemma CollectedStep(ids: seq<nat>, matches: nat -> bool, after: Option<nat>, i: nat)
    requires Ascending(ids) && i < |ids|
    ensures Collected(ids[..i + 1], matches, after)
            == Collected(ids[..i], matches, after) + if Past(ids[i], after) && matches(ids[i]) then [ids[i]] else []
  {
    hide Include;
    assert ids[..i + 1][..i] == ids[..i];
    CollectedSorts(ids[..i], matches, after);
    IncludeLast(Collected(ids[..i], matches, after), ids[i]);
  }

  lemma {:induction false} CollectedGrows(ids: seq<nat>, matches: nat -> bool, after: Option<nat>, i: nat)
    requires Ascending(ids) && i <= |ids|
    ensures Collected(ids[..i], matches, after) <= Collected(ids, matches, after)
    decreases |ids|
  {
    if i == |ids| {
      assert ids[..i] == ids;
    } else {
      hide Collected;
      var last := |ids| - 1;
      CollectedGrows(ids[..last], matches, after, i);
      assert ids[..last][..i] == ids[..i];
      CollectedStep(ids, matches, after, last);
      assert ids[..last + 1] == ids;
    }
  }

  // ---------------------------------------------------------------- walking the pages

  /** The part of a sorted list after a cursor. */
  function AfterCursor(full: seq<nat>, after: Option<nat>): seq<nat> {
    if full == [] || Past(full[0], after) then full else AfterCursor(full[1..], after)
  }

  lemma {:induction false} AfterCursorSorts(full: seq<nat>, after: Option<nat>)
    requires Ascending(full)
    ensures Ascending(AfterCursor(full, after))
    ensures forall x :: x in AfterCursor(full, after) <==> x in full && Past(x, after)
  {
    if full != [] && !Past(full[0], after) {
      AfterCursorSorts(full[1..], after);
      assert full == [full[0]] + full[1..];
    }
  }

  /** A page after any cursor is a page of the one sorted list of matches. */
  lemma CursorSplits(scan: seq<nat>, allowed: nat -> bool, after: Option<nat>)
    ensures Collected(scan, allowed, after) == AfterCursor(Collected(scan, allowed, None), after)
  {
    var full := Collected(scan, allowed, None);
    CollectedSorts(scan, allowed, None);
    CollectedSorts(scan, allowed, after);
    AfterCursorSorts(full, after);
    AscendingUnique(Collected(scan, allowed, after), AfterCursor(full, after));
  }

  lemma {:induction false} AfterLast(full: seq<nat>, i: nat)
    requires Ascending(full) && i < |full|
    ensures AfterCursor(full, Some(full[i])) == full[i + 1..]
  {
    if i > 0 {
      AfterLast(full[1..], i - 1);
      assert full[0] < full[i];
    } else if |full| > 1 {
      assert full[0] < full[1];
    }
  }

  lemma {:induction false} AfterTwice(full: seq<nat>, after: Option<nat>, next: nat)
    requires Ascending(full) && Past(next, after)
    ensures AfterCursor(full, Some(next)) == AfterCursor(AfterCursor(full, after), Some(next))
  {
    if full != [] && !Past(full[0], after) {
      AfterTwice(full[1..], after, next);
    }
  }

  /** The pages a client receives by following each page's last name. */
  ghost function Walk(full: seq<nat>, after: Option<nat>, size: nat): seq<Page>
    requires Ascending(full) && size > 0
    decreases |AfterCursor(full, after)|
  {
    var rest := AfterCursor(full, after);
    var page := PageOf(rest, size);
    if page.complete then [page]
    else
      StepsOn(full, after, size);
      [page] + Walk(full, page.last, size)
  }

  lemma StepsOn(full: seq<nat>, after: Option<nat>, size: nat)
    requires Ascending(full) && size > 0 && |AfterCursor(full, after)| > size
    ensures var page := PageOf(AfterCursor(full, after), size);
      page.last.Some? && AfterCursor(full, page.last) == AfterCursor(full, after)[size..]
  {
    var rest := AfterCursor(full, after);
    AfterCursorSorts(full, after);
    var last := rest[size - 1];
    assert last in rest;
    AfterTwice(full, after, last);
    AfterLast(rest, size - 1);
  }

  function Join(pages: seq<Page>): seq<nat> {
    if pages == [] then [] else pages[0].rows + Join(pages[1..])
  }

  /** The pages concatenate to the sorted list of matches, each once, and only the last
      page says it is complete. */
  lemma {:induction false} PagesAreExact(full: seq<nat>, after: Option<nat>, size: nat)
    requires Ascending(full) && size > 0
    ensures var pages := Walk(full, after, size);
      && Join(pages) == AfterCursor(full, after) && pages != []
      && forall i :: 0 <= i < |pages| ==> (pages[i].complete <==> i == |pages| - 1) && |pages[i].rows| <= size
    decreases |AfterCursor(full, after)|
  {
    var rest := AfterCursor(full, after);
    var page := PageOf(rest, size);
    var pages := Walk(full, after, size);
    if page.complete {
      assert Join(pages) == page.rows + Join(pages[1..]);
    } else {
      StepsOn(full, after, size);
      PagesAreExact(full, page.last, size);
      assert pages[1..] == Walk(full, page.last, size);
      assert rest == rest[..size] + rest[size..];
    }
  }

  /** Any scan of the same names pages the same list. */
  lemma SameNames(scan: seq<nat>, other: seq<nat>, allowed: nat -> bool, after: Option<nat>)
    requires forall x :: x in other <==> x in scan
    ensures Collected(other, allowed, after) == AfterCursor(Collected(scan, allowed, None), after)
  {
    hide Collected, AfterCursor;
    CursorSplits(scan, allowed, after);
    CollectedSorts(scan, allowed, after);
    CollectedSorts(other, allowed, after);
    AscendingUnique(Collected(scan, allowed, after), Collected(other, allowed, after));
  }

  /** What one page leaves to be read. */
  lemma PageSplits(rest: seq<nat>, size: nat)
    ensures var page := PageOf(rest, size);
      rest == page.rows + if page.complete then [] else rest[size..]
  {
  }

  lemma FromStart(full: seq<nat>)
    ensures AfterCursor(full, None) == full
  {
  }

  /** Follow the catalog from the first page to the one that says it is complete, the maps
      being scanned in another order for every page. */
  method FollowCatalog(scan: seq<nat>, orders: nat -> seq<nat>, allowed: nat -> bool, size: nat)
    returns (rows: seq<nat>, pages: nat)
    requires size > 0 && forall i: nat, x: nat :: x in orders(i) <==> x in scan
    ensures rows == Collected(scan, allowed, None) && Ascending(rows) && pages == |Walk(rows, None, size)|
  {
    hide Collected, AfterCursor, PageOf, Past;
    ghost var full := Collected(scan, allowed, None);
    CollectedSorts(scan, allowed, None);
    FromStart(full);
    rows, pages := [], 0;
    var after: Option<nat> := None;
    while true
      invariant rows + AfterCursor(full, after) == full
      invariant |Walk(full, None, size)| == pages + |Walk(full, after, size)|
      decreases |AfterCursor(full, after)|
    {
      ghost var rest := AfterCursor(full, after);
      SameNames(scan, orders(pages), allowed, after);
      var page := CatalogPage(orders(pages), allowed, after, size);
      PageSplits(rest, size);
      PageShape(rest, size);
      rows, pages := rows + page.rows, pages + 1;
      if page.complete {
        return;
      }
      StepsOn(full, after, size);
      after := page.last;
    }
  }

  /** Follow the matching entities likewise. */
  method FollowEntities(ids: seq<nat>, matches: nat -> bool, size: nat) returns (rows: seq<nat>, pages: nat)
    requires size > 0 && Ascending(ids)
    ensures rows == Collected(ids, matches, None) && Ascending(rows) && pages == |Walk(rows, None, size)|
  {
    hide Collected, AfterCursor, PageOf, Past;
    ghost var full := Collected(ids, matches, None);
    CollectedSorts(ids, matches, None);
    FromStart(full);
    rows, pages := [], 0;
    var after: Option<nat> := None;
    while true
      invariant rows + AfterCursor(full, after) == full
      invariant |Walk(full, None, size)| == pages + |Walk(full, after, size)|
      decreases |AfterCursor(full, after)|
    {
      ghost var rest := AfterCursor(full, after);
      CursorSplits(ids, matches, after);
      var page := EntityPage(ids, matches, after, size);
      PageSplits(rest, size);
      PageShape(rest, size);
      rows, pages := rows + page.rows, pages + 1;
      if page.complete {
        return;
      }
      StepsOn(full, after, size);
      after := page.last;
    }
  }

  lemma PageShape(rest: seq<nat>, size: nat)
    ensures PageOf(rest, size).complete <==> |rest| <= size
  {
  }
}
