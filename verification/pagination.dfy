/**
 Keyset pagination: the conversation list, ordered by last message with the conversations
 that have none at the end, and the administrators' lists, ordered by creation time.
 */
module Pagination {
  import opened Prelude

  /** A document's place in its list; ids are compared by their place in the string order. */
  datatype Key = Key(at: Option<int>, id: int)
  datatype Document = Document(key: Key, orgId: int, userId: int)
  datatype Listing = Conversations | AdminList

  /** Descending, so a missing time, the smallest value, comes last; ties by id, descending. */
  predicate KeyBefore(a: Key, b: Key) {
    if a.at.Some? && b.at.Some? then a.at.value > b.at.value || (a.at == b.at && a.id > b.id)
    else if a.at.None? && b.at.None? then a.id > b.id
    else a.at.Some?
  }

  predicate Before(a: Document, b: Document) { KeyBefore(a.key, b.key) }

  /** The filter for the documents after a cursor; comparing times never matches a missing one. */
  predicate Admits(listing: Listing, cursor: Option<Key>, d: Document) {
    if cursor.None? then true
    else
      var c := cursor.value;
      if listing.Conversations? && c.at.None? then
        d.key.at.None? && d.key.id < c.id
      else
        || (d.key.at.Some? && c.at.Some? && d.key.at.value < c.at.value)
        || (d.key.at == c.at && d.key.id < c.id)
        || (listing.Conversations? && d.key.at.None?)
  }

  function Filter(s: seq<Document>, p: Document -> bool): seq<Document> {
    if s == [] then [] else (if p(s[0]) then [s[0]] else []) + Filter(s[1..], p)
  }

  /** Everything the query finds past the cursor, in list order. */
  function Rest(store: seq<Document>, selects: Document -> bool, listing: Listing, cursor: Option<Key>): seq<Document> {
    Sort(Filter(store, d => selects(d) && Admits(listing, cursor, d)), Before)
  }

  function Query(store: seq<Document>, selects: Document -> bool, listing: Listing, cursor: Option<Key>,
                 limit: nat): seq<Document> {
    var all := Rest(store, selects, listing, cursor);
    if |all| <= limit + 1 then all else all[..limit + 1]
  }

  datatype Page = Page(items: seq<Document>, nextCursor: Option<Key>)

  /** One page: a document too many shows that there is another page, after the last item kept. */
  function ListPage(store: seq<Document>, selects: Document -> bool, listing: Listing, cursor: Option<Key>,
                    limit: nat): Page {
    var documents := Query(store, selects, listing, cursor, limit);
    var hasMore := |documents| > limit;
    var items := if hasMore then documents[..limit] else documents;
    Page(items, if hasMore && items != [] then Some(items[|items| - 1].key) else None)
  }

  // ---------------------------------------------------------------------
  // What a cursor stands for
  // ---------------------------------------------------------------------

  /** The store's unique index on the id, and the creation time that every administered document has. */
  ghost predicate Indexed(store: seq<Document>, listing: Listing) {
    && (forall i, j :: 0 <= i < j < |store| ==> store[i].key.id != store[j].key.id)
    && (listing.AdminList? ==> forall d :: d in store ==> d.key.at.Some?)
  }

  predicate CursorFits(listing: Listing, cursor: Option<Key>) {
    listing.AdminList? && cursor.Some? ==> cursor.value.at.Some?
  }

  /** The three-way filter says exactly "after the cursor in list order". */
  lemma AdmitsIsAfter(listing: Listing, c: Key, d: Document)
    requires CursorFits(listing, Some(c)) && (listing.AdminList? ==> d.key.at.Some?)
    ensures Admits(listing, Some(c), d) <==> KeyBefore(c, d.key)
  {
  }

  lemma {:induction false} FilterOk(s: seq<Document>, p: Document -> bool)
    requires forall i, j :: 0 <= i < j < |s| ==> s[i].key.id != s[j].key.id
    ensures forall d :: d in Filter(s, p) <==> d in s && p(d)
    ensures forall i, j :: 0 <= i < j < |Filter(s, p)| ==> Filter(s, p)[i].key.id != Filter(s, p)[j].key.id
  {
    if s != [] {
      FilterOk(s[1..], p);
      assert s == [s[0]] + s[1..];
      var r := Filter(s[1..], p);
      forall j | 0 <= j < |r| ensures r[j].key.id != s[0].key.id {
        assert r[j] in s[1..];
      }
    }
  }

  lemma RestOk(store: seq<Document>, selects: Document -> bool, listing: Listing, cursor: Option<Key>)
    requires Indexed(store, listing)
    ensures var r := Rest(store, selects, listing, cursor);
            && Strictly(r, Before)
            && forall d :: d in r <==> d in store && selects(d) && Admits(listing, cursor, d)
  {
    var p := d => selects(d) && Admits(listing, cursor, d);
    var f := Filter(store, p);
    FilterOk(store, p);
    assert StrictWeakOrder(Before);
    SortStrictly(f, Before);
    SortPermutes(f, Before);
    forall d ensures d in Sort(f, Before) <==> d in f {
      assert d in Sort(f, Before) <==> d in multiset(Sort(f, Before));
      assert d in f <==> d in multiset(f);
    }
  }

  /** In a strictly sorted list, what follows the k-th element is what comes after it. */
  lemma SuffixIsAfter(s: seq<Document>, k: nat, d: Document)
    requires Strictly(s, Before) && k < |s|
    ensures d in s[k + 1..] <==> d in s && Before(s[k], d)
  {
    if d in s {
      var i :| 0 <= i < |s| && s[i] == d;
      if i > k { assert d == s[k + 1..][i - k - 1]; } else { assert i < k ==> Before(s[i], s[k]); }
    }
    if d in s[k + 1..] {
      var i :| 0 <= i < |s| - k - 1 && s[k + 1..][i] == d;
      assert s[k + 1 + i] == d;
    }
  }

  /** The documents past the cursor of the k-th item are the ones listed after it: none skipped, none repeated.
      The starting cursor may be any key, even one whose document is gone. */
  lemma RestAfter(store: seq<Document>, selects: Document -> bool, listing: Listing, cursor: Option<Key>, k: nat)
    requires Indexed(store, listing) && CursorFits(listing, cursor) && k < |Rest(store, selects, listing, cursor)|
    ensures var r := Rest(store, selects, listing, cursor);
            CursorFits(listing, Some(r[k].key)) && Rest(store, selects, listing, Some(r[k].key)) == r[k + 1..]
  {
    var r := Rest(store, selects, listing, cursor);
    RestOk(store, selects, listing, cursor);
    assert r[k] in r;
    RestOk(store, selects, listing, Some(r[k].key));
    var t := Rest(store, selects, listing, Some(r[k].key));
    forall d ensures d in t <==> d in r[k + 1..] {
      SuffixIsAfter(r, k, d);
      if d in store {
        AdmitsIsAfter(listing, r[k].key, d);
        if cursor.Some? {
          AdmitsIsAfter(listing, cursor.value, d);
          AdmitsIsAfter(listing, cursor.value, r[k]);
        }
      }
    }
    assert StrictWeakOrder(Before);
    StrictlySortedIsUnique(t, r[k + 1..], Before);
  }

  /** One page takes the next `limit` documents and leaves a cursor for exactly the others. */
  lemma PageTakes(store: seq<Document>, selects: Document -> bool, listing: Listing, cursor: Option<Key>, limit: nat)
    requires Indexed(store, listing) && CursorFits(listing, cursor) && limit >= 1
    ensures var r, page := Rest(store, selects, listing, cursor), ListPage(store, selects, listing, cursor, limit);
            && (page.nextCursor.None? <==> |r| <= limit)
            && (|r| <= limit ==> page.items == r)
            && (|r| > limit ==> page.items == r[..limit] && CursorFits(listing, page.nextCursor)
                                && Rest(store, selects, listing, page.nextCursor) == r[limit..])
  {
    var r := Rest(store, selects, listing, cursor);
    if |r| > limit {
      RestAfter(store, selects, listing, cursor, limit - 1);
      assert ListPage(store, selects, listing, cursor, limit).items == r[..limit];
    }
  }

  // ---------------------------------------------------------------------
  // Following the cursors
  // ---------------------------------------------------------------------

  /** All pages from a cursor on; that this is a function at all says that following cursors ends. */
  ghost function Follow(store: seq<Document>, selects: Document -> bool, listing: Listing, cursor: Option<Key>,
                        limit: nat): seq<Page>
    requires Indexed(store, listing) && CursorFits(listing, cursor) && limit >= 1
    decreases |Rest(store, selects, listing, cursor)|
  {
    var page := ListPage(store, selects, listing, cursor, limit);
    PageTakes(store, selects, listing, cursor, limit);
    if page.nextCursor.None? then [page] else [page] + Follow(store, selects, listing, page.nextCursor, limit)
  }

  function Items(pages: seq<Page>): seq<Document> {
    if pages == [] then [] else pages[0].items + Items(pages[1..])
  }

  /** The pages together are the list, every page but the last is full, and the last is empty only for an empty list. */
  predicate Covers(pages: seq<Page>, list: seq<Document>, limit: nat) {
    && pages != [] && Items(pages) == list
    && (forall i :: 0 <= i < |pages| - 1 ==> |pages[i].items| == limit)
    && (list != [] ==> pages[|pages| - 1].items != [])
  }

  lemma {:induction false} LastPageCovers(page: Page, limit: nat)
    ensures Covers([page], page.items, limit)
  {
    assert Items([page]) == page.items + Items([]);
  }

  lemma {:induction false} FullPageCovers(page: Page, more: seq<Page>, list: seq<Document>, limit: nat)
    requires 1 <= limit < |list| && page.items == list[..limit] && Covers(more, list[limit..], limit)
    ensures Covers([page] + more, list, limit)
  {
    var pages := [page] + more;
    assert pages[1..] == more;
    assert list == list[..limit] + list[limit..];
    assert forall i :: 0 < i < |pages| ==> pages[i] == more[i - 1];
  }

  /** Following cursors from any key on, the pages make up exactly the rest of the list. */
  lemma {:induction false} PagesMakeTheList(store: seq<Document>, selects: Document -> bool, listing: Listing,
                                            cursor: Option<Key>, limit: nat)
    requires Indexed(store, listing) && CursorFits(listing, cursor) && limit >= 1
    ensures Covers(Follow(store, selects, listing, cursor, limit), Rest(store, selects, listing, cursor), limit)
    decreases |Rest(store, selects, listing, cursor)|
  {
    var page, r := ListPage(store, selects, listing, cursor, limit), Rest(store, selects, listing, cursor);
    PageTakes(store, selects, listing, cursor, limit);
    if page.nextCursor.None? {
      LastPageCovers(page, limit);
    } else {
      PagesMakeTheList(store, selects, listing, page.nextCursor, limit);
      FullPageCovers(page, Follow(store, selects, listing, page.nextCursor, limit), r, limit);
    }
  }

  /** From the start: every selected document exactly once, in list order. */
  lemma {:induction false} WholeListOnce(store: seq<Document>, selects: Document -> bool, listing: Listing, limit: nat)
    requires Indexed(store, listing) && limit >= 1
    ensures var items := Items(Follow(store, selects, listing, None, limit));
            && Strictly(items, Before)
            && forall d :: d in items <==> d in store && selects(d)
  {
    PagesMakeTheList(store, selects, listing, None, limit);
    RestOk(store, selects, listing, None);
  }

  // ---------------------------------------------------------------------
  // Walking a list that changes
  // ---------------------------------------------------------------------

  /** The first n pages at most, when `pager(k, c)` is what the k-th query answers for cursor c. */
  function Walk(pager: (nat, Option<Key>) -> Page, cursor: Option<Key>, k: nat, n: nat): seq<Page>
    decreases n
  {
    if n == 0 then []
    else if pager(k, cursor).nextCursor.None? then [pager(k, cursor)]
    else [pager(k, cursor)] + Walk(pager, pager(k, cursor).nextCursor, k + 1, n - 1)
  }

  /** The pager over a store that changes: the k-th query sees `stores(k)`. */
  function PagerOver(stores: nat -> seq<Document>, selects: Document -> bool, listing: Listing, limit: nat)
    : (nat, Option<Key>) -> Page
  {
    (k: nat, cursor: Option<Key>) => ListPage(stores(k), selects, listing, cursor, limit)
  }

  /** Followed to the end. */
  predicate Finished(pages: seq<Page>) { pages != [] && pages[|pages| - 1].nextCursor.None? }

  ghost predicate AllIndexed(stores: nat -> seq<Document>, listing: Listing) {
    forall k: nat :: Indexed(stores(k), listing)
  }

  /** Selected and unchanged in every store that the walk looks at. */
  ghost predicate Persists(stores: nat -> seq<Document>, selects: Document -> bool, d: Document, k: nat, n: nat) {
    selects(d) && forall i: nat :: k <= i < k + n ==> d in stores(i)
  }

  /** One page of a store: its items in order, and the place of the cursor it leaves. */
  lemma PageIsOrdered(store: seq<Document>, selects: Document -> bool, listing: Listing, cursor: Option<Key>,
                      limit: nat)
    requires Indexed(store, listing) && CursorFits(listing, cursor) && limit >= 1
    ensures var page := ListPage(store, selects, listing, cursor, limit);
            && Strictly(page.items, Before) && CursorFits(listing, page.nextCursor)
            && (page.nextCursor.Some? ==> page.items != [] && page.nextCursor.value == page.items[|page.items| - 1].key)
  {
    RestOk(store, selects, listing, cursor);
    PageTakes(store, selects, listing, cursor, limit);
  }

  /** Its items are selected documents past the cursor, up to the cursor it leaves. */
  lemma PageItemIsStored(store: seq<Document>, selects: Document -> bool, listing: Listing, cursor: Option<Key>,
                         limit: nat, d: Document)
    requires Indexed(store, listing) && CursorFits(listing, cursor) && limit >= 1
    requires d in ListPage(store, selects, listing, cursor, limit).items
    ensures d in store && selects(d) && Admits(listing, cursor, d)
  {
    RestOk(store, selects, listing, cursor);
    PageTakes(store, selects, listing, cursor, limit);
    assert d in Rest(store, selects, listing, cursor) by {
      assert ListPage(store, selects, listing, cursor, limit).items <= Rest(store, selects, listing, cursor);
    }
  }

  lemma PageItem(store: seq<Document>, selects: Document -> bool, listing: Listing, cursor: Option<Key>, limit: nat,
                 d: Document)
    requires Indexed(store, listing) && CursorFits(listing, cursor) && limit >= 1
    requires d in ListPage(store, selects, listing, cursor, limit).items
    ensures var next := ListPage(store, selects, listing, cursor, limit).nextCursor;
            && d in store && selects(d) && Admits(listing, cursor, d)
            && (next.Some? ==> d.key == next.value || KeyBefore(d.key, next.value))
  {
    var page := ListPage(store, selects, listing, cursor, limit);
    PageItemIsStored(store, selects, listing, cursor, limit, d);
    PageIsOrdered(store, selects, listing, cursor, limit);
    var i :| 0 <= i < |page.items| && page.items[i] == d;
    assert i < |page.items| - 1 ==> Before(page.items[i], page.items[|page.items| - 1]);
  }

  /** A selected document past the cursor is on the page or past the cursor it leaves. */
  lemma PageLeaves(store: seq<Document>, selects: Document -> bool, listing: Listing, cursor: Option<Key>, limit: nat,
                   d: Document)
    requires Indexed(store, listing) && CursorFits(listing, cursor) && limit >= 1
    requires d in store && selects(d) && Admits(listing, cursor, d)
    ensures var page := ListPage(store, selects, listing, cursor, limit);
            d in page.items || (page.nextCursor.Some? && Admits(listing, page.nextCursor, d))
  {
    var r, page := Rest(store, selects, listing, cursor), ListPage(store, selects, listing, cursor, limit);
    RestOk(store, selects, listing, cursor);
    PageTakes(store, selects, listing, cursor, limit);
    if |r| > limit && d !in page.items {
      RestOk(store, selects, listing, page.nextCursor);
      assert r == r[..limit] + r[limit..];
      assert d in r[limit..];
    }
  }

  lemma NextCursorIsBehind(store: seq<Document>, selects: Document -> bool, listing: Listing, c: Key, limit: nat)
    requires Indexed(store, listing) && CursorFits(listing, Some(c)) && limit >= 1
    requires ListPage(store, selects, listing, Some(c), limit).nextCursor.Some?
    ensures KeyBefore(c, ListPage(store, selects, listing, Some(c), limit).nextCursor.value)
  {
    var page := ListPage(store, selects, listing, Some(c), limit);
    PageIsOrdered(store, selects, listing, Some(c), limit);
    var last := page.items[|page.items| - 1];
    PageItem(store, selects, listing, Some(c), limit, last);
    AdmitsIsAfter(listing, c, last);
  }

  /** What every page of the source is, whatever store it was read from. */
  ghost predicate GoodPage(store: seq<Document>, selects: Document -> bool, listing: Listing, cursor: Option<Key>,
                           page: Page) {
    var next := page.nextCursor;
    && Strictly(page.items, Before) && CursorFits(listing, next)
    && (forall d :: d in page.items ==> d in store && selects(d) && IsBehind(cursor, d))
    && (forall d :: d in page.items && next.Some? ==> d.key == next.value || KeyBefore(d.key, next.value))
    && (forall d :: d in store && selects(d) && IsBehind(cursor, d) ==>
           d in page.items || (next.Some? && IsBehind(next, d)))
    && (next.Some? && cursor.Some? ==> KeyBefore(cursor.value, next.value))
  }

  predicate IsBehind(cursor: Option<Key>, d: Document) { cursor.None? || KeyBefore(cursor.value, d.key) }

  lemma ListPageIsGood(store: seq<Document>, selects: Document -> bool, listing: Listing, cursor: Option<Key>,
                       limit: nat)
    requires Indexed(store, listing) && CursorFits(listing, cursor) && limit >= 1
    ensures GoodPage(store, selects, listing, cursor, ListPage(store, selects, listing, cursor, limit))
  {
    var page := ListPage(store, selects, listing, cursor, limit);
    PageIsOrdered(store, selects, listing, cursor, limit);
    forall d | d in store ensures Admits(listing, cursor, d) <==> IsBehind(cursor, d) {
      if cursor.Some? { AdmitsIsAfter(listing, cursor.value, d); }
    }
    forall d | d in store && page.nextCursor.Some?
      ensures Admits(listing, page.nextCursor, d) <==> IsBehind(page.nextCursor, d)
    {
      AdmitsIsAfter(listing, page.nextCursor.value, d);
    }
    forall d | d in page.items
      ensures d in store && selects(d) && IsBehind(cursor, d)
      ensures page.nextCursor.Some? ==> d.key == page.nextCursor.value || KeyBefore(d.key, page.nextCursor.value)
    {
      PageItem(store, selects, listing, cursor, limit, d);
    }
    forall d | d in store && selects(d) && IsBehind(cursor, d)
      ensures d in page.items || (page.nextCursor.Some? && IsBehind(page.nextCursor, d))
    {
      PageLeaves(store, selects, listing, cursor, limit, d);
    }
    if page.nextCursor.Some? && cursor.Some? { NextCursorIsBehind(store, selects, listing, cursor.value, limit); }
  }

  /** Each page continues at the cursor of the one before, over the store of its own time. */
  ghost predicate IsWalk(stores: nat -> seq<Document>, selects: Document -> bool, listing: Listing, cursor: Option<Key>,
                         pages: seq<Page>, k: nat)
    decreases |pages|
  {
    pages == [] || (
      && GoodPage(stores(k), selects, listing, cursor, pages[0])
      && if pages[0].nextCursor.None? then |pages| == 1
         else IsWalk(stores, selects, listing, pages[0].nextCursor, pages[1..], k + 1))
  }

  ghost predicate GoodPager(pager: (nat, Option<Key>) -> Page, stores: nat -> seq<Document>,
                            selects: Document -> bool, listing: Listing) {
    forall k: nat, cursor :: CursorFits(listing, cursor) ==>
      GoodPage(stores(k), selects, listing, cursor, pager(k, cursor))
  }

  lemma {:induction false} WalkIsWalk(pager: (nat, Option<Key>) -> Page, stores: nat -> seq<Document>,
                                      selects: Document -> bool, listing: Listing, cursor: Option<Key>, k: nat, n: nat)
    requires GoodPager(pager, stores, selects, listing) && CursorFits(listing, cursor)
    ensures IsWalk(stores, selects, listing, cursor, Walk(pager, cursor, k, n), k)
    decreases n
  {
    if n > 0 {
      var page, pages := pager(k, cursor), Walk(pager, cursor, k, n);
      assert GoodPage(stores(k), selects, listing, cursor, page);
      if page.nextCursor.Some? {
        WalkIsWalk(pager, stores, selects, listing, page.nextCursor, k + 1, n - 1);
        assert pages[1..] == Walk(pager, page.nextCursor, k + 1, n - 1);
      }
    }
  }

  /** Whatever is listed is a selected document that some query saw, behind the cursor the walk started from. */
  lemma {:induction false} WalkListsStored(stores: nat -> seq<Document>, selects: Document -> bool, listing: Listing,
                                           cursor: Option<Key>, pages: seq<Page>, k: nat, d: Document)
    requires IsWalk(stores, selects, listing, cursor, pages, k) && d in Items(pages)
    ensures selects(d) && IsBehind(cursor, d) && exists i: nat :: k <= i < k + |pages| && d in stores(i)
    decreases |pages|
  {
    if d !in pages[0].items {
      assert d in Items(pages[1..]);
      WalkListsStored(stores, selects, listing, pages[0].nextCursor, pages[1..], k + 1, d);
    }
  }

  lemma StrictlyConcat(a: seq<Document>, b: seq<Document>)
    requires Strictly(a, Before) && Strictly(b, Before) && forall x, y :: x in a && y in b ==> Before(x, y)
    ensures Strictly(a + b, Before)
  {
    var all := a + b;
    forall i, j | 0 <= i < j < |all| ensures Before(all[i], all[j]) {
      if i < |a| <= j { assert all[i] in a && all[j] in b; }
    }
  }

  /** While the list changes under the walk, keys still come in strictly descending order: none is listed twice. */
  lemma {:induction false} WalkNeverRepeats(stores: nat -> seq<Document>, selects: Document -> bool, listing: Listing,
                                            cursor: Option<Key>, pages: seq<Page>, k: nat)
    requires IsWalk(stores, selects, listing, cursor, pages, k)
    ensures Strictly(Items(pages), Before)
    decreases |pages|
  {
    if pages != [] {
      var more := Items(pages[1..]);
      if pages[0].nextCursor.Some? {
        WalkNeverRepeats(stores, selects, listing, pages[0].nextCursor, pages[1..], k + 1);
        forall x, y | x in pages[0].items && y in more ensures Before(x, y) {
          WalkListsStored(stores, selects, listing, pages[0].nextCursor, pages[1..], k + 1, y);
        }
      } else {
        assert pages[1..] == [];
      }
      StrictlyConcat(pages[0].items, more);
    }
  }

  /** A finished walk misses no document that was there, unchanged, all along: writes that race with it can hide or
      show only the documents they touch. */
  lemma {:induction false} WalkMissesOnlyChanges(stores: nat -> seq<Document>, selects: Document -> bool,
                                                 listing: Listing, cursor: Option<Key>, pages: seq<Page>,
                                                 k: nat, d: Document)
    requires IsWalk(stores, selects, listing, cursor, pages, k) && Finished(pages)
    requires Persists(stores, selects, d, k, |pages|) && IsBehind(cursor, d)
    ensures d in Items(pages)
    decreases |pages|
  {
    if d !in pages[0].items {
      assert |pages| > 1;
      WalkMissesOnlyChanges(stores, selects, listing, pages[0].nextCursor, pages[1..], k + 1, d);
    }
  }

  /** A client that follows cursors while others write: what it is shown is in order and without repetition, was stored,
      and at the end contains every selected document that did not change meanwhile. */
  lemma {:induction false} RacingWalk(stores: nat -> seq<Document>, selects: Document -> bool, listing: Listing,
                                      limit: nat, n: nat, d: Document)
    requires AllIndexed(stores, listing) && limit >= 1
    ensures var pages := Walk(PagerOver(stores, selects, listing, limit), None, 0, n);
            && Strictly(Items(pages), Before)
            && (d in Items(pages) ==> selects(d) && exists i: nat :: i < |pages| && d in stores(i))
            && (Finished(pages) && Persists(stores, selects, d, 0, |pages|) ==> d in Items(pages))
  {
    var pager := PagerOver(stores, selects, listing, limit);
    var pages := Walk(pager, None, 0, n);
    PagerIsGood(stores, selects, listing, limit);
    WalkIsWalk(pager, stores, selects, listing, None, 0, n);
    WalkNeverRepeats(stores, selects, listing, None, pages, 0);
    if d in Items(pages) { WalkListsStored(stores, selects, listing, None, pages, 0, d); }
    if Finished(pages) && Persists(stores, selects, d, 0, |pages|) {
      WalkMissesOnlyChanges(stores, selects, listing, None, pages, 0, d);
    }
  }

  lemma PagerIsGood(stores: nat -> seq<Document>, selects: Document -> bool, listing: Listing, limit: nat)
    requires AllIndexed(stores, listing) && limit >= 1
    ensures GoodPager(PagerOver(stores, selects, listing, limit), stores, selects, listing)
  {
    var pager := PagerOver(stores, selects, listing, limit);
    forall k: nat, cursor | CursorFits(listing, cursor)
      ensures GoodPage(stores(k), selects, listing, cursor, pager(k, cursor))
    {
      ListPageIsGood(stores(k), selects, listing, cursor, limit);
    }
  }
}
