/** A user's orders page by page: the repository query, one page, and following the cursors. */
module Pagination {
  import opened FiniteSets
  import opened Runs
  import opened Orders
  import opened Timestamps
  import opened Cursors

  /** The fields of an order that paging reads. */
  datatype Item = Item(number: int, userId: int, status: Status, createdAt: Time)

  type Items = map<int, Item>

  ghost predicate Filed(items: Items) {
    forall n :: n in items ==> items[n].number == n && IsTime(items[n].createdAt)
  }

  // ----- The order of the list -----

  predicate Newer(a: Item, b: Item) {
    Rank(a.createdAt) > Rank(b.createdAt) || (a.createdAt == b.createdAt && a.number > b.number)
  }

  /** Equal ranks are equal times, so two orders with different numbers are always one before the other. */
  lemma NewerIsTotal(a: Item, b: Item)
    requires IsTime(a.createdAt) && IsTime(b.createdAt) && a.number != b.number
    ensures Newer(a, b) || Newer(b, a)
  {
    if Rank(a.createdAt) == Rank(b.createdAt) {
      RankInjective(a.createdAt, b.createdAt);
    }
  }

  /** The list is newest first in the calendar, and by number among orders of one time. */
  lemma NewerIsLater(a: Item, b: Item)
    requires IsTime(a.createdAt) && IsTime(b.createdAt)
    ensures Newer(a, b) <==> Earlier(b.createdAt, a.createdAt) || (a.createdAt == b.createdAt && a.number > b.number)
  {
    RankIsCalendar(b.createdAt, a.createdAt);
  }

  predicate Sorted(list: seq<Item>) {
    forall i, j :: 0 <= i < j < |list| ==> Newer(list[i], list[j])
  }

  ghost predicate Lists(list: seq<Item>, s: set<Item>) {
    Sorted(list) && forall x :: x in list <==> x in s
  }

  lemma FirstIsNewest(a: seq<Item>, s: set<Item>, x: Item)
    requires Lists(a, s) && x in s
    ensures a != [] && a[0] in s && (x == a[0] || Newer(a[0], x))
  {
    assert x in a;
    var i :| 0 <= i < |a| && a[i] == x;
    assert a[0] in s;
  }

  lemma EmptyLists(a: seq<Item>, s: set<Item>)
    requires Lists(a, s)
    ensures a == [] <==> s == {}
  {
    if a != [] {
      assert a[0] in s;
    }
  }

  /** A set has one sorted list. */
  lemma {:induction false} ListUnique(a: seq<Item>, b: seq<Item>, s: set<Item>)
    requires Lists(a, s) && Lists(b, s)
    ensures a == b
    decreases |a|
  {
    EmptyLists(a, s);
    EmptyLists(b, s);
    if a != [] {
      FirstIsNewest(a, s, b[0]);
      FirstIsNewest(b, s, a[0]);
      TailLists(a, s);
      TailLists(b, s);
      ListUnique(a[1..], b[1..], s - {a[0]});
      assert a == [a[0]] + a[1..] && b == [b[0]] + b[1..];
    }
  }

  lemma TailLists(a: seq<Item>, s: set<Item>)
    requires Lists(a, s) && a != []
    ensures Lists(a[1..], s - {a[0]})
  {
    forall x ensures x in a[1..] <==> x in s - {a[0]} {
      if x in a[1..] {
        var i :| 0 <= i < |a[1..]| && a[1..][i] == x;
        assert a[i + 1] == x && Newer(a[0], a[i + 1]);
      }
      if x in s - {a[0]} {
        assert x in a;
        var i :| 0 <= i < |a| && a[i] == x;
        assert a[1..][i - 1] == x;
      }
    }
  }

  // ----- The repository query -----

  predicate Matches(x: Item, user: int, status: Option<Status>) {
    x.userId == user && (status.None? || x.status == status.value)
  }

  /** Strictly after the cursor in the list; a cursor at the zero time is no cursor. */
  predicate After(x: Item, before: Cursor) {
    before.createdAt == ZERO_TIME || Rank(x.createdAt) < Rank(before.createdAt)
    || (x.createdAt == before.createdAt && x.number < before.number)
  }

  function Matching(items: Items, user: int, status: Option<Status>, before: Cursor): set<Item> {
    set n | n in items && Matches(items[n], user, status) && After(items[n], before) :: items[n]
  }

  function Inserted(list: seq<Item>, x: Item): seq<Item> {
    if list == [] then [x] else if Newer(x, list[0]) then [x] + list else [list[0]] + Inserted(list[1..], x)
  }

  lemma {:induction false} InsertLists(list: seq<Item>, s: set<Item>, x: Item)
    requires Lists(list, s) && forall y :: y in s ==> y.number != x.number && IsTime(y.createdAt)
    requires IsTime(x.createdAt)
    ensures Lists(Inserted(list, x), s + {x})
    decreases |list|
  {
    if list != [] && !Newer(x, list[0]) {
      TailLists(list, s);
      assert list[0] in s;
      NewerIsTotal(x, list[0]);
      InsertLists(list[1..], s - {list[0]}, x);
      var tail := Inserted(list[1..], x);
      assert s - {list[0]} + {x} == s + {x} - {list[0]};
      forall j | 0 <= j < |tail| ensures Newer(list[0], tail[j]) {
        assert tail[j] in s - {list[0]} + {x};
        if tail[j] != x {
          assert tail[j] in list;
          var i :| 0 <= i < |list| && list[i] == tail[j];
          assert Newer(list[0], list[i]);
        }
      }
    }
  }

  /** The sorted list of a finite set of items with different numbers, each at some time of the calendar. */
  ghost function Listing(s: set<Item>): seq<Item> {
    if s == {} then []
    else
      var x :| x in s;
      Inserted(Listing(s - {x}), x)
  }

  ghost predicate Numbered(s: set<Item>) {
    && (forall x :: x in s ==> IsTime(x.createdAt))
    && (forall x, y :: x in s && y in s && x.number == y.number ==> x == y)
  }

  lemma NumberedWithout(s: set<Item>, x: Item)
    requires Numbered(s) && x in s
    ensures Numbered(s - {x}) && IsTime(x.createdAt)
    ensures forall y :: y in s - {x} ==> y.number != x.number && IsTime(y.createdAt)
    ensures s - {x} + {x} == s
  {
  }

  lemma {:induction false} ListingLists(s: set<Item>)
    requires Numbered(s)
    ensures Lists(Listing(s), s)
    decreases s, 1
  {
    if s != {} {
      var x :| x in s && Listing(s) == Inserted(Listing(s - {x}), x);
      NumberedWithout(s, x);
      ListingOneMore(s, s - {x}, x);
    }
  }

  lemma {:induction false} ListingOneMore(s: set<Item>, rest: set<Item>, x: Item)
    requires x in s && rest == s - {x} && rest + {x} == s && Numbered(rest) && IsTime(x.createdAt)
    requires forall y :: y in rest ==> y.number != x.number && IsTime(y.createdAt)
    ensures Lists(Inserted(Listing(rest), x), s)
    decreases s, 0
  {
    ListingLists(rest);
    InsertLists(Listing(rest), rest, x);
  }

  function Take(list: seq<Item>, limit: int): seq<Item> {
    if limit < 0 then [] else if |list| > limit then list[..limit] else list
  }

  lemma MatchingNumbered(items: Items, user: int, status: Option<Status>, before: Cursor)
    requires Filed(items)
    ensures Numbered(Matching(items, user, status, before))
  {
  }

  /** Filter, sort, cut. */
  method ListByUserIDPage(items: Items, user: int, status: Option<Status>, before: Cursor, limit: nat)
    returns (page: seq<Item>)
    requires Filed(items)
    ensures page == Take(Listing(Matching(items, user, status, before)), limit)
  {
    ghost var all := Matching(items, user, status, before);
    var result: seq<Item> := [];
    var todo := items.Keys;
    ghost var done: set<Item> := {};
    while todo != {}
      invariant todo <= items.Keys
      invariant forall x :: x in done <==> x in all && x.number !in todo
      invariant Lists(result, done)
      decreases todo
    {
      var n := PickOne(todo);
      var x := items[n];
      if x.userId == user && (status.None? || x.status == status.value) && After(x, before) {
        InsertLists(result, done, x);
        result := Inserted(result, x);
        done := done + {x};
      }
      todo := todo - {n};
    }
    MatchingNumbered(items, user, status, before);
    ListingLists(all);
    assert Lists(result, all);
    ListUnique(result, Listing(all), all);
    page := if |result| > limit then result[..limit] else result;
  }

  // ----- One page -----

  /** A way to write cursors as text. */
  datatype Codec = Codec(encode: Cursor -> string, decode: string -> Option<Cursor>)

  const BASE64_JSON := Codec(c => Encode(c), s => Decode(s))

  ghost predicate Faithful(k: Codec) {
    && k.decode("") == Some(START)
    && forall c: Cursor :: IsTime(c.createdAt) ==>
         k.encode(c) != "" && k.decode(k.encode(c)) == if 0 < c.number < 0x8000_0000_0000_0000 then Some(c) else None
  }

  lemma RealIsFaithful()
    ensures Faithful(BASE64_JSON)
  {
    forall c: Cursor | IsTime(c.createdAt)
      ensures Encode(c) != "" && Decode(Encode(c)) == if 0 < c.number < 0x8000_0000_0000_0000 then Some(c) else None
    {
      DecodeEncode(c);
    }
  }

  datatype Page = Page(items: seq<Item>, next: string)

  function Normal(limit: int): (l: nat)
    ensures 1 <= l <= 100
  {
    if limit <= 0 then 20 else if limit > 100 then 100 else limit
  }

  function CursorOf(x: Item): Cursor {
    Cursor(x.createdAt, x.number)
  }

  function PageOf(k: Codec, found: seq<Item>, l: nat): Page
    requires l > 0
  {
    if |found| > l then Page(found[..l], k.encode(CursorOf(found[l - 1]))) else Page(found, "")
  }

  /** None stands for an invalid argument. One item more than the page tells whether there is a next one. */
  ghost function ListPage(k: Codec, items: Items, user: int, status: Option<Status>, cursor: string,
                          limit: int): Option<Page> {
    if user <= 0 then None
    else
      match k.decode(cursor)
      case None => None
      case Some(before) =>
        Some(PageOf(k, Take(Listing(Matching(items, user, status, before)), Normal(limit) + 1), Normal(limit)))
  }

  /** An order of the user, of the status if one is asked for, and after the cursor if there is one. */
  predicate OnPage(items: Items, user: int, status: Option<Status>, before: Cursor, x: Item) {
    && x.number in items && items[x.number] == x && x.userId == user && (status.Some? ==> x.status == status.value)
    && (before.createdAt != ZERO_TIME ==>
          Rank(x.createdAt) < Rank(before.createdAt) || (x.createdAt == before.createdAt && x.number < before.number))
  }

  /** Such orders, newest first. */
  predicate IsPageOf(items: Items, user: int, status: Option<Status>, before: Cursor, page: seq<Item>) {
    Sorted(page) && forall i :: 0 <= i < |page| ==> OnPage(items, user, status, before, page[i])
  }

  lemma ListedIsOnPage(items: Items, user: int, status: Option<Status>, before: Cursor)
    requires Filed(items)
    ensures Sorted(Listing(Matching(items, user, status, before)))
    ensures forall x :: x in Listing(Matching(items, user, status, before)) <==> OnPage(items, user, status, before, x)
  {
    MatchingNumbered(items, user, status, before);
    ListingLists(Matching(items, user, status, before));
  }

  method QueryPage(k: Codec, items: Items, user: int, status: Option<Status>, cursor: string, limit: int)
    returns (r: Option<Page>)
    requires Filed(items)
    ensures r == ListPage(k, items, user, status, cursor, limit)
    ensures r == None <==> user <= 0 || k.decode(cursor) == None
    ensures r.Some? ==> IsPageOf(items, user, status, k.decode(cursor).value, r.value.items)
    ensures r.Some? ==> var l := if limit <= 0 then 20 else if limit > 100 then 100 else limit;
                        && |r.value.items| <= l && (r.value.next != "" ==> |r.value.items| == l)
                        && (|r.value.items| < l ==>
                              forall x :: OnPage(items, user, status, k.decode(cursor).value, x) ==> x in r.value.items)
  {
    if user <= 0 { return None; }
    var l := if limit <= 0 then 20 else limit;
    l := if l > 100 then 100 else l;
    var before := k.decode(cursor);
    if before == None { return None; }
    var found := ListByUserIDPage(items, user, status, before.value, l + 1);
    var page := Page(found, "");
    if |found| > l {
      page := Page(found[..l], k.encode(CursorOf(found[l - 1])));
    }
    assert page == PageOf(k, found, l);
    ListedIsOnPage(items, user, status, before.value);
    return Some(page);
  }

  // ----- Following the cursors -----

  /** The concatenated pages, if an empty cursor comes within `n` pages and no page is an error. */
  function Walk(pager: string -> Option<Page>, cursor: string, n: nat): Option<seq<Item>>
    decreases n
  {
    if n == 0 then None
    else
      match pager(cursor)
      case None => None
      case Some(page) =>
        if page.next == "" then Some(page.items)
        else
          match Walk(pager, page.next, n - 1)
          case None => None
          case Some(rest) => Some(page.items + rest)
  }

  /** All matching orders. */
  ghost function All(items: Items, user: int, status: Option<Status>): seq<Item> {
    Listing(Matching(items, user, status, START))
  }

  /** A cursor at this item is accepted and means this item. */
  predicate Usable(x: Item) {
    0 < x.number < 0x8000_0000_0000_0000 && x.createdAt != ZERO_TIME
  }

  /** Every page but the last ends in a usable item. */
  predicate PagesEndWell(all: seq<Item>, from: nat, l: nat)
    requires l > 0
    decreases |all| - from
  {
    from + l < |all| ==> Usable(all[from + l - 1]) && PagesEndWell(all, from + l, l)
  }

  lemma AllLists(items: Items, user: int, status: Option<Status>)
    requires Filed(items)
    ensures Lists(All(items, user, status), Matching(items, user, status, START))
  {
    MatchingNumbered(items, user, status, START);
    ListingLists(Matching(items, user, status, START));
  }

  lemma InRest(all: seq<Item>, i: nat, x: Item)
    requires Sorted(all) && 0 < i <= |all| && all[i - 1].createdAt != ZERO_TIME
    ensures x in all[i..] <==> x in all && After(x, CursorOf(all[i - 1]))
  {
    if x in all[i..] {
      var j :| 0 <= j < |all[i..]| && all[i..][j] == x;
      assert all[i + j] == x && Newer(all[i - 1], all[i + j]);
    }
    if x in all && After(x, CursorOf(all[i - 1])) {
      var j :| 0 <= j < |all| && all[j] == x;
      assert x == all[i..][j - i];
    }
  }

  /** What comes after the cursor of an item is the rest of the list after that item. */
  lemma RestAfterCursor(items: Items, user: int, status: Option<Status>, i: nat)
    requires Filed(items) && 0 < i <= |All(items, user, status)|
    requires All(items, user, status)[i - 1].createdAt != ZERO_TIME
    ensures Listing(Matching(items, user, status, CursorOf(All(items, user, status)[i - 1]))) ==
            All(items, user, status)[i..]
  {
    var all := All(items, user, status);
    var c := CursorOf(all[i - 1]);
    var rest := Matching(items, user, status, c);
    AllLists(items, user, status);
    MatchingNumbered(items, user, status, c);
    ListingLists(rest);
    forall x ensures x in all[i..] <==> x in rest {
      InRest(all, i, x);
      assert x in rest <==> x in Matching(items, user, status, START) && After(x, c);
    }
    ListUnique(Listing(rest), all[i..], rest);
  }

  /** `cursor` asks for the items from position `i` on. */
  predicate AsksFrom(k: Codec, all: seq<Item>, i: nat, cursor: string) {
    (i == 0 && cursor == "") || (0 < i <= |all| && Usable(all[i - 1]) && cursor == k.encode(CursorOf(all[i - 1])))
  }

  lemma ItemIsTime(items: Items, user: int, status: Option<Status>, i: nat)
    requires Filed(items) && i < |All(items, user, status)|
    ensures IsTime(All(items, user, status)[i].createdAt)
  {
    AllLists(items, user, status);
    assert All(items, user, status)[i] in Matching(items, user, status, START);
  }

  /** The page of a list from a position on. */
  function PageAt(k: Codec, all: seq<Item>, i: nat, l: nat): Page
    requires i <= |all| && l > 0
  {
    if i + l < |all| then Page(all[i..i + l], k.encode(CursorOf(all[i + l - 1]))) else Page(all[i..], "")
  }

  lemma PageOfRest(k: Codec, all: seq<Item>, i: nat, l: nat)
    requires i <= |all| && l > 0
    ensures PageOf(k, Take(all[i..], l + 1), l) == PageAt(k, all, i, l)
  {
    var found := Take(all[i..], l + 1);
    if i + l < |all| {
      assert found[..l] == all[i..i + l] && found[l - 1] == all[i + l - 1];
    }
  }

  lemma PageFrom(k: Codec, items: Items, user: int, status: Option<Status>, limit: int, cursor: string, i: nat)
    requires Faithful(k) && Filed(items) && user > 0
    requires i <= |All(items, user, status)| && AsksFrom(k, All(items, user, status), i, cursor)
    ensures ListPage(k, items, user, status, cursor, limit) ==
            Some(PageAt(k, All(items, user, status), i, Normal(limit)))
  {
    var all := All(items, user, status);
    if i > 0 {
      ItemIsTime(items, user, status, i - 1);
      RestAfterCursor(items, user, status, i);
      PageFromRest(k, items, user, status, limit, cursor, CursorOf(all[i - 1]), all, i);
    } else {
      assert all[0..] == all;
      PageFromRest(k, items, user, status, limit, cursor, START, all, 0);
    }
  }

  lemma PageFromRest(k: Codec, items: Items, user: int, status: Option<Status>, limit: int, cursor: string,
                     before: Cursor, all: seq<Item>, i: nat)
    requires user > 0 && k.decode(cursor) == Some(before) && i <= |all|
    requires Listing(Matching(items, user, status, before)) == all[i..]
    ensures ListPage(k, items, user, status, cursor, limit) == Some(PageAt(k, all, i, Normal(limit)))
  {
    PageOfRest(k, all, i, Normal(limit));
  }

  /** The pages are those of the list, and a cursor at an unusable item is refused or starts again. */
  ghost predicate Serves(k: Codec, pager: string -> Option<Page>, all: seq<Item>, l: nat) {
    && l > 0
    && (forall i :: 0 <= i < |all| ==> k.encode(CursorOf(all[i])) != "")
    && (forall i: nat, cursor :: i <= |all| && AsksFrom(k, all, i, cursor) ==> pager(cursor) == Some(PageAt(k, all, i, l)))
    && (forall i :: 0 <= i < |all| && !Usable(all[i]) ==>
          pager(k.encode(CursorOf(all[i]))) == None || pager(k.encode(CursorOf(all[i]))) == pager(""))
  }

  lemma {:induction false} WalkFrom(k: Codec, pager: string -> Option<Page>, all: seq<Item>, l: nat, cursor: string,
                                    i: nat, n: nat)
    requires Serves(k, pager, all, l) && i <= |all| && AsksFrom(k, all, i, cursor)
    requires PagesEndWell(all, i, l) && n > |all| - i
    ensures Walk(pager, cursor, n) == Some(all[i..])
    decreases n
  {
    if i + l < |all| {
      WalkFrom(k, pager, all, l, k.encode(CursorOf(all[i + l - 1])), i + l, n - 1);
      assert all[i..] == all[i..i + l] + all[i + l..];
    }
  }

  lemma {:induction false} NeverEnds(k: Codec, pager: string -> Option<Page>, all: seq<Item>, l: nat, cursor: string,
                                     i: nat, n: nat)
    requires Serves(k, pager, all, l) && i <= |all| && AsksFrom(k, all, i, cursor)
    requires !PagesEndWell(all, i, l) && !PagesEndWell(all, 0, l)
    ensures Walk(pager, cursor, n) == None
    decreases n
  {
    if n > 0 {
      var next := k.encode(CursorOf(all[i + l - 1]));
      if Usable(all[i + l - 1]) {
        NeverEnds(k, pager, all, l, next, i + l, n - 1);
      } else {
        NeverEnds(k, pager, all, l, "", 0, n - 1);
        assert Walk(pager, next, n - 1) == None;
      }
    }
  }

  lemma UnusableRestarts(k: Codec, items: Items, user: int, status: Option<Status>, limit: int, x: Item)
    requires Faithful(k) && IsTime(x.createdAt) && !Usable(x)
    ensures var next := k.encode(CursorOf(x));
            ListPage(k, items, user, status, next, limit) == None
            || ListPage(k, items, user, status, next, limit) == ListPage(k, items, user, status, "", limit)
  {
    if 0 < x.number < 0x8000_0000_0000_0000 {
      assert Matching(items, user, status, CursorOf(x)) == Matching(items, user, status, START);
    }
  }

  ghost function PagerOf(k: Codec, items: Items, user: int, status: Option<Status>,
                         limit: int): string -> Option<Page> {
    cursor => ListPage(k, items, user, status, cursor, limit)
  }

  lemma RepositoryServes(k: Codec, items: Items, user: int, status: Option<Status>, limit: int)
    requires Faithful(k) && Filed(items) && user > 0
    ensures Serves(k, PagerOf(k, items, user, status, limit), All(items, user, status), Normal(limit))
  {
    var pager, all, l := PagerOf(k, items, user, status, limit), All(items, user, status), Normal(limit);
    forall i | 0 <= i < |all| ensures k.encode(CursorOf(all[i])) != "" {
      ItemIsTime(items, user, status, i);
    }
    forall i: nat, cursor | i <= |all| && AsksFrom(k, all, i, cursor)
      ensures pager(cursor) == Some(PageAt(k, all, i, l))
    {
      PageFrom(k, items, user, status, limit, cursor, i);
    }
    forall i | 0 <= i < |all| && !Usable(all[i])
      ensures pager(k.encode(CursorOf(all[i]))) == None || pager(k.encode(CursorOf(all[i]))) == pager("")
    {
      ItemIsTime(items, user, status, i);
      UnusableRestarts(k, items, user, status, limit, all[i]);
    }
  }

  /**
   Following the cursors ends, with all matching orders once each and in order, exactly if every
   page but the last ends in a usable item; otherwise it never ends or is refused.
   */
  lemma PagesAreExactIff(items: Items, user: int, status: Option<Status>, limit: int)
    requires Filed(items) && user > 0
    ensures var pager, all := PagerOf(BASE64_JSON, items, user, status, limit), All(items, user, status);
            && Lists(all, Matching(items, user, status, START))
            && ((exists n: nat :: Walk(pager, "", n) == Some(all)) <==> PagesEndWell(all, 0, Normal(limit)))
            && (forall n: nat :: Walk(pager, "", n).Some? ==> PagesEndWell(all, 0, Normal(limit)))
  {
    var pager, all := PagerOf(BASE64_JSON, items, user, status, limit), All(items, user, status);
    AllLists(items, user, status);
    RealIsFaithful();
    RepositoryServes(BASE64_JSON, items, user, status, limit);
    WalkIff(BASE64_JSON, pager, all, Normal(limit));
  }

  lemma WalkIff(k: Codec, pager: string -> Option<Page>, all: seq<Item>, l: nat)
    requires Serves(k, pager, all, l)
    ensures (exists n: nat :: Walk(pager, "", n) == Some(all)) <==> PagesEndWell(all, 0, l)
    ensures forall n: nat :: Walk(pager, "", n).Some? ==> PagesEndWell(all, 0, l)
  {
    if PagesEndWell(all, 0, l) {
      WalkFrom(k, pager, all, l, "", 0, |all| + 1);
      assert all[0..] == all;
    } else {
      forall n: nat ensures Walk(pager, "", n) == None {
        NeverEnds(k, pager, all, l, "", 0, n);
      }
    }
  }

  /** Orders as the services make them, with a positive number and a real time, page exactly. */
  lemma {:induction false} UsableItemsEndWell(all: seq<Item>, from: nat, l: nat)
    requires l > 0 && forall i :: 0 <= i < |all| ==> Usable(all[i])
    ensures PagesEndWell(all, from, l)
    decreases |all| - from
  {
    if from + l < |all| {
      UsableItemsEndWell(all, from + l, l);
    }
  }

  /** Three orders without a creation time, one per page: the second page is the first one again. */
  lemma ZeroTimesEndBadly(items: Items)
    requires items == map[3 := Item(3, 1, NoPay, ZERO_TIME), 2 := Item(2, 1, NoPay, ZERO_TIME), 1 := Item(1, 1, NoPay, ZERO_TIME)]
    ensures !PagesEndWell(All(items, 1, None), 0, Normal(1))
  {
    var x, y, z := Item(3, 1, NoPay, ZERO_TIME), Item(2, 1, NoPay, ZERO_TIME), Item(1, 1, NoPay, ZERO_TIME);
    AllLists(items, 1, None);
    assert items[3] == x && items[2] == y && items[1] == z;
    assert Matching(items, 1, None, START) == {x, y, z};
    assert Lists([x, y, z], {x, y, z});
    ListUnique(All(items, 1, None), [x, y, z], {x, y, z});
  }
}
