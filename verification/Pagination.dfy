/** Pages of a sorted listing: with the row id as tiebreaker there is one order only, and the pages cut it up exactly. */
module Pagination {
  datatype Listed = Listed(key: int, id: int)

  /** order by key (ascending or descending), then by id. */
  predicate Before(descending: bool, a: Listed, b: Listed) {
    if a.key != b.key then (if descending then a.key > b.key else a.key < b.key) else a.id < b.id
  }

  ghost predicate IsListing(descending: bool, rows: set<Listed>, listing: seq<Listed>) {
    && (forall i, j :: 0 <= i < j < |listing| ==> Before(descending, listing[i], listing[j]))
    && forall r :: r in listing <==> r in rows
  }

  /** The keys go down or up, as asked, and equal ones by id; every row is there once. */
  lemma ListingIsSorted(descending: bool, rows: set<Listed>, listing: seq<Listed>, i: nat, j: nat)
    requires IsListing(descending, rows, listing) && i < j < |listing|
    ensures descending ==> listing[i].key >= listing[j].key
    ensures !descending ==> listing[i].key <= listing[j].key
    ensures listing[i].key == listing[j].key ==> listing[i].id < listing[j].id
  {
    assert Before(descending, listing[i], listing[j]);
  }

  /** limit and offset. */
  function Page(listing: seq<Listed>, page: nat, size: nat): seq<Listed>
    requires page >= 1 && size >= 1
  {
    var offset := (page - 1) * size;
    if offset >= |listing| then [] else if offset + size >= |listing| then listing[offset..] else listing[offset..offset + size]
  }

  /** math.ceil(total / page_size) */
  function TotalPages(total: nat, size: nat): nat
    requires size >= 1
  {
    (total + size - 1) / size
  }

  function Pages(listing: seq<Listed>, count: nat, size: nat): seq<Listed>
    requires size >= 1
  {
    if count == 0 then [] else Pages(listing, count - 1, size) + Page(listing, count, size)
  }

  /** Every request sees the same order: the rows determine the listing. */
  lemma {:induction false} ListingIsUnique(descending: bool, rows: set<Listed>, a: seq<Listed>, b: seq<Listed>)
    requires IsListing(descending, rows, a) && IsListing(descending, rows, b)
    ensures a == b
    decreases |a|
  {
    assert a != [] ==> a[0] in rows;
    assert b != [] ==> b[0] in rows;
    if a != [] && b != [] {
      FirstIsFirst(descending, rows, a, b);
      RestIsListing(descending, rows, a);
      RestIsListing(descending, rows, b);
      ListingIsUnique(descending, rows - {a[0]}, a[1..], b[1..]);
      assert a == [a[0]] + a[1..] && b == [b[0]] + b[1..];
    }
  }

  lemma FirstIsFirst(descending: bool, rows: set<Listed>, a: seq<Listed>, b: seq<Listed>)
    requires IsListing(descending, rows, a) && IsListing(descending, rows, b) && a != [] && b != []
    ensures a[0] == b[0]
  {
    assert a[0] in b && b[0] in a;
    var i :| 0 <= i < |b| && b[i] == a[0];
    var j :| 0 <= j < |a| && a[j] == b[0];
    assert i > 0 ==> Before(descending, b[0], b[i]);
    assert j > 0 ==> Before(descending, a[0], a[j]);
  }

  lemma RestIsListing(descending: bool, rows: set<Listed>, a: seq<Listed>)
    requires IsListing(descending, rows, a) && a != []
    ensures IsListing(descending, rows - {a[0]}, a[1..])
  {
    forall i | 1 <= i < |a|
      ensures a[i] != a[0]
    {
      assert Before(descending, a[0], a[i]);
    }
    assert a == [a[0]] + a[1..];
    assert forall r :: r in a <==> r == a[0] || r in a[1..];
  }

  lemma OneMorePage(count: nat, size: nat)
    requires count >= 1
    ensures count * size == (count - 1) * size + size && (count - 1) * size >= 0
  {
  }

  lemma {:induction false} PagesUpTo(listing: seq<Listed>, count: nat, size: nat)
    requires size >= 1
    ensures count * size >= 0
    ensures Pages(listing, count, size) == if count * size >= |listing| then listing else listing[..count * size]
  {
    if count > 0 {
      hide Page;
      PagesUpTo(listing, count - 1, size);
      OneMorePage(count, size);
      OnePage(listing, count, size, (count - 1) * size);
    }
  }

  lemma OnePage(listing: seq<Listed>, page: nat, size: nat, offset: nat)
    requires page >= 1 && size >= 1 && offset == (page - 1) * size
    ensures (if offset >= |listing| then listing else listing[..offset]) + Page(listing, page, size)
         == if offset + size >= |listing| then listing else listing[..offset + size]
  {
    if offset < |listing| {
      if offset + size >= |listing| {
        assert listing[..offset] + listing[offset..] == listing;
      } else {
        assert listing[..offset] + listing[offset..offset + size] == listing[..offset + size];
      }
    }
  }

  /** Turning through all the pages shows every row exactly once, in order; there is nothing after them, and none of
      them is empty. */
  lemma PagesCoverTheListing(listing: seq<Listed>, size: nat, page: nat)
    requires size >= 1 && page >= 1
    ensures Pages(listing, TotalPages(|listing|, size), size) == listing
    ensures Page(listing, page, size) == [] <==> page > TotalPages(|listing|, size)
  {
    hide TotalPages, Pages;
    var n := TotalPages(|listing|, size);
    CeilBounds(|listing|, size);
    PagesUpTo(listing, n, size);
    if page > n {
      Times(n, page - 1, size);
    } else {
      Times(page - 1, n - 1, size);
    }
  }

  lemma Times(a: int, b: int, size: nat)
    requires a <= b
    ensures a * size <= b * size
  {
  }

  lemma CeilBounds(total: nat, size: nat)
    requires size >= 1
    ensures TotalPages(total, size) * size >= total
    ensures (TotalPages(total, size) - 1) * size < total
  {
    var q := (total + size - 1) / size;
    assert q * size + (total + size - 1) % size == total + size - 1;
  }
}
