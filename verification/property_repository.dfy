/**
 * The listing table and the queries and writes made against it.
 *
 * The database table is the sequence `rows` of a `PropertyTable`. A query is a conjunction of
 * column constraints (`Query`); the database returns the matching rows newest first
 * (`Selected`), cut to the requested number of rows (`Execute`). Rows with equal `createdAt`
 * come back in table order.
 */
module PropertyRepository {
  import opened Wrappers
  import opened PropertyModel
  import Seqs

  /** The optional filters of the public listing. */
  datatype Filters = Filters(county: Option<string>, propertyType: Option<string>, minPrice: Option<int>, maxPrice: Option<int>)

  const NoFilters := Filters(None, None, None, None)

  /** The column constraints of a query; an absent one does not constrain. */
  datatype Query = Query(
    idEq: Option<string>,
    slugEq: Option<string>,
    statusEq: Option<PropertyStatus>,
    createdBefore: Option<Timestamp>,
    countyEq: Option<string>,
    typeEq: Option<string>,
    priceAtLeast: Option<int>,
    priceAtMost: Option<int>)

  const SelectAll := Query(None, None, None, None, None, None, None, None)

  /** One page of the public listing. */
  datatype Page = Page(properties: seq<Property>, nextCursor: Option<Timestamp>)

  predicate Matches(q: Query, p: Property)
  {
    && (q.idEq.Some? ==> p.id == q.idEq.value)
    && (q.slugEq.Some? ==> p.slug == q.slugEq.value)
    && (q.statusEq.Some? ==> p.status == q.statusEq.value)
    && (q.createdBefore.Some? ==> p.createdAt < q.createdBefore.value)
    && (q.countyEq.Some? ==> p.county == q.countyEq.value)
    && (q.typeEq.Some? ==> TypeName(p.propertyType) == q.typeEq.value)
    && (q.priceAtLeast.Some? ==> p.price >= q.priceAtLeast.value)
    && (q.priceAtMost.Some? ==> p.price <= q.priceAtMost.value)
  }

  // ---------------------------------------------------------------- ordering

  /** Ordered by non-increasing creation time. */
  predicate NewestFirst(s: seq<Property>)
  {
    forall i, j :: 0 <= i < j < |s| ==> s[i].createdAt >= s[j].createdAt
  }

  /** Ordered by strictly decreasing creation time. */
  predicate StrictlyNewestFirst(s: seq<Property>)
  {
    forall i, j :: 0 <= i < j < |s| ==> s[i].createdAt > s[j].createdAt
  }

  /** No two rows of `s` share a creation time. */
  predicate DistinctTimestamps(s: seq<Property>)
  {
    forall i, j :: 0 <= i < j < |s| ==> s[i].createdAt != s[j].createdAt
  }

  /** A row no older than the head of an ordered sequence can go in front of it. */
  lemma ConsNewestFirst(h: Property, t: seq<Property>)
    requires NewestFirst(t)
    requires t != [] ==> h.createdAt >= t[0].createdAt
    ensures NewestFirst([h] + t)
  {
    var r := [h] + t;
    forall i, j | 0 <= i < j < |r| ensures r[i].createdAt >= r[j].createdAt {
      if i == 0 {
        assert r[j] == t[j - 1];
        assert t[0].createdAt >= t[j - 1].createdAt;
      } else {
        assert r[i] == t[i - 1] && r[j] == t[j - 1];
      }
    }
  }

  function Insert(x: Property, s: seq<Property>): (r: seq<Property>)
    requires NewestFirst(s)
    ensures NewestFirst(r)
    ensures multiset(r) == multiset(s) + multiset{x}
    ensures r[0] == x || (s != [] && r[0] == s[0])
    decreases |s|
  {
    if s == [] || x.createdAt >= s[0].createdAt then
      ConsNewestFirst(x, s);
      [x] + s
    else
      assert s == [s[0]] + s[1..];
      var t := Insert(x, s[1..]);
      ConsNewestFirst(s[0], t);
      [s[0]] + t
  }

  /** The `ORDER BY created_at DESC` of the database, as an insertion sort. */
  function SortNewestFirst(s: seq<Property>): (r: seq<Property>)
    ensures NewestFirst(r)
    ensures multiset(r) == multiset(s)
    decreases |s|
  {
    if s == [] then []
    else
      assert s == [s[0]] + s[1..];
      Insert(s[0], SortNewestFirst(s[1..]))
  }

  /** `LIMIT n`: the first `n` rows, or all of them when there are fewer or no limit is given. */
  function Take(s: seq<Property>, limit: Option<nat>): (r: seq<Property>)
    ensures |r| == if limit.Some? && limit.value < |s| then limit.value else |s|
    ensures r == s[..|r|]
  {
    if limit.None? || limit.value >= |s| then assert s[..|s|] == s; s else s[..limit.value]
  }

  /** The rows matching `q`, in table order. */
  function Matching(q: Query, rows: seq<Property>): (r: seq<Property>)
    ensures |r| <= |rows|
    ensures forall p :: p in r <==> p in rows && Matches(q, p)
    decreases |rows|
  {
    if rows == [] then []
    else (if Matches(q, rows[0]) then [rows[0]] else []) + Matching(q, rows[1..])
  }

  /** All rows matching `q`, newest first. */
  function Selected(q: Query, rows: seq<Property>): (r: seq<Property>)
    ensures NewestFirst(r)
    ensures forall p :: p in r <==> p in rows && Matches(q, p)
    ensures multiset(r) == multiset(Matching(q, rows))
  {
    var f := Matching(q, rows);
    var r := SortNewestFirst(f);
    assert forall p :: p in r <==> p in f by {
      forall p ensures p in r <==> p in f {
        assert p in r <==> p in multiset(r);
      }
    }
    r
  }

  /** What the database returns for `q` with an optional `LIMIT`. */
  function Execute(q: Query, rows: seq<Property>, limit: Option<nat>): (r: seq<Property>)
    ensures NewestFirst(r)
    ensures forall p :: p in r ==> p in rows && Matches(q, p)
    ensures r <= Selected(q, rows)
    ensures |r| == if limit.Some? && limit.value < |Selected(q, rows)| then limit.value else |Selected(q, rows)|
  {
    var all := Selected(q, rows);
    var r := Take(all, limit);
    assert forall i :: 0 <= i < |r| ==> r[i] == all[i];
    assert forall p :: p in r ==> p in all;
    r
  }

  /** `.single()`: exactly one row, otherwise an error. */
  function SingleRow(s: seq<Property>): (r: Result<Property, Failure>)
    ensures r.Ok? <==> |s| == 1
    ensures r.Ok? ==> r.value == s[0]
    ensures r.Err? ==> r.error == NotSingle
  {
    if |s| == 1 then Ok(s[0]) else Err(NotSingle)
  }

  /** The empty query keeps every row. */
  lemma {:induction false} MatchingAll(rows: seq<Property>)
    ensures Matching(SelectAll, rows) == rows
    decreases |rows|
  {
    if rows != [] {
      MatchingAll(rows[1..]);
    }
  }

  // ---------------------------------------------------------------- the public listing

  /** A filter value the source treats as falsy ("" or 0) imposes nothing. */
  predicate NonZero(v: Option<int>)
  {
    v.Some? && v.value != 0
  }

  /** The WHERE clause of the public listing: available, older than the cursor, and each truthy filter. */
  function ListingQuery(cursor: Option<Timestamp>, filters: Filters): Query
  {
    Query(
      None, None, Some(Available), cursor,
      if Truthy(filters.county) then filters.county else None,
      if Truthy(filters.propertyType) then filters.propertyType else None,
      if NonZero(filters.minPrice) then filters.minPrice else None,
      if NonZero(filters.maxPrice) then filters.maxPrice else None)
  }

  /** Whether a row belongs in the public listing, stated constraint by constraint. */
  predicate Listed(p: Property, cursor: Option<Timestamp>, filters: Filters)
  {
    && p.status == Available
    && (cursor.Some? ==> p.createdAt < cursor.value)
    && (filters.county.Some? && filters.county.value != "" ==> p.county == filters.county.value)
    && (filters.propertyType.Some? && filters.propertyType.value != "" ==> TypeName(p.propertyType) == filters.propertyType.value)
    && (filters.minPrice.Some? && filters.minPrice.value != 0 ==> p.price >= filters.minPrice.value)
    && (filters.maxPrice.Some? && filters.maxPrice.value != 0 ==> p.price <= filters.maxPrice.value)
  }

  lemma ListingQueryMeansListed(p: Property, cursor: Option<Timestamp>, filters: Filters)
    ensures Matches(ListingQuery(cursor, filters), p) <==> Listed(p, cursor, filters)
  {
  }

  /** Every public row the filters and cursor admit, newest first. */
  function Listing(rows: seq<Property>, cursor: Option<Timestamp>, filters: Filters): (r: seq<Property>)
    ensures NewestFirst(r)
    ensures forall p :: p in r <==> p in rows && Listed(p, cursor, filters)
  {
    forall p ensures Matches(ListingQuery(cursor, filters), p) <==> Listed(p, cursor, filters) {
      ListingQueryMeansListed(p, cursor, filters);
    }
    Selected(ListingQuery(cursor, filters), rows)
  }

  /** The page as the source cuts it: the extra row's timestamp becomes the cursor and the row is dropped. */
  function AsWrittenPage(fetched: seq<Property>, limit: nat): (r: Page)
    ensures |r.properties| <= limit && r.properties <= fetched
    ensures |fetched| > limit ==> r.properties == fetched[..limit] && r.nextCursor == Some(fetched[limit].createdAt)
    ensures |fetched| <= limit ==> r.properties == fetched && r.nextCursor.None?
  {
    if |fetched| > limit then Page(fetched[..limit], Some(fetched[limit].createdAt)) else Page(fetched, None)
  }

  /** The page with the cursor of the last row on it, as the page cursor is meant to be. */
  function CorrectedPage(fetched: seq<Property>, limit: nat): (r: Page)
    requires limit >= 1
    ensures |r.properties| <= limit && r.properties <= fetched
    ensures |fetched| > limit ==> r.properties == fetched[..limit] && r.nextCursor == Some(r.properties[limit - 1].createdAt)
    ensures |fetched| <= limit ==> r.properties == fetched && r.nextCursor.None?
  {
    if |fetched| > limit then Page(fetched[..limit], Some(fetched[limit - 1].createdAt)) else Page(fetched, None)
  }

  /** The database holds one listing per instant: no two rows share `created_at`. */
  lemma DistinctCons(x: Property, t: seq<Property>)
    requires DistinctTimestamps(t)
    requires forall y :: y in t ==> y.createdAt != x.createdAt
    ensures DistinctTimestamps([x] + t)
  {
    var s := [x] + t;
    forall i, j | 0 <= i < j < |s| ensures s[i].createdAt != s[j].createdAt {
      if i == 0 {
        assert s[j] == t[j - 1];
        assert s[j] in t;
      } else {
        assert s[i] == t[i - 1] && s[j] == t[j - 1];
      }
    }
  }

  lemma {:induction false} MatchingDistinct(q: Query, rows: seq<Property>)
    requires DistinctTimestamps(rows)
    ensures DistinctTimestamps(Matching(q, rows))
    decreases |rows|
  {
    if rows != [] {
      var rest := rows[1..];
      assert DistinctTimestamps(rest) by {
        forall i, j | 0 <= i < j < |rest| ensures rest[i].createdAt != rest[j].createdAt {
          assert rest[i] == rows[i + 1] && rest[j] == rows[j + 1];
        }
      }
      MatchingDistinct(q, rest);
      var t := Matching(q, rest);
      if Matches(q, rows[0]) {
        forall y | y in t ensures y.createdAt != rows[0].createdAt {
          var k :| 0 <= k < |rest| && rest[k] == y;
          assert rows[k + 1] == y;
        }
        DistinctCons(rows[0], t);
      } else {
        assert Matching(q, rows) == t;
      }
    }
  }

  lemma {:induction false} InsertDistinct(x: Property, s: seq<Property>)
    requires NewestFirst(s) && DistinctTimestamps(s)
    requires forall y :: y in s ==> y.createdAt != x.createdAt
    ensures DistinctTimestamps(Insert(x, s))
    decreases |s|
  {
    if s == [] || x.createdAt >= s[0].createdAt {
      DistinctCons(x, s);
    } else {
      var rest := s[1..];
      assert DistinctTimestamps(rest) by {
        forall i, j | 0 <= i < j < |rest| ensures rest[i].createdAt != rest[j].createdAt {
          assert rest[i] == s[i + 1] && rest[j] == s[j + 1];
        }
      }
      InsertDistinct(x, rest);
      var t := Insert(x, rest);
      forall y | y in t ensures y.createdAt != s[0].createdAt {
        assert y in multiset(t);
        if y != x {
          assert y in multiset(rest);
          var k :| 0 <= k < |rest| && rest[k] == y;
          assert s[k + 1] == y;
        }
      }
      DistinctCons(s[0], t);
    }
  }

  lemma {:induction false} SortDistinct(s: seq<Property>)
    requires DistinctTimestamps(s)
    ensures DistinctTimestamps(SortNewestFirst(s))
    decreases |s|
  {
    if s != [] {
      var rest := s[1..];
      assert DistinctTimestamps(rest) by {
        forall i, j | 0 <= i < j < |rest| ensures rest[i].createdAt != rest[j].createdAt {
          assert rest[i] == s[i + 1] && rest[j] == s[j + 1];
        }
      }
      SortDistinct(rest);
      var t := SortNewestFirst(rest);
      forall y | y in t ensures y.createdAt != s[0].createdAt {
        assert y in multiset(t);
        assert y in multiset(rest);
        var k :| 0 <= k < |rest| && rest[k] == y;
        assert s[k + 1] == y;
      }
      InsertDistinct(s[0], t);
    }
  }

  /** With one listing per instant, every listing is strictly newest first. */
  lemma ListingStrictlyOrdered(rows: seq<Property>, cursor: Option<Timestamp>, filters: Filters)
    requires DistinctTimestamps(rows)
    ensures StrictlyNewestFirst(Listing(rows, cursor, filters))
  {
    MatchingDistinct(ListingQuery(cursor, filters), rows);
    SortDistinct(Matching(ListingQuery(cursor, filters), rows));
  }

  /** Two strictly ordered sequences with the same elements are the same sequence. */
  lemma {:induction false} StrictlyOrderedUnique(a: seq<Property>, b: seq<Property>)
    requires StrictlyNewestFirst(a) && StrictlyNewestFirst(b)
    requires forall p :: p in a <==> p in b
    ensures a == b
    decreases |a|
  {
    if a == [] {
      assert forall k :: 0 <= k < |b| ==> b[k] in a;
    } else {
      assert a[0] in b;
      assert b[0] in a;
      forall p ensures p in a[1..] <==> p in b[1..] {
        if p in a[1..] {
          var i :| 0 <= i < |a[1..]| && a[1..][i] == p;
          assert a[i + 1] == p;
          assert p in b;
          assert p != b[0];
        }
        if p in b[1..] {
          var j :| 0 <= j < |b[1..]| && b[1..][j] == p;
          assert b[j + 1] == p;
          assert p in a;
          assert p != a[0];
        }
      }
      StrictlyOrderedUnique(a[1..], b[1..]);
      assert a == [a[0]] + a[1..] && b == [b[0]] + b[1..];
    }
  }

  /**
   * As written, the row at index `limit` is fetched, becomes the cursor and is dropped: it is not
   * on this page, and the next page asks for rows strictly older than it, so it is never listed.
   */
  lemma AsWrittenSkipsBoundaryRow(rows: seq<Property>, cursor: Option<Timestamp>, filters: Filters, limit: nat)
    requires DistinctTimestamps(rows)
    requires |Listing(rows, cursor, filters)| > limit
    ensures var listing := Listing(rows, cursor, filters);
      var page := AsWrittenPage(listing, limit);
      var skipped := listing[limit];
      && skipped in rows && Listed(skipped, cursor, filters)
      && page.nextCursor == Some(skipped.createdAt)
      && skipped !in page.properties
      && skipped !in Listing(rows, page.nextCursor, filters)
  {
    var listing := Listing(rows, cursor, filters);
    ListingStrictlyOrdered(rows, cursor, filters);
    assert listing[limit] in listing;
    var page := AsWrittenPage(listing, limit);
    forall i | 0 <= i < |page.properties| ensures page.properties[i] != listing[limit] {
      assert page.properties[i] == listing[i];
    }
  }

  /** In a strictly ordered listing, the rows older than the one at `limit - 1` are those after it. */
  lemma OlderIsAfter(listing: seq<Property>, limit: nat, p: Property)
    requires StrictlyNewestFirst(listing)
    requires 1 <= limit < |listing|
    ensures p in listing[limit..] <==> p in listing && p.createdAt < listing[limit - 1].createdAt
  {
    var tail := listing[limit..];
    if p in tail {
      var k :| 0 <= k < |tail| && tail[k] == p;
      assert listing[limit + k] == p;
    }
    if p in listing && p.createdAt < listing[limit - 1].createdAt {
      var i :| 0 <= i < |listing| && listing[i] == p;
      assert tail[i - limit] == p;
    }
  }

  /** The rows strictly older than the last row of a page are the rest of the listing. */
  lemma OlderThanPageIsTail(rows: seq<Property>, cursor: Option<Timestamp>, filters: Filters, limit: nat)
    requires DistinctTimestamps(rows)
    requires 1 <= limit < |Listing(rows, cursor, filters)|
    ensures var listing := Listing(rows, cursor, filters);
      Listing(rows, Some(listing[limit - 1].createdAt), filters) == listing[limit..]
  {
    var listing := Listing(rows, cursor, filters);
    ListingStrictlyOrdered(rows, cursor, filters);
    var last := listing[limit - 1];
    assert last in listing;
    var next := Listing(rows, Some(last.createdAt), filters);
    ListingStrictlyOrdered(rows, Some(last.createdAt), filters);
    var tail := listing[limit..];
    assert StrictlyNewestFirst(tail) by {
      forall i, j | 0 <= i < j < |tail| ensures tail[i].createdAt > tail[j].createdAt {
        assert tail[i] == listing[limit + i] && tail[j] == listing[limit + j];
      }
    }
    forall p ensures p in next <==> p in tail {
      OlderIsAfter(listing, limit, p);
      assert Listed(p, Some(last.createdAt), filters) <==> Listed(p, cursor, filters) && p.createdAt < last.createdAt;
    }
    StrictlyOrderedUnique(next, tail);
  }

  /**
   * With the corrected cursor, the next page is exactly the rest of the listing: the pages together
   * return every listed row once, in order.
   */
  lemma CorrectedPagesCoverListing(rows: seq<Property>, cursor: Option<Timestamp>, filters: Filters, limit: nat)
    requires DistinctTimestamps(rows)
    requires limit >= 1
    ensures var listing := Listing(rows, cursor, filters);
      var page := CorrectedPage(listing, limit);
      var rest := if page.nextCursor.Some? then Listing(rows, page.nextCursor, filters) else [];
      && page.properties + rest == listing
      && (forall p :: p in page.properties ==> p !in rest)
  {
    var listing := Listing(rows, cursor, filters);
    var page := CorrectedPage(listing, limit);
    var rest := if page.nextCursor.Some? then Listing(rows, page.nextCursor, filters) else [];
    if |listing| > limit {
      assert page.nextCursor == Some(listing[limit - 1].createdAt);
      OlderThanPageIsTail(rows, cursor, filters, limit);
    }
    ListingStrictlyOrdered(rows, cursor, filters);
    PageThenRest(listing, rest, limit);
  }

  /** A corrected page followed by the rows after it is the whole sequence, and the two share no row. */
  lemma PageThenRest(listing: seq<Property>, rest: seq<Property>, limit: nat)
    requires StrictlyNewestFirst(listing) && limit >= 1
    requires |listing| > limit ==> rest == listing[limit..]
    requires |listing| <= limit ==> rest == []
    ensures CorrectedPage(listing, limit).properties + rest == listing
    ensures forall p :: p in CorrectedPage(listing, limit).properties ==> p !in rest
  {
    if |listing| > limit {
      assert listing[..limit] + listing[limit..] == listing;
      PrefixDisjointFromTail(listing, limit);
    }
  }

  /** In a strictly ordered sequence no row of a prefix reappears after it. */
  lemma PrefixDisjointFromTail(s: seq<Property>, k: nat)
    requires StrictlyNewestFirst(s) && k <= |s|
    ensures forall p :: p in s[..k] ==> p !in s[k..]
  {
    forall p | p in s[..k] ensures p !in s[k..] {
      var i :| 0 <= i < k && s[..k][i] == p;
      forall j | 0 <= j < |s| - k ensures s[k..][j] != p {
        assert s[k..][j] == s[k + j];
      }
    }
  }

  /** The public query built clause by clause: available rows, then the cursor and each truthy filter. */
  method BuildListingQuery(cursor: Option<Timestamp>, filters: Filters) returns (query: Query)
    ensures query == ListingQuery(cursor, filters)
    ensures forall p :: Matches(query, p) <==> Listed(p, cursor, filters)
  {
    query := SelectAll.(statusEq := Some(Available));
    if cursor.Some? { query := query.(createdBefore := cursor); }
    if Truthy(filters.county) { query := query.(countyEq := filters.county); }
    if Truthy(filters.propertyType) { query := query.(typeEq := filters.propertyType); }
    if NonZero(filters.minPrice) { query := query.(priceAtLeast := filters.minPrice); }
    if NonZero(filters.maxPrice) { query := query.(priceAtMost := filters.maxPrice); }
  }

  /** Fetching one row more than the page holds, then dropping the last fetched row. */
  lemma FetchedOneMore(listing: seq<Property>, limit: nat)
    ensures var t := Take(listing, Some(limit + 1));
      && (|t| > limit <==> |listing| > limit)
      && (|t| > limit ==> t[..|t| - 1] == listing[..limit] && t[limit] == listing[limit])
      && (|t| <= limit ==> t == listing)
  {
  }

  // ---------------------------------------------------------------- admin queries and writes

  /** The rows with this slug that are available. */
  function SlugQuery(slug: string): Query
  {
    SelectAll.(slugEq := Some(slug), statusEq := Some(Available))
  }

  function IdQuery(id: string): Query
  {
    SelectAll.(idEq := Some(id))
  }

  predicate HasId(rows: seq<Property>, id: string)
  {
    exists i :: 0 <= i < |rows| && rows[i].id == id
  }

  predicate UniqueIds(rows: seq<Property>)
  {
    forall i, j :: 0 <= i < j < |rows| ==> rows[i].id != rows[j].id
  }

  /** `update({ status: "draft" }).eq("id", id)`: the rows with that id turn draft, nothing else changes. */
  function SoftDeleted(rows: seq<Property>, id: string): (r: seq<Property>)
    ensures |r| == |rows|
    ensures forall i :: 0 <= i < |rows| && rows[i].id == id ==> r[i].status == Draft && r[i].(status := rows[i].status) == rows[i]
    ensures forall i :: 0 <= i < |rows| && rows[i].id != id ==> r[i] == rows[i]
  {
    seq(|rows|, i requires 0 <= i < |rows| => if rows[i].id == id then rows[i].(status := Draft) else rows[i])
  }

  /** `update(payload).eq("id", id)`: the rows with that id become `payload`, the others stay. */
  function Replaced(rows: seq<Property>, id: string, payload: Property): (r: seq<Property>)
    ensures |r| == |rows|
    ensures forall i :: 0 <= i < |rows| ==> r[i] == (if rows[i].id == id then payload else rows[i])
  {
    seq(|rows|, i requires 0 <= i < |rows| => if rows[i].id == id then payload else rows[i])
  }

  /** The row test of the hard delete. */
  function NotId(id: string): Property -> bool
  {
    (p: Property) => p.id != id
  }

  /** `delete().eq("id", id)`: exactly the rows with that id go, the others keep their order. */
  function WithoutId(rows: seq<Property>, id: string): (r: seq<Property>)
    ensures forall p :: p in r <==> p in rows && p.id != id
    ensures forall i :: 0 <= i < |r| ==> r[i].id != id
    ensures forall p :: multiset(r)[p] == if p.id != id then multiset(rows)[p] else 0
  {
    forall p ensures multiset(Seqs.Filter(NotId(id), rows))[p] == if p.id != id then multiset(rows)[p] else 0 {
      Seqs.FilterMultiset(NotId(id), rows, p);
    }
    Seqs.Filter(NotId(id), rows)
  }

  /** The hard delete keeps the order of what remains: it works row by row and distributes over concatenation. */
  lemma WithoutIdKeepsOrder(a: seq<Property>, b: seq<Property>, x: Property, id: string)
    ensures WithoutId(a + b, id) == WithoutId(a, id) + WithoutId(b, id)
    ensures WithoutId([x], id) == if x.id != id then [x] else []
  {
    Seqs.FilterConcat(NotId(id), a, b);
    Seqs.FilterCons(NotId(id), x, []);
    assert [x] + [] == [x];
  }

  /** A soft-deleted row leaves every public listing but stays in the admin list, as a draft. */
  lemma SoftDeleteHidesButKeeps(rows: seq<Property>, id: string, cursor: Option<Timestamp>, filters: Filters)
    ensures forall p :: p in Listing(SoftDeleted(rows, id), cursor, filters) ==> p.id != id
    ensures HasId(rows, id) ==> exists p :: p in Selected(SelectAll, SoftDeleted(rows, id)) && p.id == id && p.status == Draft
  {
    var after := SoftDeleted(rows, id);
    forall p | p in Listing(after, cursor, filters) ensures p.id != id {
      var i :| 0 <= i < |after| && after[i] == p;
      assert p.status == Available;
    }
    if HasId(rows, id) {
      var i :| 0 <= i < |rows| && rows[i].id == id;
      assert after[i] in after;
      assert Matches(SelectAll, after[i]);
    }
  }

  /** With unique ids, the lookup by id finds a single row exactly when the id is present. */
  lemma {:induction false} MatchingUniqueId(rows: seq<Property>, id: string)
    requires UniqueIds(rows)
    ensures HasId(rows, id) ==> |Matching(IdQuery(id), rows)| == 1
    ensures !HasId(rows, id) ==> Matching(IdQuery(id), rows) == []
    decreases |rows|
  {
    if rows != [] {
      var rest := rows[1..];
      assert UniqueIds(rest) by {
        forall i, j | 0 <= i < j < |rest| ensures rest[i].id != rest[j].id {
          assert rest[i] == rows[i + 1] && rest[j] == rows[j + 1];
        }
      }
      MatchingUniqueId(rest, id);
      if rows[0].id == id {
        assert !HasId(rest, id) by {
          forall k | 0 <= k < |rest| ensures rest[k].id != id {
            assert rest[k] == rows[k + 1];
          }
        }
      } else {
        assert HasId(rows, id) ==> HasId(rest, id) by {
          if HasId(rows, id) {
            var k :| 0 <= k < |rows| && rows[k].id == id;
            assert rest[k - 1] == rows[k];
          }
        }
        assert HasId(rest, id) ==> HasId(rows, id) by {
          if HasId(rest, id) {
            var k :| 0 <= k < |rest| && rest[k].id == id;
            assert rows[k + 1] == rest[k];
          }
        }
      }
    }
  }

  lemma LookupByUniqueId(rows: seq<Property>, id: string)
    requires UniqueIds(rows)
    ensures SingleRow(Selected(IdQuery(id), rows)).Ok? <==> HasId(rows, id)
  {
    MatchingUniqueId(rows, id);
    assert |Selected(IdQuery(id), rows)| == |multiset(Selected(IdQuery(id), rows))|;
  }

  /** Inserting a row with a fresh id, updating a row without changing its id, and both deletes keep ids unique. */
  lemma WritesKeepIdsUnique(rows: seq<Property>, id: string, p: Property)
    requires UniqueIds(rows)
    ensures !HasId(rows, p.id) ==> UniqueIds(rows + [p])
    ensures p.id == id ==> UniqueIds(Replaced(rows, id, p))
    ensures UniqueIds(SoftDeleted(rows, id))
  {
    if !HasId(rows, p.id) {
      var s := rows + [p];
      forall i, j | 0 <= i < j < |s| ensures s[i].id != s[j].id {
        if j == |rows| {
          assert s[i] == rows[i];
        }
      }
    }
  }

  class PropertyTable {
    var rows: seq<Property>

    constructor(initial: seq<Property>)
      ensures rows == initial
    {
      rows := initial;
    }

    /** `getPropertyBySlug`: the one available row with this slug; none or several is an error. */
    method GetPropertyBySlug(slug: string) returns (r: Result<Property, Failure>)
      ensures r == SingleRow(Selected(SlugQuery(slug), rows))
      ensures r.Ok? ==> r.value in rows && r.value.slug == slug && r.value.status == Available
    {
      var found := Execute(SlugQuery(slug), rows, None);
      r := SingleRow(found);
    }

    /** `getPropertyById`: the one row with this id; none or several is an error. */
    method GetPropertyById(id: string) returns (r: Result<Property, Failure>)
      ensures r == SingleRow(Selected(IdQuery(id), rows))
      ensures r.Ok? ==> r.value in rows && r.value.id == id
    {
      var found := Execute(IdQuery(id), rows, None);
      r := SingleRow(found);
    }

    /** `getAllPropertiesAdmin`: every row, whatever its status, newest first. */
    method GetAllPropertiesAdmin() returns (r: seq<Property>)
      ensures r == Selected(SelectAll, rows)
      ensures NewestFirst(r) && multiset(r) == multiset(rows)
    {
      r := Execute(SelectAll, rows, None);
      MatchingAll(rows);
    }

    /** The intended reading of `getPublicProperties`: the available rows that pass the filters, newest first. */
    method GetPublicProperties(filters: Filters) returns (r: seq<Property>)
      ensures r == Listing(rows, None, filters)
      ensures forall p :: p in r <==> p in rows && Listed(p, None, filters)
    {
      r := Execute(ListingQuery(None, filters), rows, None);
    }

    /** `createProperty`: appends the row; an id already in the table is refused by the primary key. */
    method CreateProperty(p: Property) returns (r: Result<Property, Failure>)
      modifies this
      ensures HasId(old(rows), p.id) ==> r == Err(QueryFailed) && rows == old(rows)
      ensures !HasId(old(rows), p.id) ==> r == Ok(p) && rows == old(rows) + [p]
    {
      if exists i :: 0 <= i < |rows| && rows[i].id == p.id {
        r := Err(QueryFailed);
      } else {
        rows := rows + [p];
        r := Ok(p);
      }
    }

    /** `updateProperty`: every row with this id becomes `payload`; the write must hit exactly one row. */
    method UpdateProperty(id: string, payload: Property) returns (r: Result<Property, Failure>)
      modifies this
      ensures rows == Replaced(old(rows), id, payload)
      ensures r.Ok? <==> |Selected(IdQuery(id), old(rows))| == 1
      ensures r.Ok? ==> r.value == payload
    {
      var hit := Execute(IdQuery(id), rows, None);
      rows := Replaced(rows, id, payload);
      r := if |hit| == 1 then Ok(payload) else Err(NotSingle);
    }

    /** `deleteProperty`: the soft delete. */
    method DeleteProperty(id: string)
      modifies this
      ensures rows == SoftDeleted(old(rows), id)
    {
      rows := SoftDeleted(rows, id);
    }

    /** `hardDeleteProperty`. */
    method HardDeleteProperty(id: string)
      modifies this
      ensures rows == WithoutId(old(rows), id)
    {
      rows := WithoutId(rows, id);
    }

    /**
     * `getPropertiesPaginated` as written: fetch `limit + 1` rows, and when the extra row came back
     * take its timestamp as the next cursor and pop it. A negative limit indexes past the result and fails.
     */
    method GetPropertiesPaginated(limit: int, cursor: Option<Timestamp>, filters: Filters) returns (r: Result<Page, Failure>)
      ensures r.Err? <==> limit < 0
      ensures r.Ok? ==> r.value == AsWrittenPage(Listing(rows, cursor, filters), limit)
    {
      if limit < 0 {
        return Err(QueryFailed);
      }
      var query := BuildListingQuery(cursor, filters);
      var rowLimit: nat := limit + 1;

      ghost var listing := Listing(rows, cursor, filters);
      var results := Execute(query, rows, Some(rowLimit));
      assert results == Take(listing, Some(rowLimit));
      FetchedOneMore(listing, limit);
      var nextCursor: Option<Timestamp> := None;
      if |results| > limit {
        nextCursor := Some(results[limit].createdAt);
        results := results[..|results| - 1];
      }
      r := Ok(Page(results, nextCursor));
    }

    /**
     * The corrected pagination: the next cursor is the timestamp of the last row on the page, so that
     * the following `created_at < cursor` page starts right after it. A page needs at least one row.
     */
    method GetPropertiesPaginatedCorrected(limit: int, cursor: Option<Timestamp>, filters: Filters) returns (r: Result<Page, Failure>)
      ensures r.Err? <==> limit < 1
      ensures r.Err? ==> r.error == QueryFailed
      ensures r.Ok? ==> r.value == CorrectedPage(Listing(rows, cursor, filters), limit)
    {
      if limit < 1 {
        return Err(QueryFailed);
      }
      var query := BuildListingQuery(cursor, filters);
      var rowLimit: nat := limit + 1;

      ghost var listing := Listing(rows, cursor, filters);
      var results := Execute(query, rows, Some(rowLimit));
      assert results == Take(listing, Some(rowLimit));
      FetchedOneMore(listing, limit);
      var nextCursor: Option<Timestamp> := None;
      if |results| > limit {
        nextCursor := Some(results[limit - 1].createdAt);
        results := results[..|results| - 1];
      }
      r := Ok(Page(results, nextCursor));
    }
  }
}
