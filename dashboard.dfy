/**
 * The dashboard's list pipeline: a case-insensitive title search over a copy
 * of the products, then an in-place descending sort of that copy by `sold`
 * ("highest") or by creation time (anything else).
 */
module Dashboard {
  import opened Js
  import opened Products

  /** `toLowerCase` on one character; only the ASCII letters are mapped. */
  function LowerChar(c: char): (d: char)
    ensures 'A' <= c <= 'Z' ==> 'a' <= d <= 'z' && d as int - 'a' as int == c as int - 'A' as int
    ensures !('A' <= c <= 'Z') ==> d == c
  {
    if 'A' <= c <= 'Z' then (c as int - 'A' as int + 'a' as int) as char else c
  }

  function Lower(s: string): (r: string)
    ensures |r| == |s|
    ensures forall k :: 0 <= k < |s| ==> r[k] == LowerChar(s[k])
  {
    seq(|s|, k requires 0 <= k < |s| => LowerChar(s[k]))
  }

  /** `needle` occurs in `hay` starting at position `i`. */
  ghost predicate OccursAt(hay: string, needle: string, i: int) {
    0 <= i && i + |needle| <= |hay| && hay[i..i + |needle|] == needle
  }

  /** `hay.includes(needle)`. */
  function Includes(hay: string, needle: string): (b: bool)
    ensures b <==> exists i :: OccursAt(hay, needle, i)
    decreases |hay|
  {
    if |needle| > |hay| then
      assert forall i :: !OccursAt(hay, needle, i);
      false
    else if hay[..|needle|] == needle then
      assert OccursAt(hay, needle, 0);
      true
    else
      var rest := Includes(hay[1..], needle);
      assert !OccursAt(hay, needle, 0);
      assert rest ==> exists i :: OccursAt(hay, needle, i) by {
        if rest {
          var j :| OccursAt(hay[1..], needle, j);
          OccursShift(hay, needle, j);
        }
      }
      assert (exists i :: OccursAt(hay, needle, i)) ==> rest by {
        if exists i :: OccursAt(hay, needle, i) {
          var i :| OccursAt(hay, needle, i);
          assert i >= 1;
          OccursShift(hay, needle, i - 1);
        }
      }
      rest
  }

  lemma OccursShift(hay: string, needle: string, i: int)
    requires |hay| > 0 && 0 <= i
    ensures OccursAt(hay, needle, i + 1) <==> OccursAt(hay[1..], needle, i)
  {
    if i + 1 + |needle| <= |hay| {
      assert hay[i + 1..i + 1 + |needle|] == hay[1..][i..i + |needle|];
    }
  }

  /** `p.title.toLowerCase().includes(search.toLowerCase())` */
  predicate TitleMatches(p: Product, search: string) {
    Includes(Lower(p.title), Lower(search))
  }

  /** `products.filter(...)`: the matching products. */
  function Keep(ps: seq<Product>, search: string): (r: seq<Product>)
    ensures forall p :: multiset(r)[p] == if TitleMatches(p, search) then multiset(ps)[p] else 0
    ensures forall k :: 0 <= k < |r| ==> TitleMatches(r[k], search)
    decreases |ps|
  {
    if |ps| == 0 then []
    else
      var rest := Keep(ps[1..], search);
      assert ps == [ps[0]] + ps[1..];
      if TitleMatches(ps[0], search) then [ps[0]] + rest else rest
  }

  /** The search step: an empty search keeps everything, any other keeps the matching titles. */
  function Search(ps: seq<Product>, search: string): (r: seq<Product>)
    ensures search == "" ==> r == ps
    ensures search != "" ==> forall p :: p in r <==> p in ps && TitleMatches(p, search)
    ensures forall p :: multiset(r)[p] <= multiset(ps)[p]
  {
    if search != "" then Keep(ps, search) else ps
  }

  /** The sort key: `sold` for "highest", the creation time otherwise. */
  function SortKey(p: Product, bySold: bool): real {
    if bySold then SoldNumber(p) else p.createdAt
  }

  /** Ordered by the key, largest first. */
  ghost predicate Descending(s: seq<Product>, bySold: bool) {
    forall x, y :: 0 <= x < y < |s| ==> SortKey(s[x], bySold) >= SortKey(s[y], bySold)
  }

  method Swap(a: array<Product>, i: int, j: int)
    requires 0 <= i < a.Length && 0 <= j < a.Length
    modifies a
    ensures a[i] == old(a[j]) && a[j] == old(a[i])
    ensures forall k :: 0 <= k < a.Length && k != i && k != j ==> a[k] == old(a[k])
    ensures multiset(a[..]) == old(multiset(a[..]))
  {
    a[i], a[j] := a[j], a[i];
  }

  /**
   * `data.sort(comparator)`: insertion sort by adjacent swaps, in place. The
   * result is ordered largest key first and holds the same products.
   */
  method SortDescending(a: array<Product>, bySold: bool)
    modifies a
    ensures Descending(a[..], bySold)
    ensures multiset(a[..]) == old(multiset(a[..]))
  {
    var i := 0;
    while i < a.Length
      invariant 0 <= i <= a.Length
      invariant forall x, y :: 0 <= x < y < i ==> SortKey(a[x], bySold) >= SortKey(a[y], bySold)
      invariant multiset(a[..]) == old(multiset(a[..]))
    {
      InsertDescending(a, i, bySold);
      i := i + 1;
    }
  }

  /** One insertion step: `a[i]` moves left past every smaller key, extending the ordered prefix by one. */
  method InsertDescending(a: array<Product>, i: int, bySold: bool)
    requires 0 <= i < a.Length
    requires forall x, y :: 0 <= x < y < i ==> SortKey(a[x], bySold) >= SortKey(a[y], bySold)
    modifies a
    ensures forall x, y :: 0 <= x < y <= i ==> SortKey(a[x], bySold) >= SortKey(a[y], bySold)
    ensures multiset(a[..]) == old(multiset(a[..]))
  {
    var j := i;
    while j > 0 && SortKey(a[j - 1], bySold) < SortKey(a[j], bySold)
      invariant 0 <= j <= i
      invariant forall x, y :: 0 <= x < y <= i && x != j && y != j ==> SortKey(a[x], bySold) >= SortKey(a[y], bySold)
      invariant forall y :: j < y <= i ==> SortKey(a[j], bySold) > SortKey(a[y], bySold)
      invariant multiset(a[..]) == old(multiset(a[..]))
    {
      Swap(a, j - 1, j);
      j := j - 1;
    }
  }

  /**
   * The filter-and-sort effect: a copy of `products`, narrowed by the search
   * when there is one, then sorted in place. Sorting by `sold` needs every
   * `sold` to be a number or null, or the comparator is inconsistent.
   */
  method FilterAndSort(products: seq<Product>, search: string, sortBy: string) returns (filtered: seq<Product>)
    requires sortBy == "highest" ==> forall k :: 0 <= k < |products| ==> SoldComparable(products[k])
    ensures multiset(filtered) == multiset(Search(products, search))
    ensures search == "" ==> multiset(filtered) == multiset(products)
    ensures search != "" ==> forall p :: p in filtered <==> p in products && TitleMatches(p, search)
    ensures Descending(filtered, sortBy == "highest")
  {
    var data := products;
    if search != "" {
      data := Keep(data, search);
    }
    var a := new Product[|data|](k requires 0 <= k < |data| => data[k]);
    assert a[..] == data;
    SortDescending(a, sortBy == "highest");
    filtered := a[..];
    assert forall p :: p in filtered <==> p in data by {
      forall p ensures p in filtered <==> p in data {
        assert p in filtered <==> multiset(filtered)[p] > 0;
        assert p in data <==> multiset(data)[p] > 0;
      }
    }
  }
}
