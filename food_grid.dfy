/**
 * The catalog grid: look up the items of the selected category, then keep the
 * items whose name or description contains the query, ignoring letter case.
 * Lower-casing is ASCII only.
 */
module FoodGrid {

  import opened CartUtils

  /** The static menu: category key to its items, in display order. */
  type Catalog = map<string, seq<FoodItem>>

  function LowerChar(c: char): char
  {
    if 'A' <= c <= 'Z' then (c as int + 32) as char else c
  }

  function ToLower(s: string): (r: string)
    ensures |r| == |s|
    ensures forall i :: 0 <= i < |s| ==> r[i] == LowerChar(s[i])
  {
    seq(|s|, i requires 0 <= i < |s| => LowerChar(s[i]))
  }

  /** `s` contains `sub` as a contiguous piece (the empty piece included). */
  predicate Includes(s: string, sub: string)
    decreases |s|
  {
    sub <= s || (s != [] && Includes(s[1..], sub))
  }

  /** An unknown category shows nothing. */
  function CategoryItems(catalog: Catalog, category: string): (items: seq<FoodItem>)
    ensures category !in catalog ==> items == []
    ensures category in catalog ==> items == catalog[category]
  {
    if category in catalog then catalog[category] else []
  }

  predicate Matches(item: FoodItem, query: string)
  {
    query == "" ||
    Includes(ToLower(item.name), ToLower(query)) ||
    Includes(ToLower(item.description), ToLower(query))
  }

  /** The items that match, in their original order. */
  function FilterItems(items: seq<FoodItem>, query: string): (r: seq<FoodItem>)
    ensures |r| <= |items|
    ensures forall x :: x in r <==> x in items && Matches(x, query)
  {
    if items == [] then []
    else
      assert items == [items[0]] + items[1..];
      (if Matches(items[0], query) then [items[0]] else []) + FilterItems(items[1..], query)
  }

  function FilteredItems(catalog: Catalog, category: string, query: string): seq<FoodItem>
  {
    FilterItems(CategoryItems(catalog, category), query)
  }

  /** The "no items found" message shows when nothing matches a non-empty query. */
  predicate ShowsNoItemsFound(catalog: Catalog, category: string, query: string)
  {
    |FilteredItems(catalog, category, query)| == 0 && query != ""
  }

  // ---------------------------------------------------------------------------

  lemma UnknownCategoryIsEmpty(catalog: Catalog, category: string, query: string)
    requires category !in catalog
    ensures FilteredItems(catalog, category, query) == []
    ensures query != "" ==> ShowsNoItemsFound(catalog, category, query)
  {
  }

  /** An empty query keeps every item of the category, in order. */
  lemma {:induction false} EmptyQueryKeepsAll(items: seq<FoodItem>)
    ensures FilterItems(items, "") == items
  {
    if items != [] {
      EmptyQueryKeepsAll(items[1..]);
      assert items == [items[0]] + items[1..];
    }
  }

  /** Filtering distributes over concatenation, so the kept items keep their order. */
  lemma {:induction false} FilterConcat(a: seq<FoodItem>, b: seq<FoodItem>, query: string)
    ensures FilterItems(a + b, query) == FilterItems(a, query) + FilterItems(b, query)
  {
    if a == [] {
      assert a + b == b;
    } else {
      assert (a + b)[1..] == a[1..] + b;
      FilterConcat(a[1..], b, query);
    }
  }

  lemma LowerCharIdempotent(c: char)
    ensures LowerChar(LowerChar(c)) == LowerChar(c)
  {
  }

  /** Two queries that lower-case alike give the same result. */
  lemma {:induction false} FilterIgnoresQueryCase(items: seq<FoodItem>, q1: string, q2: string)
    requires ToLower(q1) == ToLower(q2)
    ensures FilterItems(items, q1) == FilterItems(items, q2)
  {
    assert q1 == "" <==> q2 == "" by {
      assert |q1| == |ToLower(q1)| == |ToLower(q2)| == |q2|;
    }
    if items != [] {
      FilterIgnoresQueryCase(items[1..], q1, q2);
    }
  }

  /** Differences of letter case in the query do not change what is shown. */
  lemma QueryCaseInsensitive(catalog: Catalog, category: string, query: string)
    ensures FilteredItems(catalog, category, query) == FilteredItems(catalog, category, ToLower(query))
  {
    assert ToLower(ToLower(query)) == ToLower(query) by {
      forall i | 0 <= i < |query| ensures ToLower(ToLower(query))[i] == ToLower(query)[i] {
        LowerCharIdempotent(query[i]);
      }
    }
    FilterIgnoresQueryCase(CategoryItems(catalog, category), query, ToLower(query));
  }

  /** A piece found in a suffix is found in the whole string. */
  lemma {:induction false} IncludesFromSuffix(s: string, sub: string, k: nat)
    requires k <= |s| && Includes(s[k..], sub)
    decreases k
    ensures Includes(s, sub)
  {
    if k > 0 {
      assert s[1..][k - 1..] == s[k..];
      IncludesFromSuffix(s[1..], sub, k - 1);
    }
  }

  lemma UpperCaseQueryExample(item: FoodItem)
    requires item.name == "Margherita Pizza"
    ensures FilterItems([item], "PIZZA") == [item]
  {
    var query := ToLower("PIZZA");
    forall i | 0 <= i < 5 ensures query[i] == "pizza"[i] {
      assert "PIZZA"[i] == "PIZZA"[i];
    }
    assert query == "pizza";
    var name := ToLower(item.name);
    forall i | 11 <= i < 16 ensures name[i] == "pizza"[i - 11] {
      assert item.name[i] == "Margherita Pizza"[i];
    }
    assert name[11..] == "pizza";
    assert "pizza" <= name[11..];
    IncludesFromSuffix(name, query, 11);
    assert Matches(item, "PIZZA");
  }
}
