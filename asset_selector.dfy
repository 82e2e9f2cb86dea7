/**
 * The asset selector of the configuration panel: per-symbol checkboxes that never empty the
 * selection, collapsible categories, and the per-category asset lists and selected counts.
 */
module AssetSelector {
  import opened Util
  import opened Records
  import opened Catalog

  /** `toggle`: the selection after clicking a symbol's checkbox. */
  function Toggle(selected: seq<string>, symbol: string): (r: seq<string>)
    ensures symbol in selected && |selected| <= 1 ==> r == selected
    ensures symbol in selected && |selected| > 1 ==> forall x :: x in r <==> x in selected && x != symbol
    ensures symbol in selected ==> Subsequence(r, selected)
    ensures symbol !in selected ==> r == selected + [symbol]
  {
    if symbol in selected then
      if |selected| > 1 then Filter(selected, s => s != symbol) else selected
    else selected + [symbol]
  }

  /** A duplicate-free, non-empty selection stays duplicate-free and non-empty after a toggle. */
  lemma ToggleKeepsSelection(selected: seq<string>, symbol: string)
    requires Distinct(selected) && |selected| > 0
    ensures Distinct(Toggle(selected, symbol))
    ensures |Toggle(selected, symbol)| > 0
  {
    var r := Toggle(selected, symbol);
    if symbol in selected && |selected| > 1 {
      var other := if selected[0] != symbol then selected[0] else selected[1];
      assert other in selected && other != symbol;
      assert other in r;
      SubsequenceDistinct(r, selected);
    } else if symbol !in selected {
      assert forall i :: 0 <= i < |selected| ==> selected[i] != symbol;
    }
  }

  /** Deleting elements from a duplicate-free list leaves it duplicate-free. */
  lemma {:induction false} SubsequenceDistinct(r: seq<string>, s: seq<string>)
    requires Subsequence(r, s) && Distinct(s)
    ensures Distinct(r)
    decreases |s|
  {
    if r != [] && s != [] {
      if r[0] == s[0] && Subsequence(r[1..], s[1..]) {
        SubsequenceDistinct(r[1..], s[1..]);
        SubsequenceMembers(r[1..], s[1..]);
        assert s[0] !in s[1..];
        forall j | 0 < j < |r|
          ensures r[0] != r[j]
        {
          assert r[j] == r[1..][j - 1];
          assert r[j] in r[1..];
        }
      } else {
        SubsequenceDistinct(r, s[1..]);
      }
    }
  }

  lemma {:induction false} SubsequenceMembers(r: seq<string>, s: seq<string>)
    requires Subsequence(r, s)
    ensures forall x :: x in r ==> x in s
    decreases |s|
  {
    if r != [] && s != [] {
      if r[0] == s[0] && Subsequence(r[1..], s[1..]) {
        SubsequenceMembers(r[1..], s[1..]);
        assert forall x :: x in r ==> x == r[0] || x in r[1..];
      } else {
        SubsequenceMembers(r, s[1..]);
      }
    }
  }

  /** The selection after clicking the symbols one after another. */
  function ToggleAll(selected: seq<string>, clicks: seq<string>): seq<string>
    decreases |clicks|
  {
    if clicks == [] then selected else ToggleAll(Toggle(selected, clicks[0]), clicks[1..])
  }

  /** No sequence of clicks empties a duplicate-free, non-empty selection. */
  lemma {:induction false} ToggleAllNonEmpty(selected: seq<string>, clicks: seq<string>)
    requires Distinct(selected) && |selected| > 0
    ensures Distinct(ToggleAll(selected, clicks))
    ensures |ToggleAll(selected, clicks)| > 0
    decreases |clicks|
  {
    if clicks != [] {
      ToggleKeepsSelection(selected, clicks[0]);
      ToggleAllNonEmpty(Toggle(selected, clicks[0]), clicks[1..]);
    }
  }

  /**
   * The guard counts entries, not distinct symbols: a selection holding one symbol twice is
   * emptied by clicking it. No toggle produces such a selection from a duplicate-free one.
   */
  lemma DuplicateSelectionEmpties()
    ensures Toggle(["BTC-USD", "BTC-USD"], "BTC-USD") == []
  {
  }

  /** The categories open when the selector is first shown. */
  const InitialOpen: set<string> := {"crypto"}

  /** Only the crypto group starts open, and one click on its header closes it. */
  lemma CryptoStartsOpen()
    ensures forall k :: k in InitialOpen <==> k == "crypto"
    ensures ToggleCategory(InitialOpen, "crypto") == {}
  {
  }

  /** `toggleCategory`: open a closed category or close an open one. */
  function ToggleCategory(open: set<string>, key: string): (r: set<string>)
    ensures key in r <==> key !in open
    ensures forall k :: k != key ==> (k in r <==> k in open)
  {
    if key in open then open - {key} else open + {key}
  }

  /** Clicking a category header twice restores the set of open categories. */
  lemma ToggleCategoryTwice(open: set<string>, key: string)
    ensures ToggleCategory(ToggleCategory(open, key), key) == open
  {
  }

  /** One entry of `ASSET_CATEGORIES`. */
  datatype Category = Category(key: string, title: string)

  /** The metadata entries of one category, in metadata order. */
  function CategoryAssets(meta: Metadata, key: string): (entries: Metadata)
    ensures forall e :: e in entries <==> e in meta && e.1.category == key
    ensures Subsequence(entries, meta)
  {
    Filter(meta, (e: (string, AssetMeta)) => e.1.category == key)
  }

  /** `assetsByCategory`: each category paired with exactly its metadata entries, in metadata order. */
  function AssetsByCategory(categories: seq<Category>, meta: Metadata): (groups: seq<(Category, Metadata)>)
    ensures |groups| == |categories|
    ensures forall i :: 0 <= i < |groups| ==> groups[i].0 == categories[i]
    ensures forall i, e :: 0 <= i < |groups| ==> (e in groups[i].1 <==> e in meta && e.1.category == categories[i].key)
    ensures forall i :: 0 <= i < |groups| ==> Subsequence(groups[i].1, meta)
  {
    seq(|categories|, i requires 0 <= i < |categories| => (categories[i], CategoryAssets(meta, categories[i].key)))
  }

  /** `selectedCount`: how many of a category's entries are selected. */
  function SelectedCount(entries: Metadata, selected: seq<string>): (n: nat)
    ensures n <= |entries|
    ensures n > 0 <==> exists e :: e in entries && e.0 in selected
  {
    var hits := Filter(entries, (e: (string, AssetMeta)) => e.0 in selected);
    assert hits != [] ==> hits[0] in hits;
    |hits|
  }

  /** Counting a concatenation of entries counts each part and adds. */
  lemma {:induction false} SelectedCountAppend(a: Metadata, b: Metadata, selected: seq<string>)
    ensures SelectedCount(a + b, selected) == SelectedCount(a, selected) + SelectedCount(b, selected)
  {
    if a == [] {
      assert a + b == b;
    } else {
      assert (a + b)[0] == a[0];
      assert (a + b)[1..] == a[1..] + b;
      SelectedCountAppend(a[1..], b, selected);
    }
  }

  /** When every entry of the category is selected, the count is the category's size. */
  lemma {:induction false} SelectedCountAll(entries: Metadata, selected: seq<string>)
    requires forall e :: e in entries ==> e.0 in selected
    ensures SelectedCount(entries, selected) == |entries|
  {
    if entries != [] {
      assert entries[0] in entries;
      assert forall e :: e in entries[1..] ==> e in entries;
      SelectedCountAll(entries[1..], selected);
    }
  }
}
