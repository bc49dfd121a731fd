/** The favorites page: which coins it lists, which slice of them the current page shows,
    and when it shows the empty message and the pagination control. */
module FavoritesPage {
  import opened Wrappers
  import opened Seqs
  import opened CoinTypes

  const ItemsPerPage: nat := 10

  /** `favoriteCoins`: the loaded coins whose id is a favorite, in load order. */
  function FavoriteCoins(data: Option<seq<Coin>>, favorites: set<string>): (r: seq<Coin>)
    ensures data.None? ==> r == []
    ensures data.Some? ==> IsSubsequence(r, data.value)
    ensures forall c :: c in r <==> data.Some? && c in data.value && c.id in favorites
    ensures data.Some? ==>
      forall c :: multiset(r)[c] == if c.id in favorites then multiset(data.value)[c] else 0
  {
    if data.None? then []
    else
      FilterCounts(data.value, (c: Coin) => c.id in favorites);
      Filter(data.value, (c: Coin) => c.id in favorites)
  }

  /** How `Array.prototype.slice` reads an index: negative counts from the end; the result is
      clamped to `[0, n]`. */
  function SliceIndex(i: int, n: nat): (r: nat)
    ensures r <= n
    ensures 0 <= i <= n ==> r == i
  {
    if i < 0 then (if n + i < 0 then 0 else n + i) else if i > n then n else i
  }

  /** `s.slice(start, end)` */
  function Slice<T>(s: seq<T>, start: int, end: int): (r: seq<T>)
    ensures |r| <= |s|
    ensures 0 <= start <= end <= |s| ==> r == s[start..end]
    ensures SliceIndex(end, |s|) <= SliceIndex(start, |s|) ==> r == []
  {
    var a := SliceIndex(start, |s|);
    var b := SliceIndex(end, |s|);
    if a < b then s[a..b] else []
  }

  function Min(a: int, b: int): int {
    if a <= b then a else b
  }

  /** The first index of page `page >= 1` in a list of `n` items, clamped to the list. */
  function PageStart(n: nat, page: int): nat
    requires page >= 1
  {
    Min((page - 1) * ItemsPerPage, n)
  }

  /** One past the last index of page `page >= 1`, clamped to the list. */
  function PageEnd(n: nat, page: int): nat
    requires page >= 1
  {
    Min(page * ItemsPerPage, n)
  }

  /** `currentItems` on page `page`: `slice(page * 10 - 10, page * 10)`. Page `page >= 1` holds
      the items at indices `[(page - 1) * 10, page * 10)`; no page, whatever its number, holds
      more than 10 items. */
  function PageItems<T>(items: seq<T>, page: int): (r: seq<T>)
    ensures page >= 1 ==> r == items[PageStart(|items|, page)..PageEnd(|items|, page)]
    ensures |r| <= ItemsPerPage
  {
    Slice(items, page * ItemsPerPage - ItemsPerPage, page * ItemsPerPage)
  }

  /** Distinct pages are disjoint windows of the list: an earlier page ends at or before the
      index where a later one starts. */
  lemma PagesDisjoint<T>(items: seq<T>, p: int, q: int)
    requires 1 <= p < q
    ensures PageItems(items, p) == items[PageStart(|items|, p)..PageEnd(|items|, p)]
    ensures PageItems(items, q) == items[PageStart(|items|, q)..PageEnd(|items|, q)]
    ensures PageEnd(|items|, p) <= PageStart(|items|, q)
  {
  }

  function PageCount(n: nat): nat {
    (n + ItemsPerPage - 1) / ItemsPerPage
  }

  /** Pages `1..k` in order, joined. */
  function Pages<T>(items: seq<T>, k: nat): seq<T> {
    if k == 0 then [] else Pages(items, k - 1) + PageItems(items, k)
  }

  lemma {:induction false} PagesPrefix<T>(items: seq<T>, k: nat)
    ensures Pages(items, k) == items[..Min(k * ItemsPerPage, |items|)]
  {
    if k > 0 {
      PagesPrefix(items, k - 1);
      var lo, hi := PageStart(|items|, k), PageEnd(|items|, k);
      assert items[..lo] + items[lo..hi] == items[..hi];
    }
  }

  /** Pages `1..ceil(n / 10)` joined give back the whole list. */
  lemma PagesCoverAll<T>(items: seq<T>)
    ensures Pages(items, PageCount(|items|)) == items
  {
    PagesPrefix(items, PageCount(|items|));
    assert PageCount(|items|) * ItemsPerPage >= |items|;
  }

  datatype PageView =
    | Loading
    | Failed(message: string)
    | NoFavorites
    | Listing(items: seq<Coin>, pagination: bool)

  /** The page as rendered for the hook's `isLoading`, `error` and `data`. */
  function Render(isLoading: bool, error: Option<string>, data: Option<seq<Coin>>,
                  favorites: set<string>, currentPage: int): (v: PageView)
    ensures v == Loading <==> isLoading
    ensures v.Failed? <==> !isLoading && error.Some?
    ensures v.Failed? ==> v.message == error.value
    ensures v == NoFavorites <==> !isLoading && error.None? && FavoriteCoins(data, favorites) == []
    ensures v.Listing? ==> v.items == PageItems(FavoriteCoins(data, favorites), currentPage)
    ensures v.Listing? ==> (v.pagination <==> |FavoriteCoins(data, favorites)| > ItemsPerPage)
  {
    if isLoading then Loading
    else if error.Some? then Failed(error.value)
    else
      var coins := FavoriteCoins(data, favorites);
      if |coins| == 0 then NoFavorites
      else Listing(PageItems(coins, currentPage), |coins| > ItemsPerPage)
  }
}
