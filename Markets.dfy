/**
 * The markets page: a favourites set the user toggles, and the pipeline that marks
 * the favourite coins, applies the all / favourites / gainers / losers filter and
 * then the case-insensitive search.
 */
module Markets {
  import opened Wrappers
  import opened JsText
  import opened Seqs

  datatype Coin = Coin(
    id: string,
    name: string,
    symbol: string,
    price: real,
    change24h: real,
    marketCap: real,
    volume24h: real,
    logoUrl: Option<string>,
    isFavorite: Option<bool>)

  datatype MarketFilter = All | Favorites | Gainers | Losers

  /** The page's fixed list of coins. */
  const MockCryptoData: seq<Coin> := [
    Coin("bitcoin", "Bitcoin", "BTC", 60500.75, 2.5, 1200000000000.0, 35000000000.0,
      Some("https://s2.coinmarketcap.com/static/img/coins/64x64/1.png"), Some(true)),
    Coin("ethereum", "Ethereum", "ETH", 3000.20, -1.2, 360000000000.0, 20000000000.0,
      Some("https://s2.coinmarketcap.com/static/img/coins/64x64/1027.png"), None),
    Coin("solana", "Solana", "SOL", 150.50, 5.8, 70000000000.0, 5000000000.0,
      Some("https://s2.coinmarketcap.com/static/img/coins/64x64/5426.png"), Some(true)),
    Coin("binancecoin", "BNB", "BNB", 580.00, 0.5, 85000000000.0, 2000000000.0,
      Some("https://s2.coinmarketcap.com/static/img/coins/64x64/1839.png"), None),
    Coin("dogecoin", "Dogecoin", "DOGE", 0.15, -3.1, 20000000000.0, 1500000000.0,
      Some("https://s2.coinmarketcap.com/static/img/coins/64x64/74.png"), None),
    Coin("cardano", "Cardano", "ADA", 0.45, 1.0, 16000000000.0, 800000000.0,
      Some("https://s2.coinmarketcap.com/static/img/coins/64x64/2010.png"), None)
  ]

  const InitialFavorites: set<string> := {"bitcoin", "solana"}

  const InitialFilter: MarketFilter := All

  // ---------------------------------------------------------------------------
  // Favourites
  // ---------------------------------------------------------------------------

  /** The favourites after toggling `id`. */
  function Toggled(favs: set<string>, id: string): (r: set<string>)
    ensures id in r <==> id !in favs
    ensures r - {id} == favs - {id}
  {
    if id in favs then favs - {id} else favs + {id}
  }

  /** `toggleFavorite`: copy the set, then delete `id` if present or add it if absent. */
  method ToggleFavorite(prev: set<string>, id: string) returns (newFavs: set<string>)
    ensures newFavs == Toggled(prev, id)
  {
    newFavs := prev;
    if id in newFavs {
      newFavs := newFavs - {id};
    } else {
      newFavs := newFavs + {id};
    }
  }

  /** Toggling the same coin twice restores the favourites. */
  lemma ToggleTwice(favs: set<string>, id: string)
    ensures Toggled(Toggled(favs, id), id) == favs
  {
    var once := Toggled(favs, id);
    var twice := Toggled(once, id);
    assert twice - {id} == favs - {id};
    assert id in twice <==> id in favs;
  }

  // ---------------------------------------------------------------------------
  // The filtered list
  // ---------------------------------------------------------------------------

  /** `coin.isFavorite` as the filter tests it: only `true` passes. */
  predicate IsFavorite(c: Coin) { c.isFavorite == Some(true) }

  predicate Gaining(c: Coin) { c.change24h > 0.0 }

  predicate Losing(c: Coin) { c.change24h < 0.0 }

  /** Each coin with `isFavorite` set from membership of its id in `favs`. */
  function MarkFavorites(coins: seq<Coin>, favs: set<string>): (r: seq<Coin>)
    ensures |r| == |coins|
    ensures forall i :: 0 <= i < |r| ==>
      r[i].isFavorite == Some(coins[i].id in favs) && r[i].(isFavorite := coins[i].isFavorite) == coins[i]
  {
    if coins == [] then []
    else [coins[0].(isFavorite := Some(coins[0].id in favs))] + MarkFavorites(coins[1..], favs)
  }

  /** The list the active filter button selects. */
  function ApplyFilter(data: seq<Coin>, f: MarketFilter): seq<Coin>
  {
    match f
    case All => data
    case Favorites => Filter(data, IsFavorite)
    case Gainers => SortBy(Filter(data, Gaining), (c: Coin) => -c.change24h)
    case Losers => SortBy(Filter(data, Losing), (c: Coin) => c.change24h)
  }

  /** The search test: the lower-cased name or symbol contains the lower-cased term. */
  predicate MatchesSearch(c: Coin, term: string)
  {
    Includes(Lower(c.name), Lower(term)) || Includes(Lower(c.symbol), Lower(term))
  }

  function ApplySearch(data: seq<Coin>, term: string): seq<Coin>
  {
    if term == "" then data else Filter(data, (c: Coin) => MatchesSearch(c, term))
  }

  /** `filteredData`: mark favourites, apply the filter, then the search. */
  function FilteredData(coins: seq<Coin>, favs: set<string>, f: MarketFilter, term: string): seq<Coin>
  {
    ApplySearch(ApplyFilter(MarkFavorites(coins, favs), f), term)
  }

  /** The filter buttons form a single-choice group; clicking the active one again sends no value. */
  function SetActiveFilter(current: MarketFilter, value: Option<MarketFilter>): (r: MarketFilter)
    ensures value.Some? ==> r == value.value
    ensures value.None? ==> r == current
  {
    match value
    case Some(v) => v
    case None => current
  }

  // ---------------------------------------------------------------------------
  // Properties of the pipeline
  // ---------------------------------------------------------------------------

  /**
   * On marked coins the favourites filter is the filter by membership of the id in the
   * favourites set: exactly the favourite coins, in their original order.
   */
  lemma FavoritesAreMembers(coins: seq<Coin>, favs: set<string>)
    ensures var data := MarkFavorites(coins, favs);
      ApplyFilter(data, Favorites) == Filter(data, (c: Coin) => c.id in favs)
  {
    var data := MarkFavorites(coins, favs);
    FilterCongruent(data, IsFavorite, (c: Coin) => c.id in favs);
  }

  /** The gainers are exactly the coins with a positive change, largest change first. */
  lemma GainersExact(data: seq<Coin>, c: Coin)
    ensures var r := ApplyFilter(data, Gainers);
      (c in r <==> c in data && c.change24h > 0.0)
      && multiset(r) == multiset(Filter(data, Gaining))
      && forall i, j :: 0 <= i < j < |r| ==> r[i].change24h >= r[j].change24h
  {
    var g := Filter(data, Gaining);
    var r := ApplyFilter(data, Gainers);
    FilterMember(data, Gaining, c);
    assert c in r <==> c in multiset(r);
    assert c in g <==> c in multiset(g);
    assert forall i, j :: 0 <= i < j < |r| ==> -r[i].change24h <= -r[j].change24h;
  }

  /** The losers are exactly the coins with a negative change, largest fall first. */
  lemma LosersExact(data: seq<Coin>, c: Coin)
    ensures var r := ApplyFilter(data, Losers);
      (c in r <==> c in data && c.change24h < 0.0)
      && multiset(r) == multiset(Filter(data, Losing))
      && forall i, j :: 0 <= i < j < |r| ==> r[i].change24h <= r[j].change24h
  {
    var l := Filter(data, Losing);
    var r := ApplyFilter(data, Losers);
    FilterMember(data, Losing, c);
    assert c in r <==> c in multiset(r);
    assert c in l <==> c in multiset(l);
  }

  /** A coin whose price did not move is neither a gainer nor a loser. */
  lemma UnchangedInNeither(data: seq<Coin>, c: Coin)
    requires c.change24h == 0.0
    ensures c !in ApplyFilter(data, Gainers) && c !in ApplyFilter(data, Losers)
  {
    GainersExact(data, c);
    LosersExact(data, c);
  }

  /** A non-empty search keeps a coin iff its name or symbol contains the term, ignoring case. */
  lemma SearchKeeps(data: seq<Coin>, term: string, c: Coin)
    requires term != ""
    ensures c in ApplySearch(data, term) <==> c in data && MatchesSearch(c, term)
  {
    FilterMember(data, (c: Coin) => MatchesSearch(c, term), c);
  }

  /** An empty search leaves the list as it is. */
  lemma EmptySearch(data: seq<Coin>)
    ensures ApplySearch(data, "") == data
  {
  }

  /** The pipeline never invents or duplicates a coin. */
  lemma FilteredSubMultiset(coins: seq<Coin>, favs: set<string>, f: MarketFilter, term: string)
    ensures multiset(FilteredData(coins, favs, f, term)) <= multiset(MarkFavorites(coins, favs))
  {
    var data := MarkFavorites(coins, favs);
    var filtered := ApplyFilter(data, f);
    match f {
      case All =>
      case Favorites => FilterSubMultiset(data, IsFavorite);
      case Gainers => FilterSubMultiset(data, Gaining);
      case Losers => FilterSubMultiset(data, Losing);
    }
    assert multiset(filtered) <= multiset(data);
    if term != "" {
      FilterSubMultiset(filtered, (c: Coin) => MatchesSearch(c, term));
    }
  }
}
