/** The coin list route: the initialise-once guard, `safeJSONify`, and the GET and POST handlers
    over the store's results (which are parameters here). */
module CoinsRoute {
  import opened Wrappers

  // ---- ensureDbInitialized ----

  /** The module-level `isDbInitialized` flag and the calls made to `initializeDatabase`. */
  class DbGuard {
    var isDbInitialized: bool
    ghost var initCalls: nat

    constructor ()
      ensures !isDbInitialized && initCalls == 0
    {
      isDbInitialized := false;
      initCalls := 0;
    }

    /** `ensureDbInitialized`; `initSucceeds` is whether `initializeDatabase` would complete. A
        failure is logged and swallowed. */
    method EnsureDbInitialized(initSucceeds: bool)
      modifies this
      ensures isDbInitialized == AfterEnsure(old(isDbInitialized), initSucceeds)
      ensures initCalls == old(initCalls) + (if old(isDbInitialized) then 0 else 1)
    {
      if !isDbInitialized {
        initCalls := initCalls + 1;
        if initSucceeds {
          isDbInitialized := true;
        }
      }
    }
  }

  /** The flag after one `ensureDbInitialized`. */
  function AfterEnsure(initialized: bool, initSucceeds: bool): (r: bool)
    ensures initialized ==> r
    ensures !initialized ==> r == initSucceeds
  {
    initialized || initSucceeds
  }

  /** Calls made to `initializeDatabase` over a series of requests, starting from `initialized`;
      `outcomes[k]` is whether the k-th request's attempt would succeed. */
  function InitCalls(initialized: bool, outcomes: seq<bool>): (r: nat)
    ensures r <= |outcomes|
    decreases |outcomes|
  {
    if outcomes == [] then 0
    else (if initialized then 0 else 1) + InitCalls(AfterEnsure(initialized, outcomes[0]), outcomes[1..])
  }

  /** Index of the first `true`, or the length when there is none. */
  function FirstSuccess(outcomes: seq<bool>): (r: nat)
    ensures r <= |outcomes|
    ensures forall k :: 0 <= k < r ==> !outcomes[k]
    ensures r < |outcomes| ==> outcomes[r]
  {
    if outcomes == [] then 0 else if outcomes[0] then 0 else 1 + FirstSuccess(outcomes[1..])
  }

  /** Once the flag is set no request calls `initializeDatabase` again. */
  lemma {:induction false} NoCallsOnceInitialized(outcomes: seq<bool>)
    ensures InitCalls(true, outcomes) == 0
    decreases |outcomes|
  {
    if outcomes != [] {
      NoCallsOnceInitialized(outcomes[1..]);
    }
  }

  /** From a fresh start every request retries until the first successful initialisation,
      and none does afterwards. */
  lemma {:induction false} CallsUntilFirstSuccess(outcomes: seq<bool>)
    ensures InitCalls(false, outcomes) ==
      if FirstSuccess(outcomes) < |outcomes| then FirstSuccess(outcomes) + 1 else |outcomes|
    decreases |outcomes|
  {
    if outcomes != [] {
      if outcomes[0] {
        NoCallsOnceInitialized(outcomes[1..]);
      } else {
        CallsUntilFirstSuccess(outcomes[1..]);
      }
    }
  }

  // ---- safeJSONify ----

  datatype Json<R> = EmptyArray | Copied(value: R)

  /** `safeJSONify`. `roundTrip` is `JSON.parse(JSON.stringify(obj, replacer))`, absent when
      that throws; `obj` absent stands for `null` or `undefined`. */
  function SafeJsonify<R>(obj: Option<R>, roundTrip: Option<R>): (r: Json<R>)
    ensures obj.None? ==> r == EmptyArray
    ensures obj.Some? && roundTrip.None? ==> r == EmptyArray
    ensures obj.Some? && roundTrip.Some? ==> r == Copied(roundTrip.value)
  {
    if obj.None? then EmptyArray
    else if roundTrip.None? then EmptyArray
    else Copied(roundTrip.value)
  }

  // ---- GET ----

  /** A row of the coins table. `isFavorite` is the stored integer, absent when null. */
  datatype DbCoin = DbCoin(id: int, symbol: string, market: Option<string>, koreanName: string,
                           englishName: string, isFavorite: Option<int>, addedAt: Option<string>)

  datatype FormattedCoin = FormattedCoin(id: int, symbol: string, market: string, koreanName: string,
                                         englishName: string, isFavorite: bool, addedAt: Option<string>)

  function FormatCoin(c: DbCoin): (f: FormattedCoin)
    ensures f.market == if TruthyStr(c.market) then c.market.value else "KRW-" + c.symbol
    ensures f.isFavorite <==> c.isFavorite.Some? && c.isFavorite.value != 0
    ensures f.id == c.id && f.symbol == c.symbol && f.koreanName == c.koreanName
    ensures f.englishName == c.englishName && f.addedAt == c.addedAt
  {
    FormattedCoin(c.id, c.symbol, if TruthyStr(c.market) then c.market.value else "KRW-" + c.symbol,
                  c.koreanName, c.englishName, c.isFavorite.Some? && c.isFavorite.value != 0, c.addedAt)
  }

  function FormatCoins(coins: seq<DbCoin>): (r: seq<FormattedCoin>)
    ensures |r| == |coins|
    ensures forall i :: 0 <= i < |coins| ==> r[i] == FormatCoin(coins[i])
  {
    if coins == [] then [] else [FormatCoin(coins[0])] + FormatCoins(coins[1..])
  }

  datatype GetBody = CoinList(coins: seq<FormattedCoin>) | GetError(message: string)
  datatype GetResponse = GetResponse(status: int, body: GetBody)

  const ListErrorMessage: string := "코인 목록을 불러오는 중 오류가 발생했습니다."

  /** GET: `coins` is what `getCoins` yields; a returned value that is absent stands for null
      or a non-array. */
  function Get(coins: Outcome<Option<seq<DbCoin>>>): (r: GetResponse)
    ensures coins.Threw? ==> r == GetResponse(500, GetError(ListErrorMessage))
    ensures coins.Returned? && (coins.value.None? || coins.value.value == []) ==>
      r == GetResponse(200, CoinList([]))
    ensures coins.Returned? && coins.value.Some? ==>
      r.status == 200 && r.body.CoinList? && |r.body.coins| == |coins.value.value|
    ensures coins.Returned? && coins.value.Some? ==>
      forall i :: 0 <= i < |coins.value.value| ==> r.body.coins[i] == FormatCoin(coins.value.value[i])
  {
    match coins
    case Threw => GetResponse(500, GetError(ListErrorMessage))
    case Returned(rows) =>
      if rows.None? || |rows.value| == 0 then GetResponse(200, CoinList([]))
      else GetResponse(200, CoinList(FormatCoins(rows.value)))
  }

  /** A coin the store lists with an empty or missing market shows as the KRW market. */
  lemma DefaultMarket(c: DbCoin)
    requires !TruthyStr(c.market)
    ensures FormatCoin(c).market == "KRW-" + c.symbol
  {
  }

  // ---- POST ----

  /** The request body's four fields; absent stands for a missing field. */
  datatype PostBody = PostBody(symbol: Option<string>, market: Option<string>,
                               koreanName: Option<string>, englishName: Option<string>)

  /** The argument `addCoin` receives. */
  datatype NewCoin = NewCoin(symbol: string, market: string, koreanName: string, englishName: string)

  datatype PostReply<R> = MissingFields | Added(result: Json<R>) | AddedNothing | PostError
  datatype PostResponse<R> = PostResponse(status: int, reply: PostReply<R>, added: Option<NewCoin>)

  predicate Complete(b: PostBody) {
    TruthyStr(b.symbol) && TruthyStr(b.market) && TruthyStr(b.koreanName) && TruthyStr(b.englishName)
  }

  /** POST. `body` is the parsed request body, `addResult` what `addCoin` yields if it is called,
      and `roundTrip` the JSON round trip of that result. `added` records the call to `addCoin`. */
  function Post<R>(body: Outcome<PostBody>, addResult: Outcome<Option<R>>, roundTrip: Option<R>): (r: PostResponse<R>)
    ensures body.Threw? ==> r == PostResponse(500, PostError, None)
    ensures body.Returned? && !Complete(body.value) ==> r == PostResponse(400, MissingFields, None)
    ensures body.Returned? && Complete(body.value) ==>
      r.added == Some(NewCoin(body.value.symbol.value, body.value.market.value,
                              body.value.koreanName.value, body.value.englishName.value))
    ensures body.Returned? && Complete(body.value) && addResult.Threw? ==> r.status == 500 && r.reply == PostError
    ensures body.Returned? && Complete(body.value) && addResult == Returned(None) ==>
      r.status == 201 && r.reply == AddedNothing
    ensures body.Returned? && Complete(body.value) && addResult.Returned? && addResult.value.Some? ==>
      r.status == 201 && r.reply == Added(SafeJsonify(addResult.value, roundTrip))
  {
    match body
    case Threw => PostResponse(500, PostError, None)
    case Returned(b) =>
      if !Complete(b) then PostResponse(400, MissingFields, None)
      else
        var coin := NewCoin(b.symbol.value, b.market.value, b.koreanName.value, b.englishName.value);
        match addResult
        case Threw => PostResponse(500, PostError, Some(coin))
        case Returned(result) =>
          if result.None? then PostResponse(201, AddedNothing, Some(coin))
          else PostResponse(201, Added(SafeJsonify(result, roundTrip)), Some(coin))
  }

  /** The store is never asked to add a coin whose four fields are not all non-empty. */
  lemma AddedCoinIsComplete<R>(body: Outcome<PostBody>, addResult: Outcome<Option<R>>, roundTrip: Option<R>)
    requires Post(body, addResult, roundTrip).added.Some?
    ensures body.Returned? && Complete(body.value)
    ensures var c := Post(body, addResult, roundTrip).added.value;
      c.symbol != "" && c.market != "" && c.koreanName != "" && c.englishName != ""
  {
  }
}
