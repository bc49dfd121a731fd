/** The `AddCoinForm` component: the market search filter and the `addCoin` handler. */
module AddCoinForm {
  import opened Wrappers
  import opened Seqs
  import opened Text

  /** `MarketInfo`: one Upbit market. */
  datatype MarketInfo = MarketInfo(market: string, koreanName: string, englishName: string,
                                   marketWarning: Option<string>)

  /** The body `addCoin` posts to the coin list endpoint. */
  datatype CoinRequest = CoinRequest(symbol: string, market: string, koreanName: string, englishName: string)

  /** What the POST request came back with: a thrown network error, or a response. */
  datatype PostOutcome = NetworkFailure(message: string) | Response(ok: bool)

  const NoSelectionMessage: string := "코인을 선택해주세요."
  const NotFoundMessage: string := "선택한 코인 정보를 찾을 수 없습니다."
  const AddFailedMessage: string := "코인 추가에 실패했습니다."

  function SuccessMessage(info: MarketInfo, selected: string): string {
    info.koreanName + "(" + selected + ") 코인이 추가되었습니다."
  }

  /** The search predicate: the lower-cased term occurs in the lower-cased market code,
      Korean name or English name. */
  predicate MatchesTerm(m: MarketInfo, searchTerm: string) {
    var term := Lower(searchTerm);
    Contains(Lower(m.market), term) || Contains(Lower(m.koreanName), term) || Contains(Lower(m.englishName), term)
  }

  /** The filter effect: a blank term shows every market; any other term, not trimmed, keeps the
      matching markets in their order. */
  function FilterMarkets(markets: seq<MarketInfo>, searchTerm: string): (r: seq<MarketInfo>)
    ensures AllSpace(searchTerm) ==> r == markets
    ensures !AllSpace(searchTerm) ==> IsSubsequence(r, markets)
    ensures !AllSpace(searchTerm) ==> forall m :: m in r <==> m in markets && MatchesTerm(m, searchTerm)
    ensures !AllSpace(searchTerm) ==>
      forall m :: multiset(r)[m] == if MatchesTerm(m, searchTerm) then multiset(markets)[m] else 0
  {
    FilterCounts(markets, (m: MarketInfo) => MatchesTerm(m, searchTerm));
    if Trim(searchTerm) == "" then markets
    else Filter(markets, (m: MarketInfo) => MatchesTerm(m, searchTerm))
  }

  /** `markets.find(m => m.market === code)` */
  function FindMarket(markets: seq<MarketInfo>, code: string): (r: Option<MarketInfo>)
    ensures r.None? <==> forall m :: m in markets ==> m.market != code
    ensures r.Some? ==> (exists i :: 0 <= i < |markets| && markets[i] == r.value
                          && r.value.market == code && forall j :: 0 <= j < i ==> markets[j].market != code)
  {
    if markets == [] then None
    else if markets[0].market == code then Some(markets[0])
    else
      var r := FindMarket(markets[1..], code);
      FirstMatchShift(markets, code, r);
      r
  }

  lemma FirstMatchShift(markets: seq<MarketInfo>, code: string, r: Option<MarketInfo>)
    requires markets != [] && markets[0].market != code
    requires r.Some? ==> (exists i :: 0 <= i < |markets[1..]| && markets[1..][i] == r.value
                           && r.value.market == code && forall j :: 0 <= j < i ==> markets[1..][j].market != code)
    ensures r.Some? ==> (exists i :: 0 <= i < |markets| && markets[i] == r.value
                          && r.value.market == code && forall j :: 0 <= j < i ==> markets[j].market != code)
  {
    if r.Some? {
      var i :| 0 <= i < |markets[1..]| && markets[1..][i] == r.value
        && r.value.market == code && forall j :: 0 <= j < i ==> markets[1..][j].market != code;
      assert markets[i + 1] == r.value;
      assert forall j :: 1 <= j < i + 1 ==> markets[j] == markets[1..][j - 1];
    }
  }

  class Form {
    var loading: bool
    var error: Option<string>
    var success: Option<string>
    var markets: seq<MarketInfo>
    var filteredMarkets: seq<MarketInfo>
    var selectedMarket: string
    var searchTerm: string
    /** The POST bodies sent so far. */
    ghost var sent: seq<CoinRequest>

    /** The form once the market list has loaded. */
    constructor (markets: seq<MarketInfo>)
      ensures this.markets == markets && filteredMarkets == markets
      ensures !loading && error == None && success == None
      ensures selectedMarket == "" && searchTerm == "" && sent == []
    {
      this.markets := markets;
      filteredMarkets := markets;
      loading := false;
      error := None;
      success := None;
      selectedMarket := "";
      searchTerm := "";
      sent := [];
    }

    /** The effect that reruns when the search term or the market list changes. */
    method ApplySearch()
      modifies this`filteredMarkets
      ensures filteredMarkets == FilterMarkets(markets, searchTerm)
    {
      filteredMarkets := FilterMarkets(markets, searchTerm);
    }

    /** `addCoin`; `outcome` is what the POST request yields when one is sent. */
    method AddCoin(outcome: PostOutcome)
      modifies this
      ensures markets == old(markets) && filteredMarkets == old(filteredMarkets)
      ensures searchTerm == old(searchTerm)
      // Nothing selected: an error, and no request.
      ensures old(selectedMarket) == "" ==>
        error == Some(NoSelectionMessage) && sent == old(sent) && loading == old(loading)
        && success == old(success) && selectedMarket == ""
      // Selected code not among the markets: an error, and no request.
      ensures old(selectedMarket) != "" && FindMarket(markets, old(selectedMarket)).None? ==>
        error == Some(NotFoundMessage) && success == None && sent == old(sent) && !loading
        && selectedMarket == old(selectedMarket)
      // Otherwise exactly one request, whose market is the code's quote currency.
      ensures old(selectedMarket) != "" && FindMarket(markets, old(selectedMarket)).Some? ==>
        var info := FindMarket(markets, old(selectedMarket)).value;
        && sent == old(sent) + [CoinRequest(old(selectedMarket), BeforeDash(info.market),
                                            info.koreanName, info.englishName)]
        && !loading
        && (outcome == Response(true) ==>
              success == Some(SuccessMessage(info, old(selectedMarket))) && error == None
              && selectedMarket == "")
        && (outcome == Response(false) ==>
              error == Some(AddFailedMessage) && success == None && selectedMarket == old(selectedMarket))
        && (outcome.NetworkFailure? ==>
              error == Some(outcome.message) && success == None && selectedMarket == old(selectedMarket))
    {
      if selectedMarket == "" {
        error := Some(NoSelectionMessage);
        return;
      }
      loading := true;
      success := None;
      error := None;
      var found := FindMarket(markets, selectedMarket);
      if found.None? {
        error := Some(NotFoundMessage);
      } else {
        var info := found.value;
        sent := sent + [CoinRequest(selectedMarket, BeforeDash(info.market), info.koreanName, info.englishName)];
        match outcome
        case NetworkFailure(message) =>
          error := Some(message);
        case Response(ok) =>
          if ok {
            success := Some(SuccessMessage(info, selectedMarket));
            selectedMarket := "";
          } else {
            error := Some(AddFailedMessage);
          }
      }
      loading := false;
    }
  }
}
