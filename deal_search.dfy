/**
 * The period search window: the deal list of a period, its client-side
 * filters, the query of a search, the expanded history rows, the total of
 * the shown amounts and the period selected when the window opens.
 * The component's state slots are the fields of `SearchWindow`.
 */
module DealPeriodSearch {
  import opened Wrappers
  import Text
  import Periods
  import Deals
  import opened Sequences

  /** The keys the window puts in a deal list query. */
  datatype QueryKey = PeriodKey | FromDateKey | ToDateKey | KeywordKey | ViewKey

  /** The key as it appears in the query string. */
  function KeyName(k: QueryKey): string {
    match k
    case PeriodKey => "period"
    case FromDateKey => "from_date"
    case ToDateKey => "to_date"
    case KeywordKey => "keyword"
    case ViewKey => "view"
  }

  /** The place of each key in the order the window appends them. */
  function KeyRank(k: QueryKey): nat {
    match k
    case PeriodKey => 0
    case FromDateKey => 1
    case ToDateKey => 2
    case KeywordKey => 3
    case ViewKey => 4
  }

  /** One `URLSearchParams` entry. */
  datatype Param = Param(key: QueryKey, value: string)

  /** `v && v.trim()`: the value is there and holds more than whitespace. */
  predicate Filled(v: string) {
    v != "" && Text.Trim(v) != ""
  }

  /** A value is filled exactly when it is not blank. */
  lemma FilledIffNotBlank(v: string)
    ensures Filled(v) <==> !Text.IsBlank(v)
  {
    if v == "" {
      assert Text.TrimStart(v) == "";
    }
  }

  /** The keys come in the window's order, each at most once. */
  predicate Ascending(params: seq<Param>) {
    forall i, j :: 0 <= i < j < |params| ==> KeyRank(params[i].key) < KeyRank(params[j].key)
  }

  /** Appending an entry ranked after every present key keeps the order. */
  lemma AppendWhen(params: seq<Param>, present: bool, p: Param)
    requires Ascending(params)
    requires forall i :: 0 <= i < |params| ==> KeyRank(params[i].key) < KeyRank(p.key)
    ensures Ascending(params + When(present, p))
    ensures forall i :: 0 <= i < |params + When(present, p)| ==> KeyRank((params + When(present, p))[i].key) <= KeyRank(p.key)
  {
  }

  /** `params.toString()` without percent-encoding: `key=value` pairs joined by '&'. */
  function QueryString(params: seq<Param>): string {
    if |params| == 0 then ""
    else if |params| == 1 then KeyName(params[0].key) + "=" + params[0].value
    else KeyName(params[0].key) + "=" + params[0].value + "&" + QueryString(params[1..])
  }

  const DealsEndpoint: string := "/v1/api/deals"

  /** The endpoint of a deal list request with the given query. */
  function DealsUrl(params: seq<Param>): string {
    DealsEndpoint + "?" + QueryString(params)
  }

  /** The entry `p` when `present`, nothing otherwise. */
  function When(present: bool, p: Param): seq<Param> {
    if present then [p] else []
  }

  /**
   * The query `handleSearch` builds: `period` first, then each of
   * `from_date`, `to_date` and `keyword` whose value is filled, then
   * `view=history` when history display is on.
   */
  function SearchQuery(period: string, dateFrom: string, dateTo: string, keyword: string, showHistory: bool)
    : seq<Param>
  {
    [Param(PeriodKey, period)]
      + When(Filled(dateFrom), Param(FromDateKey, dateFrom))
      + When(Filled(dateTo), Param(ToDateKey, dateTo))
      + When(Filled(keyword), Param(KeywordKey, keyword))
      + When(showHistory, Param(ViewKey, "history"))
  }

  /** `handleSearch` appending its parameters one by one. */
  method SearchParams(period: string, dateFrom: string, dateTo: string, keyword: string, showHistory: bool)
    returns (params: seq<Param>)
    ensures params == SearchQuery(period, dateFrom, dateTo, keyword, showHistory)
  {
    params := [Param(PeriodKey, period)];
    if Filled(dateFrom) {
      params := params + [Param(FromDateKey, dateFrom)];
    }
    if Filled(dateTo) {
      params := params + [Param(ToDateKey, dateTo)];
    }
    if Filled(keyword) {
      params := params + [Param(KeywordKey, keyword)];
    }
    if showHistory {
      params := params + [Param(ViewKey, "history")];
    }
  }

  /**
   * The search query names the period first, holds each filter exactly when
   * it is filled and the history flag exactly when it is on.
   */
  lemma SearchQueryContents(period: string, dateFrom: string, dateTo: string, keyword: string, showHistory: bool)
    ensures var q := SearchQuery(period, dateFrom, dateTo, keyword, showHistory);
      && q[0] == Param(PeriodKey, period)
      && (Param(FromDateKey, dateFrom) in q <==> !Text.IsBlank(dateFrom))
      && (Param(ToDateKey, dateTo) in q <==> !Text.IsBlank(dateTo))
      && (Param(KeywordKey, keyword) in q <==> !Text.IsBlank(keyword))
      && (Param(ViewKey, "history") in q <==> showHistory)
  {
    FilledIffNotBlank(dateFrom);
    FilledIffNotBlank(dateTo);
    FilledIffNotBlank(keyword);
  }

  /** The search query's keys come in the window's order, each at most once. */
  lemma SearchQueryAscending(period: string, dateFrom: string, dateTo: string, keyword: string, showHistory: bool)
    ensures Ascending(SearchQuery(period, dateFrom, dateTo, keyword, showHistory))
  {
    var q := [Param(PeriodKey, period)];
    AppendWhen(q, Filled(dateFrom), Param(FromDateKey, dateFrom));
    q := q + When(Filled(dateFrom), Param(FromDateKey, dateFrom));
    AppendWhen(q, Filled(dateTo), Param(ToDateKey, dateTo));
    q := q + When(Filled(dateTo), Param(ToDateKey, dateTo));
    AppendWhen(q, Filled(keyword), Param(KeywordKey, keyword));
    q := q + When(Filled(keyword), Param(KeywordKey, keyword));
    AppendWhen(q, showHistory, Param(ViewKey, "history"));
  }

  /** A period bound `loadDeals` sends: filled and not the placeholder. */
  predicate SendsBound(d: string) {
    Filled(d) && d != Periods.Unset
  }

  /**
   * The query `loadDeals` builds: `period`, then the bounds of the listed
   * period of that name that are set, `from_date` before `to_date`.
   */
  function PeriodQuery(periods: seq<Periods.Period>, periodName: string): seq<Param> {
    var found := Periods.Find(periods, periodName);
    [Param(PeriodKey, periodName)]
      + (if found.Some? then
           When(SendsBound(found.value.fromDate), Param(FromDateKey, found.value.fromDate))
           + When(SendsBound(found.value.toDate), Param(ToDateKey, found.value.toDate))
         else [])
  }

  /** `loadDeals` appending its parameters one by one. */
  method PeriodParams(periods: seq<Periods.Period>, periodName: string) returns (params: seq<Param>)
    ensures params == PeriodQuery(periods, periodName)
  {
    var selectedPeriodData := Periods.Find(periods, periodName);
    params := [Param(PeriodKey, periodName)];
    if selectedPeriodData.Some? {
      var p := selectedPeriodData.value;
      if SendsBound(p.fromDate) {
        params := params + [Param(FromDateKey, p.fromDate)];
      }
      if SendsBound(p.toDate) {
        params := params + [Param(ToDateKey, p.toDate)];
      }
    }
  }

  /**
   * The period query names the period; an unlisted period sends nothing
   * else; a listed one adds each bound exactly when it is set and is not
   * the placeholder; the keys come in order.
   */
  lemma PeriodQueryContents(periods: seq<Periods.Period>, periodName: string)
    ensures var q := PeriodQuery(periods, periodName);
      var found := Periods.Find(periods, periodName);
      && q[0] == Param(PeriodKey, periodName)
      && (found.None? ==> q == [Param(PeriodKey, periodName)])
      && (found.Some? ==>
           && (var from := found.value.fromDate;
               Param(FromDateKey, from) in q <==> !Text.IsBlank(from) && from != Periods.Unset)
           && (var to := found.value.toDate;
               Param(ToDateKey, to) in q <==> !Text.IsBlank(to) && to != Periods.Unset))
      && (forall i :: 0 <= i < |q| ==> q[i].key != KeywordKey && q[i].key != ViewKey)
      && Ascending(q)
  {
    var found := Periods.Find(periods, periodName);
    if found.Some? {
      FilledIffNotBlank(found.value.fromDate);
      FilledIffNotBlank(found.value.toDate);
      var q := [Param(PeriodKey, periodName)];
      AppendWhen(q, SendsBound(found.value.fromDate), Param(FromDateKey, found.value.fromDate));
      q := q + When(SendsBound(found.value.fromDate), Param(FromDateKey, found.value.fromDate));
      AppendWhen(q, SendsBound(found.value.toDate), Param(ToDateKey, found.value.toDate));
      assert PeriodQuery(periods, periodName) == q + When(SendsBound(found.value.toDate), Param(ToDateKey, found.value.toDate));
    }
  }

  /** The test `applyFilters` puts a deal to; an empty filter lets every deal through. */
  predicate KeepDeal(d: Deals.Deal, dateFrom: string, dateTo: string, partner: string) {
    && (dateFrom == "" || Text.LexAtMost(dateFrom, d.dealDate))
    && (dateTo == "" || Text.LexAtMost(d.dealDate, dateTo))
    && (partner == "" || Text.ContainsIgnoringCase(d.dealPartner, partner))
  }

  /** The deals `applyFilters` keeps. */
  function FilterDeals(deals: seq<Deals.Deal>, dateFrom: string, dateTo: string, partner: string)
    : seq<Deals.Deal>
  {
    Filter(deals, d => KeepDeal(d, dateFrom, dateTo, partner))
  }

  /** The filtered list keeps the order of the loaded list. */
  lemma FilterDealsInOrder(deals: seq<Deals.Deal>, dateFrom: string, dateTo: string, partner: string)
    ensures IsSubsequence(FilterDeals(deals, dateFrom, dateTo, partner), deals)
  {
    FilterIsSubsequence(deals, d => KeepDeal(d, dateFrom, dateTo, partner));
  }

  /**
   * A deal is kept exactly when it is loaded, its date is on or after the
   * start filter and on or before the end filter (each when set, both
   * inclusive) and its partner contains the partner filter, ignoring case.
   */
  lemma FilterDealsExactly(deals: seq<Deals.Deal>, dateFrom: string, dateTo: string, partner: string)
    ensures forall d :: d in FilterDeals(deals, dateFrom, dateTo, partner) <==>
      && d in deals
      && (dateFrom != "" ==> dateFrom == d.dealDate || Text.LexLess(dateFrom, d.dealDate))
      && (dateTo != "" ==> d.dealDate == dateTo || Text.LexLess(d.dealDate, dateTo))
      && (partner != "" ==> Text.ContainsIgnoringCase(d.dealPartner, partner))
  {
    forall d: Deals.Deal
      ensures Text.LexAtMost(dateFrom, d.dealDate) <==> dateFrom == d.dealDate || Text.LexLess(dateFrom, d.dealDate)
      ensures Text.LexAtMost(d.dealDate, dateTo) <==> d.dealDate == dateTo || Text.LexLess(d.dealDate, dateTo)
    {
      Text.AtMostIffLessOrEqual(dateFrom, d.dealDate);
      Text.AtMostIffLessOrEqual(d.dealDate, dateTo);
    }
  }

  /** With all three filters empty every loaded deal is shown. */
  lemma NoFilterKeepsAll(deals: seq<Deals.Deal>)
    ensures FilterDeals(deals, "", "", "") == deals
  {
    FilterAllPass(deals, d => KeepDeal(d, "", "", ""));
  }

  /** `toggleExpand`: the deal number leaves the set when it was in it, and joins it otherwise. */
  function Toggled(expanded: set<string>, no: string): (r: set<string>)
    ensures no in r <==> no !in expanded
    ensures forall x :: x != no ==> (x in r <==> x in expanded)
  {
    if no in expanded then expanded - {no} else expanded + {no}
  }

  /** Toggling the same deal twice restores the set. */
  lemma ToggleTwice(expanded: set<string>, no: string)
    ensures Toggled(Toggled(expanded, no), no) == expanded
  {
  }

  /** `handleExpandAll`: the numbers of the shown deals that have older versions. */
  method ExpandableNos(deals: seq<Deals.Deal>) returns (nos: set<string>)
    ensures nos == set d | d in deals && d.hasChildren :: d.no
  {
    nos := {};
    for i := 0 to |deals|
      invariant nos == set d | d in deals[..i] && d.hasChildren :: d.no
    {
      assert deals[..i + 1] == deals[..i] + [deals[i]];
      if deals[i].hasChildren {
        nos := nos + {deals[i].no};
      }
    }
    assert deals[..|deals|] == deals;
  }

  /**
   * `getTotalAmount`: the prices added up from the left, as `reduce` does; with
   * no negative price the total is never negative and covers every single price.
   */
  function TotalAmount(deals: seq<Deals.Deal>): (r: int)
    ensures (forall i :: 0 <= i < |deals| ==> deals[i].dealPrice >= 0) ==>
      r >= 0 && forall i :: 0 <= i < |deals| ==> deals[i].dealPrice <= r
  {
    if |deals| == 0 then 0 else TotalAmount(deals[..|deals| - 1]) + deals[|deals| - 1].dealPrice
  }

  /** The total of two lists shown one after the other is the sum of their totals. */
  lemma {:induction false} TotalAmountAppend(a: seq<Deals.Deal>, b: seq<Deals.Deal>)
    ensures TotalAmount(a + b) == TotalAmount(a) + TotalAmount(b)
    decreases |b|
  {
    if |b| > 0 {
      assert (a + b)[..|a + b| - 1] == a + b[..|b| - 1];
      TotalAmountAppend(a, b[..|b| - 1]);
    } else {
      assert a + b == a;
    }
  }

  const LoadDealsFailedMessage: string := "取引データの取得に失敗しました。"
  const SearchFailedMessage: string := "検索に失敗しました。"

  /** What a `GET /v1/api/deals` call gave back. */
  datatype DealsReply =
    | DealsThrew
    | DealsReplied(success: bool, deals: Option<seq<Deals.Deal>>)

  /** The list a window takes from the reply; an empty list when the call failed. */
  function ListedDeals(reply: DealsReply): seq<Deals.Deal> {
    if reply.DealsReplied? && reply.success && reply.deals.Some? then reply.deals.value else []
  }

  class SearchWindow {
    var periods: seq<Periods.Period>
    var selectedPeriod: string
    var deals: seq<Deals.Deal>
    var filteredDeals: seq<Deals.Deal>
    var loading: bool
    var filterDateFrom: string
    var filterDateTo: string
    var filterPartner: string
    var showHistory: bool
    var expandedDeals: set<string>

    constructor ()
      ensures periods == [] && selectedPeriod == "" && deals == [] && filteredDeals == []
      ensures !loading && filterDateFrom == "" && filterDateTo == "" && filterPartner == ""
      ensures !showHistory && expandedDeals == {}
    {
      periods, selectedPeriod, deals, filteredDeals := [], "", [], [];
      loading, filterDateFrom, filterDateTo, filterPartner := false, "", "", "";
      showHistory, expandedDeals := false, {};
    }

    /**
     * `loadPeriods(initialPeriod)`: the requested period when listed, else the
     * first, becomes selected, and the date filters take its set bounds.
     */
    method LoadPeriods(initialPeriod: string, reply: Periods.PeriodsReply)
      modifies this`periods, this`selectedPeriod, this`filterDateFrom, this`filterDateTo
      ensures Periods.ListedPeriods(reply).None? ==>
        && periods == [] && selectedPeriod == old(selectedPeriod)
        && filterDateFrom == old(filterDateFrom) && filterDateTo == old(filterDateTo)
      ensures Periods.ListedPeriods(reply).Some? ==>
        var list := Periods.ListedPeriods(reply).value;
        var choice := Periods.ChooseInitial(list, initialPeriod);
        && periods == list
        && (choice.Some? ==>
             && selectedPeriod == choice.value.name
             && filterDateFrom == Periods.BoundFilter(choice.value.fromDate)
             && filterDateTo == Periods.BoundFilter(choice.value.toDate))
        && (choice.None? ==>
             (selectedPeriod == old(selectedPeriod)
              && filterDateFrom == old(filterDateFrom) && filterDateTo == old(filterDateTo)))
    {
      var listed := Periods.ListedPeriods(reply);
      if listed.None? {
        periods := [];
        return;
      }
      var list := listed.value;
      periods := list;
      var selectedPeriodData := Periods.ChooseInitial(list, initialPeriod);
      if selectedPeriodData.Some? {
        var p := selectedPeriodData.value;
        selectedPeriod := p.name;
        if Periods.IsSetBound(p.fromDate) {
          filterDateFrom := p.fromDate;
        } else {
          filterDateFrom := "";
        }
        if Periods.IsSetBound(p.toDate) {
          filterDateTo := p.toDate;
        } else {
          filterDateTo := "";
        }
      }
    }

    /** `loadDeals(periodName)`: the request it sends, then the loaded list; the filtered list is cleared. */
    method LoadDeals(periodName: string, reply: DealsReply) returns (endpoint: string, error: Option<string>)
      modifies this`deals, this`filteredDeals, this`loading
      ensures endpoint == DealsUrl(PeriodQuery(periods, periodName))
      ensures deals == ListedDeals(reply) && filteredDeals == [] && !loading
      ensures error == (if reply.DealsThrew? then Some(LoadDealsFailedMessage) else None)
    {
      loading := true;
      var params := PeriodParams(periods, periodName);
      endpoint := DealsUrl(params);
      deals := ListedDeals(reply);
      filteredDeals := [];
      error := if reply.DealsThrew? then Some(LoadDealsFailedMessage) else None;
      loading := false;
    }

    /** `applyFilters`: each set filter narrows the list in turn. */
    method ApplyFilters()
      modifies this`filteredDeals
      ensures filteredDeals == FilterDeals(deals, filterDateFrom, filterDateTo, filterPartner)
    {
      var dateFrom, dateTo, partner := filterDateFrom, filterDateTo, filterPartner;
      var filtered := deals;
      ghost var fromTest := (d: Deals.Deal) => KeepDeal(d, dateFrom, "", "");
      ghost var rangeTest := (d: Deals.Deal) => KeepDeal(d, dateFrom, dateTo, "");
      if dateFrom != "" {
        FilterSameTest(deals, fromTest, (d: Deals.Deal) => Text.LexAtMost(dateFrom, d.dealDate));
        filtered := Filter(filtered, (d: Deals.Deal) => Text.LexAtMost(dateFrom, d.dealDate));
      } else {
        FilterAllPass(deals, fromTest);
      }
      assert filtered == Filter(deals, fromTest);
      if dateTo != "" {
        FilterTwice(deals, fromTest, (d: Deals.Deal) => Text.LexAtMost(d.dealDate, dateTo), rangeTest);
        filtered := Filter(filtered, (d: Deals.Deal) => Text.LexAtMost(d.dealDate, dateTo));
      } else {
        FilterSameTest(deals, fromTest, rangeTest);
      }
      assert filtered == Filter(deals, rangeTest);
      var allTest := (d: Deals.Deal) => KeepDeal(d, dateFrom, dateTo, partner);
      if partner != "" {
        FilterTwice(deals, rangeTest, (d: Deals.Deal) => Text.ContainsIgnoringCase(d.dealPartner, partner), allTest);
        filtered := Filter(filtered, (d: Deals.Deal) => Text.ContainsIgnoringCase(d.dealPartner, partner));
      } else {
        FilterSameTest(deals, rangeTest, allTest);
      }
      filteredDeals := filtered;
    }

    /** `handleExpandAll`: exactly the shown deals that have older versions are expanded. */
    method HandleExpandAll()
      modifies this`expandedDeals
      ensures expandedDeals == set d | d in filteredDeals && d.hasChildren :: d.no
    {
      expandedDeals := ExpandableNos(filteredDeals);
    }

    /** `handleCollapseAll`: nothing is expanded. */
    method HandleCollapseAll()
      modifies this`expandedDeals
      ensures expandedDeals == {}
    {
      expandedDeals := {};
    }

    /** `toggleExpand(dealNO)`: flips that one number and leaves the others. */
    method ToggleExpand(dealNo: string)
      modifies this`expandedDeals
      ensures expandedDeals == Toggled(old(expandedDeals), dealNo)
    {
      var newSet := expandedDeals;
      if dealNo in newSet {
        newSet := newSet - {dealNo};
      } else {
        newSet := newSet + {dealNo};
      }
      expandedDeals := newSet;
    }

    /**
     * `handleSearch`: with no period selected the result is cleared and no
     * request is made; otherwise the query of `SearchParams` is sent and the
     * result replaced by the reply's list (empty on failure).
     */
    method HandleSearch(reply: DealsReply) returns (endpoint: Option<string>, error: Option<string>)
      modifies this`filteredDeals, this`loading
      ensures selectedPeriod == "" ==> endpoint.None? && error.None? && filteredDeals == [] && loading == old(loading)
      ensures selectedPeriod != "" ==>
        && endpoint.Some?
        && endpoint.value == DealsUrl(SearchQuery(selectedPeriod, filterDateFrom, filterDateTo, filterPartner, showHistory))
        && filteredDeals == ListedDeals(reply)
        && error == (if reply.DealsThrew? then Some(SearchFailedMessage) else None)
        && !loading
    {
      if selectedPeriod == "" {
        filteredDeals := [];
        return None, None;
      }
      loading := true;
      var params := SearchParams(selectedPeriod, filterDateFrom, filterDateTo, filterPartner, showHistory);
      endpoint := Some(DealsUrl(params));
      filteredDeals := ListedDeals(reply);
      error := if reply.DealsThrew? then Some(SearchFailedMessage) else None;
      loading := false;
    }

    /** `handleClearFilters`: the three filters and the shown list are emptied. */
    method HandleClearFilters()
      modifies this`filterDateFrom, this`filterDateTo, this`filterPartner, this`filteredDeals
      ensures filterDateFrom == "" && filterDateTo == "" && filterPartner == "" && filteredDeals == []
    {
      filterDateFrom, filterDateTo, filterPartner := "", "", "";
      filteredDeals := [];
    }

    /** `handleClearSearchWord`: only the partner filter is emptied. */
    method HandleClearSearchWord()
      modifies this`filterPartner
      ensures filterPartner == ""
    {
      filterPartner := "";
    }

    /** `getTotalAmount` over the shown deals. */
    function GetTotalAmount(): (r: int)
      reads this
      ensures r == TotalAmount(filteredDeals)
    {
      TotalAmount(filteredDeals)
    }
  }
}
