/**
 * The web client's transaction API (`transactionApi`): how `list` turns its optional filters
 * into a query string, and the query of `getMonthlySummary`. The HTTP call itself is not
 * modelled; an operation here yields the URL it requests.
 */
module TransactionApi {
  import opened Wrappers

  const ListPath := "/api/v1/transactions"
  const MonthlySummaryPath := "/api/v1/transactions/summary/monthly"

  /** `TransactionFilters`: every field may be left undefined. */
  datatype TransactionFilters = TransactionFilters(
    startDate: Option<string>,
    endDate: Option<string>,
    expenseTypeId: Option<string>,
    page: Option<int>,
    pageSize: Option<int>)

  /** One `URLSearchParams` entry. */
  datatype Param = Param(key: string, value: string)

  /** A string filter is truthy when it is defined and not empty. */
  predicate Truthy(s: Option<string>)
  {
    s.Some? && s.value != ""
  }

  function Digit(d: nat): (c: char)
    requires d < 10
    ensures '0' <= c <= '9'
    ensures DigitValue(c) == d
  {
    ('0' as int + d) as char
  }

  function DigitValue(c: char): nat
  {
    if '0' <= c <= '9' then (c as int - '0' as int) as nat else 0
  }

  /** Decimal digits of a natural number, most significant first, without leading zeros. */
  function NatToString(n: nat): (s: string)
    ensures 1 <= |s|
    ensures forall i :: 0 <= i < |s| ==> '0' <= s[i] <= '9'
    ensures |s| > 1 ==> s[0] != '0'
  {
    if n < 10 then [Digit(n)] else NatToString(n / 10) + [Digit(n % 10)]
  }

  /** The number a string of decimal digits denotes. */
  function DigitsValue(s: string): nat
  {
    if s == [] then 0 else DigitsValue(s[..|s| - 1]) * 10 + DigitValue(s[|s| - 1])
  }

  /** `n.toString()` for an integer-valued number. */
  function IntToString(n: int): (s: string)
    ensures 1 <= |s|
    ensures n >= 0 ==> s == NatToString(n)
    ensures n < 0 ==> s == "-" + NatToString(-n)
  {
    if n < 0 then "-" + NatToString(-n) else NatToString(n)
  }

  /** Reading the digits back gives the number: `toString` loses nothing. */
  lemma {:induction false} NatToStringRoundTrip(n: nat)
    ensures DigitsValue(NatToString(n)) == n
  {
    var s := NatToString(n);
    if n >= 10 {
      NatToStringRoundTrip(n / 10);
      assert s[..|s| - 1] == NatToString(n / 10);
      assert DigitValue(s[|s| - 1]) == n % 10;
    } else {
      assert DigitValue(s[0]) == n;
    }
  }

  /** `Number(s)` on what `toString` prints: an optional minus sign, then digits. */
  function ParseInt(s: string): int
  {
    if |s| > 0 && s[0] == '-' then -(DigitsValue(s[1..]) as int) else DigitsValue(s)
  }

  lemma IntToStringRoundTrip(n: int)
    ensures ParseInt(IntToString(n)) == n
  {
    var s := IntToString(n);
    if n < 0 {
      assert s[1..] == NatToString(-n);
      NatToStringRoundTrip(-n);
    } else {
      assert '0' <= s[0] <= '9';
      NatToStringRoundTrip(n);
    }
  }

  /** Different numbers print differently, so the `page` parameter identifies the page. */
  lemma IntToStringInjective(m: int, n: int)
    requires IntToString(m) == IntToString(n)
    ensures m == n
  {
    IntToStringRoundTrip(m);
    IntToStringRoundTrip(n);
  }

  /** One `key=value` entry; percent-encoding is not modelled. */
  function Render(p: Param): (s: string)
    ensures |s| > |p.key|
  {
    p.key + "=" + p.value
  }

  /** `URLSearchParams.toString()`: the entries in order, joined by '&'. */
  function QueryString(ps: seq<Param>): (s: string)
    ensures s == "" <==> ps == []
  {
    if ps == [] then ""
    else if |ps| == 1 then Render(ps[0])
    else Render(ps[0]) + "&" + QueryString(ps[1..])
  }

  function FilterOf(filters: Option<TransactionFilters>): TransactionFilters
  {
    filters.GetOr(TransactionFilters(None, None, None, None, None))
  }

  /**
   * The entries `list` appends: the three string filters when truthy, then `page` and
   * `pageSize` whenever they are defined.
   */
  function ListParams(filters: Option<TransactionFilters>): (r: seq<Param>)
    ensures |r| <= 5
    ensures r == [] <==>
      (var f := FilterOf(filters);
       !Truthy(f.startDate) && !Truthy(f.endDate) && !Truthy(f.expenseTypeId) && f.page.None? && f.pageSize.None?)
  {
    var f := FilterOf(filters);
    StringEntry("startDate", f.startDate) + StringEntry("endDate", f.endDate)
    + StringEntry("expenseTypeId", f.expenseTypeId)
    + IntEntry("page", f.page) + IntEntry("pageSize", f.pageSize)
  }

  /** The entry for a string filter: present only when the value is truthy. */
  function StringEntry(key: string, v: Option<string>): (r: seq<Param>)
    ensures |r| <= 1 && forall i :: 0 <= i < |r| ==> r[i].key == key
  {
    if Truthy(v) then [Param(key, v.value)] else []
  }

  /** The entry for a number filter: present whenever the value is defined. */
  function IntEntry(key: string, v: Option<int>): (r: seq<Param>)
    ensures |r| <= 1 && forall i :: 0 <= i < |r| ==> r[i].key == key
  {
    if v.Some? then [Param(key, IntToString(v.value))] else []
  }

  /** The URL `list` requests: the bare path when there is no query. */
  function ListUrl(filters: Option<TransactionFilters>): (r: string)
    ensures |r| >= |ListPath| && r[..|ListPath|] == ListPath
    ensures |r| > |ListPath| <==> ListParams(filters) != []
  {
    var q := QueryString(ListParams(filters));
    if q == "" then ListPath else ListPath + "?" + q
  }

  /** `transactionApi.list`: append the parameters one by one, then build the URL. */
  method List(filters: Option<TransactionFilters>) returns (url: string)
    ensures url == ListUrl(filters)
  {
    var f := FilterOf(filters);
    var params: seq<Param> := [];
    if Truthy(f.startDate) {
      params := params + [Param("startDate", f.startDate.value)];
    }
    ghost var sent := StringEntry("startDate", f.startDate);
    assert params == sent;
    if Truthy(f.endDate) {
      params := params + [Param("endDate", f.endDate.value)];
    }
    sent := sent + StringEntry("endDate", f.endDate);
    assert params == sent;
    if Truthy(f.expenseTypeId) {
      params := params + [Param("expenseTypeId", f.expenseTypeId.value)];
    }
    sent := sent + StringEntry("expenseTypeId", f.expenseTypeId);
    assert params == sent;
    if f.page.Some? {
      params := params + [Param("page", IntToString(f.page.value))];
    }
    sent := sent + IntEntry("page", f.page);
    assert params == sent;
    if f.pageSize.Some? {
      params := params + [Param("pageSize", IntToString(f.pageSize.value))];
    }
    sent := sent + IntEntry("pageSize", f.pageSize);
    assert params == ListParams(filters);
    var queryString := QueryString(params);
    url := if queryString != "" then ListPath + "?" + queryString else ListPath;
  }

  /** The position of each key in the fixed order the parameters are appended in. */
  function KeyRank(key: string): int
  {
    if key == "startDate" then 0
    else if key == "endDate" then 1
    else if key == "expenseTypeId" then 2
    else if key == "page" then 3
    else if key == "pageSize" then 4
    else 5
  }

  /** Entries appear in the order startDate, endDate, expenseTypeId, page, pageSize, each at most once. */
  lemma ListParamsOrdered(filters: Option<TransactionFilters>)
    ensures RankedBelow(ListParams(filters), 5)
  {
    var f := FilterOf(filters);
    var a, b, c := StringEntry("startDate", f.startDate), StringEntry("endDate", f.endDate), StringEntry("expenseTypeId", f.expenseTypeId);
    var d, e := IntEntry("page", f.page), IntEntry("pageSize", f.pageSize);
    KeyRanks();
    AppendRanked([], a, 0);
    AppendRanked(a, b, 1);
    AppendRanked(a + b, c, 2);
    AppendRanked(a + b + c, d, 3);
    AppendRanked(a + b + c + d, e, 4);
    assert RankedBelow(a + b + c + d + e, 5);
  }

  lemma KeyRanks()
    ensures KeyRank("startDate") == 0 && KeyRank("endDate") == 1 && KeyRank("expenseTypeId") == 2
    ensures KeyRank("page") == 3 && KeyRank("pageSize") == 4
  {
  }

  /** Entries in strictly ascending key order, every key ranked below `bound`. */
  predicate RankedBelow(ps: seq<Param>, bound: int)
  {
    (forall i, j :: 0 <= i < j < |ps| ==> KeyRank(ps[i].key) < KeyRank(ps[j].key))
    && forall i :: 0 <= i < |ps| ==> KeyRank(ps[i].key) < bound
  }

  /** Appending at most one entry of rank `k` to entries ranked below `k` keeps the order. */
  lemma AppendRanked(ps: seq<Param>, opt: seq<Param>, k: int)
    requires RankedBelow(ps, k)
    requires |opt| <= 1 && forall i :: 0 <= i < |opt| ==> KeyRank(opt[i].key) == k
    ensures RankedBelow(ps + opt, k + 1)
  {
  }

  /** Only the five filter keys are ever sent; in particular there is no description parameter. */
  lemma ListParamsKeys(filters: Option<TransactionFilters>)
    ensures forall p :: p in ListParams(filters) ==> KeyRank(p.key) < 5
    ensures forall p :: p in ListParams(filters) ==> p.key != "description"
  {
  }

  /** The entries sent, one optional entry per filter. */
  lemma InListParams(filters: Option<TransactionFilters>, p: Param)
    ensures var f := FilterOf(filters);
      p in ListParams(filters) <==>
        (Truthy(f.startDate) && p == Param("startDate", f.startDate.value))
        || (Truthy(f.endDate) && p == Param("endDate", f.endDate.value))
        || (Truthy(f.expenseTypeId) && p == Param("expenseTypeId", f.expenseTypeId.value))
        || (f.page.Some? && p == Param("page", IntToString(f.page.value)))
        || (f.pageSize.Some? && p == Param("pageSize", IntToString(f.pageSize.value)))
  {
  }

  /** A string filter is sent, with its value, exactly when it is truthy: an empty string is dropped. */
  lemma StringFiltersSentWhenTruthy(filters: Option<TransactionFilters>, v: string)
    ensures var f := FilterOf(filters);
      && (Param("startDate", v) in ListParams(filters) <==> Truthy(f.startDate) && f.startDate.value == v)
      && (Param("endDate", v) in ListParams(filters) <==> Truthy(f.endDate) && f.endDate.value == v)
      && (Param("expenseTypeId", v) in ListParams(filters) <==> Truthy(f.expenseTypeId) && f.expenseTypeId.value == v)
  {
    InListParams(filters, Param("startDate", v));
    InListParams(filters, Param("endDate", v));
    InListParams(filters, Param("expenseTypeId", v));
  }

  /** `page` and `pageSize` are sent whenever they are defined, page 0 included. */
  lemma PagingSentWhenDefined(filters: Option<TransactionFilters>, n: int)
    ensures var f := FilterOf(filters);
      && (Param("page", IntToString(n)) in ListParams(filters) <==> f.page == Some(n))
      && (Param("pageSize", IntToString(n)) in ListParams(filters) <==> f.pageSize == Some(n))
  {
    var f := FilterOf(filters);
    InListParams(filters, Param("page", IntToString(n)));
    InListParams(filters, Param("pageSize", IntToString(n)));
    if f.page.Some? && IntToString(f.page.value) == IntToString(n) {
      IntToStringInjective(f.page.value, n);
    }
    if f.pageSize.Some? && IntToString(f.pageSize.value) == IntToString(n) {
      IntToStringInjective(f.pageSize.value, n);
    }
  }

  /** The URL has no '?' exactly when no filter is sent. */
  lemma BareUrlIffNoFilters(filters: Option<TransactionFilters>)
    ensures ListUrl(filters) == ListPath <==>
      (var f := FilterOf(filters);
       !Truthy(f.startDate) && !Truthy(f.endDate) && !Truthy(f.expenseTypeId) && f.page.None? && f.pageSize.None?)
  {
    var q := QueryString(ListParams(filters));
    if q != "" {
      assert |ListUrl(filters)| > |ListPath|;
    }
  }

  /** The entries of `getMonthlySummary`: year, then month. */
  function MonthlySummaryParams(year: int, month: int): (ps: seq<Param>)
    ensures |ps| == 2 && ps[0].key == "year" && ps[1].key == "month"
    ensures ps[0].value == IntToString(year) && ps[1].value == IntToString(month)
  {
    [Param("year", IntToString(year)), Param("month", IntToString(month))]
  }

  /** The URL `getMonthlySummary` requests. */
  function MonthlySummaryUrl(year: int, month: int): (url: string)
    ensures url == MonthlySummaryPath + "?year=" + IntToString(year) + "&month=" + IntToString(month)
  {
    var ps := MonthlySummaryParams(year, month);
    var y, m := IntToString(year), IntToString(month);
    assert ps[1..] == [ps[1]];
    assert QueryString(ps) == ("year=" + y) + "&" + ("month=" + m);
    SummaryUrlShape(MonthlySummaryPath, y, m);
    MonthlySummaryPath + "?" + QueryString(ps)
  }

  lemma SummaryUrlShape(path: string, y: string, m: string)
    ensures path + "?" + (("year=" + y) + "&" + ("month=" + m)) == path + "?year=" + y + "&month=" + m
  {
    assert "?" + "year=" == "?year=" && "&" + "month=" == "&month=";
  }
}
