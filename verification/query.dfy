/** Building the data-service request of `L.cwis._refresh`: a fixed
    freshness prefilter, the built-in filter of the layer `type` when there is
    one, and the user's required `filter`, joined as one OData expression. */
module Query {
  import opened Wrappers
  import opened Text

  const CwisUrl := "https://dashboard.waterdata.usgs.gov/service/cwis/1.0/odata/CurrentConditions"
  const Version := "1.0"
  /** Usage tag sent with every request. */
  const Caller := "L-cwis-" + Version
  /** Auto-refresh period. */
  const RefreshIntervalMs := 2 * 60 * 1000
  /** Oldest acceptable observation, in hours. */
  const ValueAgeMaxHr := 4
  /** Row cap of one request. */
  const NSitesMax := 800

  const CwisProperties: seq<string> := [
    "AgencyCode", "SiteNumber", "SiteName", "Latitude", "Longitude",
    "CurrentConditionID", "ParameterCode", "ParameterName", "ParameterUnit",
    "TimeLocal", "TimeZoneCode", "Value", "RateOfChangeUnitPerHour",
    "StatisticStatusCode", "FloodStageStatusCode"]

  /** Built-in site/parameter filters, keyed by layer `type`. */
  const TypeFilters: map<string, string> := map[
    "flow" := "startswith(SiteTypeCode,'ST') and ParameterCode eq '00060'",
    "stage" := "startswith(SiteTypeCode,'ST') and ParameterCode eq '00065'",
    "lake" := "SiteTypeCode eq 'LK' and ParameterCode in ('72335','72275','72264','72214','72020','62614','62615','62616','00065','00062')",
    "well" := "startswith(SiteTypeCode,'GW') and ParameterCode in ('62610','62611','72019','72150','72229')",
    "rain" := "ParameterCode in ('00045','72192','00193','72194','99772')"]

  const FilterError := "\"filter\" option must be specified and non-empty."

  /** `config.typeFilters[options.type]` when it is truthy. */
  function TypeFilter(typ: Option<string>): Option<string> {
    if typ.Some? && typ.value in TypeFilters then Some(TypeFilters[typ.value]) else None
  }

  /** The start of the freshness window, `Date.now() - valueAgeMaxHr` hours,
      in milliseconds. */
  function CutoffMs(nowMs: int): (c: int)
    ensures nowMs - c == 14400000
  {
    nowMs - ValueAgeMaxHr * 60 * 60 * 1000
  }

  /** `getPreFilter()`, given the ISO-8601 rendering of the cutoff time:
      public, primary, non-null values newer than the cutoff. */
  function PreFilter(cutoffIso: string): string {
    "(" + Join([
      "AccessLevelCode eq 'P'",
      "IsPrimary eq true",
      "Value ne null",
      "TimeUtc gt " + cutoffIso], ") and (") + ")"
  }

  /** The user filter passes the `options.filter && options.filter.trim() !== ''`
      test. */
  predicate UsableFilter(filter: Option<string>) {
    filter.Some? && filter.value != "" && Trim(filter.value) != ""
  }

  /** The clause list: prefilter, then the built-in filter of the layer
      type when there is one, then the user filter; or the error reported
      when the user filter is missing, empty or whitespace only. */
  function FilterClauses(preFilter: string, typeFilter: Option<string>, filter: Option<string>): (r: Result<seq<string>, string>)
    ensures r.Failure? <==> filter.None? || Blank(filter.value)
    ensures r.Failure? ==> r.error == FilterError
    ensures r.Success? ==>
      && |r.value| == (if typeFilter.Some? then 3 else 2)
      && r.value[0] == preFilter
      && r.value[|r.value| - 1] == filter.value
      && (typeFilter.Some? ==> r.value[1] == typeFilter.value)
  {
    TrimEmptyIffBlank(filter.GetOr(""));
    var clauses := [preFilter] + (if typeFilter.Some? then [typeFilter.value] else []);
    if UsableFilter(filter) then Success(clauses + [filter.value]) else Failure(FilterError)
  }

  /** `'(' + filter.join(') and (') + ')'`. */
  function FilterExpression(clauses: seq<string>): string {
    "(" + Join(clauses, ") and (") + ")"
  }

  /** The request URL; `encode` stands for `encodeURIComponent` and `nowMs`
      for the cache-busting `Date.now()`. */
  function ServiceUrl(expression: string, encode: string -> string, nowMs: nat): string {
    CwisUrl + "?" + Join([
      "$filter=" + encode(expression),
      "$select=" + Join(CwisProperties, ","),
      "$top=" + NatToString(NSitesMax),
      "caller=" + Caller,
      "_=" + NatToString(nowMs)], "&")
  }

  /** The whole build: the URL, or the error message when the user filter is
      unusable. `toIso` stands for `new Date(ms).toISOString()`. */
  function BuildUrl(typ: Option<string>, filter: Option<string>, nowMs: nat,
                    toIso: int -> string, encode: string -> string): (r: Result<string, string>)
    ensures r.Failure? <==> filter.None? || Blank(filter.value)
    ensures r.Failure? ==> r.error == FilterError
  {
    var clauses :- FilterClauses(PreFilter(toIso(CutoffMs(nowMs))), TypeFilter(typ), filter);
    Success(ServiceUrl(FilterExpression(clauses), encode, nowMs))
  }

  lemma JoinTwo(a: string, b: string, sep: string)
    ensures Join([a, b], sep) == a + sep + b
  {
    assert [a, b][1..] == [b];
  }

  lemma JoinThree(a: string, b: string, c: string, sep: string)
    ensures Join([a, b, c], sep) == a + sep + b + sep + c
  {
    assert [a, b, c][1..] == [b, c];
    JoinTwo(b, c, sep);
  }

  /** The expression the service receives for a type-filtered layer:
      every clause parenthesised, and-ed in list order. */
  lemma ExpressionOfThreeClauses(pre: string, typeFilter: string, user: string)
    ensures FilterExpression([pre, typeFilter, user])
      == "(" + pre + ") and (" + typeFilter + ") and (" + user + ")"
  {
    JoinThree(pre, typeFilter, user, ") and (");
  }

  /** The expression for a layer without a built-in type filter. */
  lemma ExpressionOfTwoClauses(pre: string, user: string)
    ensures FilterExpression([pre, user]) == "(" + pre + ") and (" + user + ")"
  {
    JoinTwo(pre, user, ") and (");
  }

  /** A built-in filter exists exactly for the five layer types, and each
      is a non-empty string, so the truthiness test on it agrees with the
      lookup. */
  lemma TypeFilterDefined(typ: Option<string>)
    ensures TypeFilter(typ).Some? <==> typ.Some? && typ.value in {"flow", "stage", "lake", "well", "rain"}
    ensures TypeFilter(typ).Some? ==> TypeFilter(typ).value != ""
  {}

  /** The prefilter has the form of a filter expression over its four
      conditions. */
  lemma PreFilterIsExpression(cutoffIso: string)
    ensures PreFilter(cutoffIso) == FilterExpression(
      ["AccessLevelCode eq 'P'", "IsPrimary eq true", "Value ne null", "TimeUtc gt " + cutoffIso])
  {}

  /** Its last clause keeps only values newer than the cutoff. */
  lemma PreFilterEndsWithCutoff(cutoffIso: string)
    ensures var r := PreFilter(cutoffIso);
      var tail := ") and (" + ("TimeUtc gt " + cutoffIso) + ")";
      EndsWith(r, tail)
  {
    var parts := ["AccessLevelCode eq 'P'", "IsPrimary eq true", "Value ne null", "TimeUtc gt " + cutoffIso];
    PreFilterIsExpression(cutoffIso);
    ExpressionEndsWithLast(parts);
  }

  /** The last clause of an expression closes it. */
  lemma ExpressionEndsWithLast(clauses: seq<string>)
    requires |clauses| >= 2
    ensures var r := FilterExpression(clauses);
      var tail := ") and (" + clauses[|clauses| - 1] + ")";
      EndsWith(r, tail)
  {
    var front := Join(clauses[..|clauses| - 1], ") and (");
    var last := clauses[|clauses| - 1];
    JoinLast(clauses, ") and (");
    assert FilterExpression(clauses) == ("(" + front) + (") and (" + last + ")");
    EndsWithAppend("(" + front, ") and (" + last + ")");
  }

  /** Every expression is wrapped in one pair of parentheses; one clause is
      just parenthesised. */
  lemma FilterExpressionShape(clauses: seq<string>)
    ensures var r := FilterExpression(clauses);
      |r| >= 2 && r[0] == '(' && r[|r| - 1] == ')'
    ensures |clauses| == 1 ==> FilterExpression(clauses) == "(" + clauses[0] + ")"
  {}

  /** The URL names the service, carries the encoded filter as its first
      parameter and the cache-busting time as its last. */
  lemma ServiceUrlLayout(expression: string, encode: string -> string, nowMs: nat)
    ensures CwisUrl + "?" + ("$filter=" + encode(expression)) + "&" <= ServiceUrl(expression, encode, nowMs)
    ensures var r := ServiceUrl(expression, encode, nowMs);
      var tail := "&" + ("_=" + NatToString(nowMs));
      EndsWith(r, tail)
  {
    var parts := [
      "$filter=" + encode(expression),
      "$select=" + Join(CwisProperties, ","),
      "$top=" + NatToString(NSitesMax),
      "caller=" + Caller,
      "_=" + NatToString(nowMs)];
    assert ServiceUrl(expression, encode, nowMs) == CwisUrl + "?" + Join(parts, "&");
    QueryShape(CwisUrl + "?", parts);
  }

  /** A query string starts with its first parameter and ends with its
      last. */
  lemma QueryShape(prefix: string, parts: seq<string>)
    requires |parts| >= 2
    ensures var r := prefix + Join(parts, "&");
      var tail := "&" + parts[|parts| - 1];
      && prefix + parts[0] + "&" <= r
      && EndsWith(r, tail)
  {
    var front := Join(parts[..|parts| - 1], "&");
    var last := parts[|parts| - 1];
    JoinLast(parts, "&");
    Regroup(prefix, front, "&", last);
    EndsWithAppend(prefix + front, "&" + last);
    WrappedHead(prefix, parts[0], "&", Join(parts[1..], "&"));
  }

  lemma Regroup(p: string, f: string, sep: string, l: string)
    ensures p + (f + sep + l) == (p + f) + (sep + l)
  {
    assert f + sep + l == f + (sep + l);
  }

  lemma WrappedHead(open: string, first: string, sep: string, rest: string)
    ensures open + first + sep <= open + (first + sep + rest)
  {
    assert open + (first + sep + rest) == (open + first + sep) + rest;
  }
}
