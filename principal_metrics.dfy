/**
  Argument resolution of the principal-metrics tool: the metric list
  override, the defaulting of the two interval bounds, and the post filter
  that keeps only the rows of one principal. The default intervals are a
  parameter; the metrics query itself is not part of this model.
 */
module PrincipalMetrics {
  import opened Optional

  /** A parsed JSON value; an object is a map from keys to values. */
  datatype Json =
    | JNull
    | JBool(b: bool)
    | JNumber(n: real)
    | JString(s: string)
    | JArray(items: seq<Json>)
    | JObject(fields: map<string, Json>)

  datatype AggregationType = Sum | Min | Max

  /** The tool arguments after schema parsing (defaults for clusterId and metrics already applied). */
  datatype PrincipalMetricsArgs = PrincipalMetricsArgs(
    clusterId: string,
    metrics: seq<string>,
    intervalStart: Option<string>,
    intervalEnd: Option<string>,
    limit: Option<real>,
    aggregationType: Option<AggregationType>,
    specificMetric: Option<string>,
    principalName: Option<string>,
    includeRelatedMetrics: Option<bool>)

  datatype Intervals = Intervals(intervalStart: string, intervalEnd: string)

  /** The post filter closure: it captures nothing but the principal name. */
  datatype PostFilter = KeepPrincipal(principalName: string)

  /** What `handle` passes on to the metrics query. */
  datatype MetricsRequest = MetricsRequest(
    args: PrincipalMetricsArgs,
    aggregationType: Option<AggregationType>,
    limit: Option<real>,
    intervalStart: string,
    intervalEnd: string,
    postFilter: Option<PostFilter>)

  const PRINCIPAL_KEY := "metric.principal"
  const DATA_KEY := "data"

  function GetGroupBy(): string
  {
    "metric.principal"
  }

  function GetFilterField(): string
  {
    "resource.kafka.id"
  }

  function GetFilterValue(args: PrincipalMetricsArgs): string
  {
    args.clusterId
  }

  /** A row survives the post filter: a non-null object whose principal field is the given name. */
  predicate RowMatches(principalName: string, row: Json)
  {
    row.JObject? && PRINCIPAL_KEY in row.fields && row.fields[PRINCIPAL_KEY] == JString(principalName)
  }

  /**
    The query is grouped by the principal, filtered on the cluster id, and
    the post filter matches rows on the group-by field.
   */
  lemma PrincipalQuery(args: PrincipalMetricsArgs, principalName: string, row: Json)
    ensures GetGroupBy() == "metric.principal"
    ensures GetFilterField() == "resource.kafka.id"
    ensures GetFilterValue(args) == args.clusterId
    ensures RowMatches(principalName, row) <==>
      row.JObject? && GetGroupBy() in row.fields && row.fields[GetGroupBy()] == JString(principalName)
  {
  }

  /** `specificMetric ? [specificMetric] : metrics` */
  function ResolveMetrics(specificMetric: Option<string>, metrics: seq<string>): seq<string>
  {
    if Truthy(specificMetric) then [specificMetric.value] else metrics
  }

  /**
    The interval bounds as the source computes them: the defaults are
    consulted only when a bound is missing, and then each missing bound
    takes its own default independently of the other.
   */
  function ResolveIntervals(intervalStart: Option<string>, intervalEnd: Option<string>, defaults: Intervals): (r: Intervals)
    ensures Truthy(intervalStart) ==> r.intervalStart == intervalStart.value
    ensures !Truthy(intervalStart) ==> r.intervalStart == defaults.intervalStart
    ensures Truthy(intervalEnd) ==> r.intervalEnd == intervalEnd.value
    ensures !Truthy(intervalEnd) ==> r.intervalEnd == defaults.intervalEnd
  {
    if !Truthy(intervalStart) || !Truthy(intervalEnd) then
      Intervals(OrElse(intervalStart, defaults.intervalStart), OrElse(intervalEnd, defaults.intervalEnd))
    else
      Intervals(intervalStart.value, intervalEnd.value)
  }

  /** A post filter exists exactly when the principal name is present and non-empty. */
  function MakePostFilter(principalName: Option<string>): (f: Option<PostFilter>)
    ensures f.None? <==> !Truthy(principalName)
    ensures f.Some? ==> f.value.principalName == principalName.value
  {
    if Truthy(principalName) then Some(KeepPrincipal(principalName.value)) else None
  }

  /** The rows of the given principal, in their original order. */
  function FilterRows(principalName: string, rows: seq<Json>): (kept: seq<Json>)
    ensures |kept| <= |rows|
    ensures forall row :: row in kept ==> RowMatches(principalName, row)
  {
    if rows == [] then []
    else if RowMatches(principalName, rows[0]) then [rows[0]] + FilterRows(principalName, rows[1..])
    else FilterRows(principalName, rows[1..])
  }

  /** `sub` can be obtained from `s` by deleting elements. */
  ghost predicate IsSubsequence<T>(sub: seq<T>, s: seq<T>)
    decreases |s|
  {
    if sub == [] then true
    else if s == [] then false
    else if sub[0] == s[0] then IsSubsequence(sub[1..], s[1..])
    else IsSubsequence(sub, s[1..])
  }

  /** The filter keeps the rows it keeps in their input order. */
  lemma {:induction false} FilterRowsIsSubsequence(principalName: string, rows: seq<Json>)
    ensures IsSubsequence(FilterRows(principalName, rows), rows)
  {
    if rows != [] {
      FilterRowsIsSubsequence(principalName, rows[1..]);
      var rest := FilterRows(principalName, rows[1..]);
      if !RowMatches(principalName, rows[0]) && rest != [] {
        assert rest[0] in rest;
      }
    }
  }

  /** Every matching row is kept as often as it occurs; no other row is kept. */
  lemma {:induction false} FilterRowsKeepsExactlyMatches(principalName: string, rows: seq<Json>, row: Json)
    ensures multiset(FilterRows(principalName, rows))[row] ==
      if RowMatches(principalName, row) then multiset(rows)[row] else 0
  {
    if rows == [] {
    } else {
      FilterRowsKeepsExactlyMatches(principalName, rows[1..], row);
      assert rows == [rows[0]] + rows[1..];
      if !RowMatches(principalName, row) {
        assert row !in FilterRows(principalName, rows);
      }
    }
  }

  /** Filtering rows that are already filtered changes nothing. */
  lemma {:induction false} FilterRowsIdempotent(principalName: string, rows: seq<Json>)
    ensures FilterRows(principalName, FilterRows(principalName, rows)) == FilterRows(principalName, rows)
  {
    if rows != [] {
      FilterRowsIdempotent(principalName, rows[1..]);
      var rest := FilterRows(principalName, rows[1..]);
      if RowMatches(principalName, rows[0]) {
        assert ([rows[0]] + rest)[1..] == rest;
      }
    }
  }

  /** The decimal digit `d`. */
  function Digit(d: nat): char
    requires d < 10
  {
    ('0' as int + d) as char
  }

  /** The decimal spelling of `n`, as JavaScript spells an array index used as a key. */
  function DecimalString(n: nat): (s: string)
    ensures |s| >= 1
    ensures forall c :: c in s ==> '0' <= c <= '9'
    ensures n >= 10 ==> |s| >= 2
  {
    if n < 10 then [Digit(n)] else DecimalString(n / 10) + [Digit(n % 10)]
  }

  lemma {:induction false} DecimalStringInjective(a: nat, b: nat)
    requires DecimalString(a) == DecimalString(b)
    ensures a == b
  {
    if a >= 10 && b >= 10 {
      var sa, sb := DecimalString(a), DecimalString(b);
      assert sa[|sa| - 1] == Digit(a % 10) && sb[|sb| - 1] == Digit(b % 10);
      assert sa[..|sa| - 1] == DecimalString(a / 10);
      assert sb[..|sb| - 1] == DecimalString(b / 10);
      DecimalStringInjective(a / 10, b / 10);
    }
  }

  /** Different array indices spell different keys. */
  lemma DecimalStringsDistinct()
    ensures forall a: nat, b: nat :: DecimalString(a) == DecimalString(b) ==> a == b
  {
    forall a: nat, b: nat | DecimalString(a) == DecimalString(b)
      ensures a == b
    {
      DecimalStringInjective(a, b);
    }
  }

  /** No index key spells `data`: its letters are not digits. */
  lemma IndexKeysAreNotData()
    ensures forall n: nat :: DecimalString(n) != DATA_KEY
  {
    forall n: nat
      ensures DecimalString(n) != DATA_KEY
    {
      assert DATA_KEY[0] in DATA_KEY;
    }
  }

  /** The keys of an array of length `n` spread into an object. */
  function IndexKeys(n: nat): set<string>
  {
    set i | 0 <= i < n :: DecimalString(i)
  }

  /** `{...items}`: an array spread into an object has one key per index. */
  function SpreadArray(items: seq<Json>): (fields: map<string, Json>)
    ensures forall i :: 0 <= i < |items| ==> DecimalString(i) in fields && fields[DecimalString(i)] == items[i]
    ensures fields.Keys == IndexKeys(|items|)
    ensures DATA_KEY !in fields
  {
    DecimalStringsDistinct();
    IndexKeysAreNotData();
    map i | 0 <= i < |items| :: DecimalString(i) := items[i]
  }

  /** The `data` field of the filtered object: the matching rows, or `[]` when `data` is not an array. */
  function FilteredData(principalName: string, fields: map<string, Json>): Json
  {
    if DATA_KEY in fields && fields[DATA_KEY].JArray? then
      JArray(FilterRows(principalName, fields[DATA_KEY].items))
    else
      JArray([])
  }

  /**
    The post filter applied to a query result. Null and primitives pass
    through; an object (and an array, which JavaScript also calls an object)
    is spread and its `data` field replaced by the rows of the principal.
   */
  function ApplyPostFilter(f: PostFilter, data: Json): (r: Json)
    ensures !data.JObject? && !data.JArray? ==> r == data
    ensures data.JObject? ==>
      && r.JObject?
      && r.fields.Keys == data.fields.Keys + {DATA_KEY}
      && (forall k :: k in data.fields && k != DATA_KEY ==> r.fields[k] == data.fields[k])
    ensures data.JObject? && DATA_KEY in data.fields && data.fields[DATA_KEY].JArray? ==>
      r.fields[DATA_KEY] == JArray(FilterRows(f.principalName, data.fields[DATA_KEY].items))
    ensures data.JObject? && !(DATA_KEY in data.fields && data.fields[DATA_KEY].JArray?) ==>
      r.fields[DATA_KEY] == JArray([])
    ensures data.JArray? ==>
      && r.JObject?
      && r.fields.Keys == IndexKeys(|data.items|) + {DATA_KEY}
      && (forall i :: 0 <= i < |data.items| ==> r.fields[DecimalString(i)] == data.items[i])
      && r.fields[DATA_KEY] == JArray([])
  {
    match data
    case JObject(fields) => JObject(fields[DATA_KEY := FilteredData(f.principalName, fields)])
    case JArray(items) => JObject(SpreadArray(items)[DATA_KEY := JArray([])])
    case _ => data
  }

  /** Applying the post filter to its own output changes nothing. */
  lemma PostFilterIdempotent(f: PostFilter, data: Json)
    ensures ApplyPostFilter(f, ApplyPostFilter(f, data)) == ApplyPostFilter(f, data)
  {
    match data
    case JObject(fields) =>
      var once := ApplyPostFilter(f, data);
      var twice := ApplyPostFilter(f, once);
      if DATA_KEY in fields && fields[DATA_KEY].JArray? {
        FilterRowsIdempotent(f.principalName, fields[DATA_KEY].items);
      }
      assert twice.fields == once.fields;
    case JArray(items) =>
      var once := ApplyPostFilter(f, data);
      var twice := ApplyPostFilter(f, once);
      assert twice.fields == once.fields;
    case _ =>
  }

  /**
    `handle` up to the metrics query: the metric list override, the interval
    defaults (taken from `defaults`) and the optional post filter.
   */
  function Handle(args: PrincipalMetricsArgs, defaults: Intervals): (request: MetricsRequest)
    ensures Truthy(args.specificMetric) ==> request.args.metrics == [args.specificMetric.value]
    ensures !Truthy(args.specificMetric) ==> request.args.metrics == args.metrics
    ensures request.args.(metrics := args.metrics) == args
    ensures request.aggregationType == args.aggregationType && request.limit == args.limit
    ensures request.intervalStart == OrElse(args.intervalStart, defaults.intervalStart)
    ensures request.intervalEnd == OrElse(args.intervalEnd, defaults.intervalEnd)
    ensures request.postFilter.Some? <==> Truthy(args.principalName)
    ensures request.postFilter.Some? ==> request.postFilter.value.principalName == args.principalName.value
  {
    var metrics := ResolveMetrics(args.specificMetric, args.metrics);
    var intervals := ResolveIntervals(args.intervalStart, args.intervalEnd, defaults);
    MetricsRequest(
      args.(metrics := metrics),
      args.aggregationType,
      args.limit,
      intervals.intervalStart,
      intervals.intervalEnd,
      MakePostFilter(args.principalName))
  }
}
