/** Strategy records as the knowledge base stores them, the `SelectorStrategy`
    value with its dictionary round trip, the JSON values a proposal service
    may return, and the dispatch from a record to a page query
    (`_apply_strategy`). */
module Strategies {
  import opened Prelude
  import opened Text

  /** A JSON value as Python's `json.loads` yields it. */
  datatype Json =
    | JNull
    | JBool(b: bool)
    | JNumber(literal: string)
    | JString(str: string)
    | JArray(items: seq<Json>)
    | JObject(members: map<string, Json>)

  /** One entry of a field's strategy list: the dictionary
      `{"strategy": kind, "params": {...}, "success_count"?, "last_success"?}`.
      The two bookkeeping keys are optional: the seeded entries carry neither. */
  datatype Record = Record(
    strategy: string,
    params: map<string, string>,
    successCount: Option<int>,
    lastSuccess: Option<string>)

  /** The `SelectorStrategy` object: its count and timestamp are always set. */
  datatype SelectorStrategy = SelectorStrategy(
    strategy: string,
    params: map<string, string>,
    successCount: int,
    lastSuccess: string)

  /** `SelectorStrategy.__init__`: `last_success or now()` replaces both an
      absent and an empty timestamp by the clock reading `now`. */
  function NewSelectorStrategy(strategy: string, params: map<string, string>,
                               successCount: int, lastSuccess: Option<string>,
                               now: string): (s: SelectorStrategy)
    ensures s.strategy == strategy && s.params == params && s.successCount == successCount
    ensures lastSuccess.Some? && lastSuccess.value != "" ==> s.lastSuccess == lastSuccess.value
    ensures lastSuccess.None? || lastSuccess.value == "" ==> s.lastSuccess == now
    ensures now != "" ==> s.lastSuccess != ""
  {
    var stamp := if lastSuccess.Some? && lastSuccess.value != "" then lastSuccess.value else now;
    SelectorStrategy(strategy, params, successCount, stamp)
  }

  /** `to_dict`: every field, with both bookkeeping keys present. */
  function ToDict(s: SelectorStrategy): (d: Record)
    ensures d.strategy == s.strategy && d.params == s.params
    ensures d.successCount == Some(s.successCount) && d.lastSuccess == Some(s.lastSuccess)
  {
    Record(s.strategy, s.params, Some(s.successCount), Some(s.lastSuccess))
  }

  /** `from_dict`: a missing count reads as 0, a missing timestamp as `now`. */
  function FromDict(d: Record, now: string): (s: SelectorStrategy)
    ensures s.strategy == d.strategy && s.params == d.params
    ensures d.successCount.None? ==> s.successCount == 0
    ensures d.lastSuccess.None? ==> s.lastSuccess == now
  {
    NewSelectorStrategy(d.strategy, d.params,
      if d.successCount.Some? then d.successCount.value else 0, d.lastSuccess, now)
  }

  /** A strategy with a non-empty timestamp survives `to_dict` then
      `from_dict` unchanged, whatever the clock reads. */
  lemma FromDictToDict(s: SelectorStrategy, now: string)
    requires s.lastSuccess != ""
    ensures FromDict(ToDict(s), now) == s
  {
  }

  /** An empty timestamp does not survive the round trip: it is replaced by
      the clock reading. */
  lemma EmptyTimestampReplaced(s: SelectorStrategy, now: string)
    requires s.lastSuccess == ""
    ensures FromDict(ToDict(s), now) == s.(lastSuccess := now)
  {
  }

  /** A dictionary carrying both bookkeeping keys, with a non-empty
      timestamp, survives `from_dict` then `to_dict`. */
  lemma ToDictFromDict(d: Record, now: string)
    requires d.successCount.Some? && d.lastSuccess.Some? && d.lastSuccess.value != ""
    ensures ToDict(FromDict(d, now)) == d
  {
  }

  /** What a strategy realizes to on the page. CSS and XPath strategies both
      go through `page.locator`, an XPath one with the prefix `xpath=`. */
  datatype Query =
    | ByLabel(text: string)
    | ByPlaceholder(text: string)
    | ByRole(role: string, name: string)
    | ByLocator(selector: string)
    | ByTestId(testId: string)
    | ByText(text: string)

  /** Outcome of `_apply_strategy`: a query, `None` for an unknown kind, or
      the `KeyError` raised by a missing parameter. */
  datatype Applied = Realized(query: Query) | UnknownKind | MissingParam(key: string)

  const Kinds: set<string> := {"label", "placeholder", "role", "css", "xpath", "testid", "text"}

  /** The parameter keys each kind reads, in the order it reads them. */
  function RequiredParams(kind: string): seq<string> {
    match kind
    case "label" => ["text"]
    case "placeholder" => ["text"]
    case "text" => ["text"]
    case "role" => ["role", "name"]
    case "css" => ["selector"]
    case "xpath" => ["xpath"]
    case "testid" => ["testid"]
    case _ => []
  }

  /** `_apply_strategy`: dispatch on the kind. An unknown kind yields no
      query; a known kind with a missing parameter raises on the first key
      it lacks; otherwise the query is built from the parameters. */
  function ApplyStrategy(r: Record): (a: Applied)
    ensures a.UnknownKind? <==> r.strategy !in Kinds
    ensures a.Realized? <==> r.strategy in Kinds && forall k :: k in RequiredParams(r.strategy) ==> k in r.params
    ensures a.MissingParam? ==>
      exists i :: 0 <= i < |RequiredParams(r.strategy)| && RequiredParams(r.strategy)[i] == a.key
        && a.key !in r.params
        && forall j :: 0 <= j < i ==> RequiredParams(r.strategy)[j] in r.params
  {
    var p := r.params;
    var ks := RequiredParams(r.strategy);
    match r.strategy
    case "label" => if "text" in p then Realized(ByLabel(p["text"])) else assert ks[0] == "text"; MissingParam("text")
    case "placeholder" => if "text" in p then Realized(ByPlaceholder(p["text"])) else assert ks[0] == "text"; MissingParam("text")
    case "role" =>
      if "role" !in p then assert ks[0] == "role"; MissingParam("role")
      else if "name" !in p then assert ks[0] == "role" && ks[1] == "name"; MissingParam("name")
      else Realized(ByRole(p["role"], p["name"]))
    case "css" => if "selector" in p then Realized(ByLocator(p["selector"])) else assert ks[0] == "selector"; MissingParam("selector")
    case "xpath" => if "xpath" in p then Realized(ByLocator("xpath=" + p["xpath"])) else assert ks[0] == "xpath"; MissingParam("xpath")
    case "testid" => if "testid" in p then Realized(ByTestId(p["testid"])) else assert ks[0] == "testid"; MissingParam("testid")
    case "text" => if "text" in p then Realized(ByText(p["text"])) else assert ks[0] == "text"; MissingParam("text")
    case _ => UnknownKind
  }

  /** A canonical strategy record for each query. */
  function StrategyFor(q: Query): Record {
    match q
    case ByLabel(t) => Record("label", map["text" := t], None, None)
    case ByPlaceholder(t) => Record("placeholder", map["text" := t], None, None)
    case ByRole(role, name) => Record("role", map["role" := role, "name" := name], None, None)
    case ByLocator(s) => Record("css", map["selector" := s], None, None)
    case ByTestId(t) => Record("testid", map["testid" := t], None, None)
    case ByText(t) => Record("text", map["text" := t], None, None)
  }

  /** Every query is reachable: applying its canonical record gives it back. */
  lemma ApplyStrategyFor(q: Query)
    ensures ApplyStrategy(StrategyFor(q)) == Realized(q)
  {
  }

  /** An XPath strategy and the CSS strategy whose selector carries the
      `xpath=` prefix realize to the same query. */
  lemma XPathIsPrefixedLocator(x: string)
    ensures ApplyStrategy(Record("xpath", map["xpath" := x], None, None))
         == ApplyStrategy(Record("css", map["selector" := "xpath=" + x], None, None))
  {
  }

  /** The page oracle: does the realized query find an element within the
      timeout (`locator.first.wait_for(timeout)` succeeding)? */
  type Page = (Query, int) -> bool

  /** The default validation timeout, in milliseconds. */
  const DefaultTimeout := 5000

  /** `_validate_locator`: true exactly when the first matching element
      appears within the timeout; the page's time-out is the only failure
      it turns into `false`. */
  predicate Validate(page: Page, q: Query, timeout: int): (found: bool)
    ensures found <==> page(q, timeout)
  {
    page(q, timeout)
  }

  /** A record wins when it realizes to a query that validates. */
  predicate Accepts(page: Page, timeout: int, r: Record) {
    var a := ApplyStrategy(r);
    a.Realized? && Validate(page, a.query, timeout)
  }

  /** A JSON object reduced to its string-valued members. */
  function StringMembers(m: map<string, Json>): (r: map<string, string>)
    ensures r.Keys <= m.Keys
    ensures forall k :: k in r ==> m[k] == JString(r[k])
  {
    map k | k in m && m[k].JString? :: m[k].str
  }

  /** A proposal returned as JSON, read as a strategy record. An object
      whose kind is a string and whose `params` is an object gives a record
      without bookkeeping keys; anything else cannot be applied (the
      dispatch would raise `TypeError` or return `None`). */
  function AsStrategy(j: Json): (r: Option<Record>)
    ensures r.Some? ==> j.JObject? && "strategy" in j.members && j.members["strategy"] == JString(r.value.strategy)
    ensures r.Some? ==> "params" in j.members && j.members["params"].JObject?
    ensures r.Some? ==> r.value.successCount.None? && r.value.lastSuccess.None?
  {
    match j
    case JObject(m) =>
      if "strategy" in m && m["strategy"].JString? && "params" in m && m["params"].JObject? then
        Some(Record(m["strategy"].str, StringMembers(m["params"].members), None, None))
      else None
    case _ => None
  }

  /** The JSON shape of a strategy without bookkeeping keys. */
  function StrategyJson(r: Record): Json {
    JObject(map["strategy" := JString(r.strategy),
                "params" := JObject(map k | k in r.params :: JString(r.params[k]))])
  }

  /** Reading back the JSON shape of a record gives the record. */
  lemma AsStrategyOfJson(r: Record)
    requires r.successCount.None? && r.lastSuccess.None?
    ensures AsStrategy(StrategyJson(r)) == Some(r)
  {
    var pm := map k | k in r.params :: JString(r.params[k]);
    assert StringMembers(pm) == r.params;
  }
}
