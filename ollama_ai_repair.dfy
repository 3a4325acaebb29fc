/** Strategy proposals from a local language-model service: the availability
    probe, the bounded prompt, the cascade that digs a strategy object out of
    the free-text reply, the markup statistics helper, and the finder that
    uses the service alone. HTTP calls, `json.loads` and the regular
    expressions of the cascade are parameters. */
module OllamaRepair {
  import opened Prelude
  import opened Text
  import opened Strategies
  import opened SelectorKnowledgeBase

  /** Reply of the model-listing endpoint: a failure (unreachable, timeout,
      undecodable body) or a status with the listed model names (a listed
      model without a name counts as the empty name). */
  datatype TagsReply = TagsFailed | TagsReplied(status: int, modelNames: seq<string>)

  /** `any(model in name for name in names)`. */
  function AnyNameContains(names: seq<string>, model: string): (r: bool)
    ensures r <==> exists i :: 0 <= i < |names| && Contains(names[i], model)
  {
    if names == [] then false
    else if Contains(names[0], model) then true
    else
      var r := AnyNameContains(names[1..], model);
      assert forall i :: 1 <= i < |names| ==> names[i] == names[1..][i - 1];
      r
  }

  /** The prompt's content: the field name, at most the first 1000
      characters of the markup and at most two failed strategies. */
  datatype Prompt = Prompt(field: string, excerpt: string, failedShown: seq<Record>)

  const ExcerptLimit: nat := 1000
  const FailedLimit: nat := 2

  /** The bounded prompt of `propose_strategy_with_ollama`. */
  function BuildPrompt(field: string, domSnippet: string, failedStrategies: seq<Record>): (p: Prompt)
    ensures p.field == field
    ensures p.excerpt <= domSnippet && |p.excerpt| == if |domSnippet| <= 1000 then |domSnippet| else 1000
    ensures p.failedShown <= failedStrategies
    ensures |p.failedShown| == if |failedStrategies| <= 2 then |failedStrategies| else 2
  {
    Prompt(field, Take(domSnippet, ExcerptLimit), Take(failedStrategies, FailedLimit))
  }

  /** The generation request: model, prompt, no streaming, a reply capped at
      200 tokens and a context window of 2048. */
  datatype GenerateRequest = GenerateRequest(model: string, prompt: Prompt, stream: bool, numPredict: int, numCtx: int)

  /** Reply of the generation endpoint: a failure (unreachable, timeout,
      undecodable body, non-text `response`) or a status with the `response`
      text (empty when the key is absent). */
  datatype GenerateReply = GenerateFailed | GenerateReplied(status: int, response: string)

  type GenerateService = GenerateRequest -> GenerateReply

  /** The four extraction patterns, in the order they are tried: an object
      mentioning "strategy" without nested braces, any brace-delimited text,
      an object in a json code fence, an object in any code fence. */
  datatype Pattern = SimpleObject | AnyObject | JsonFence | AnyFence

  const JsonPatterns: seq<Pattern> := [SimpleObject, AnyObject, JsonFence, AnyFence]

  /** `re.findall(pattern, text, re.DOTALL)` for the four patterns. */
  type Matcher = (Pattern, string) -> seq<string>

  /** `json.loads`: `None` when it raises. */
  type Parser = string -> Option<Json>

  /** Python's `key in v` on a decoded value: `None` for the `TypeError`
      raised on numbers, booleans and null. */
  function MemberTest(key: string, v: Json): Option<bool> {
    match v
    case JObject(m) => Some(key in m)
    case JArray(items) => Some(JString(key) in items)
    case JString(s) => Some(Contains(s, key))
    case _ => None
  }

  /** `"strategy" in v and "params" in v` holds without raising. */
  predicate HasStrategyShape(v: Json) {
    MemberTest("strategy", v) == Some(true) && MemberTest("params", v) == Some(true)
  }

  /** The text decodes and passes the key test. */
  predicate Parses(parse: Parser, text: string) {
    parse(text).Some? && HasStrategyShape(parse(text).value)
  }

  /** All matches, pattern by pattern and, within a pattern, in text order. */
  function CandidatesFrom(patterns: seq<Pattern>, response: string, matcher: Matcher): seq<string> {
    if patterns == [] then [] else matcher(patterns[0], response) + CandidatesFrom(patterns[1..], response, matcher)
  }

  /** The index of the first candidate that passes, or -1. */
  function FirstParsing(candidates: seq<string>, parse: Parser): (i: int)
    ensures -1 <= i < |candidates|
    ensures i == -1 <==> forall k :: 0 <= k < |candidates| ==> !Parses(parse, candidates[k])
    ensures 0 <= i ==> Parses(parse, candidates[i]) && forall k :: 0 <= k < i ==> !Parses(parse, candidates[k])
  {
    FirstWhere(candidates, c => Parses(parse, c))
  }

  /** No candidate decodes and passes the key test. */
  predicate NoneParses(candidates: seq<string>, parse: Parser) {
    forall i :: 0 <= i < |candidates| ==> !Parses(parse, candidates[i])
  }

  /** The decoded first candidate that passes, if any. */
  function FirstParsed(candidates: seq<string>, parse: Parser): Option<Json> {
    var i := FirstParsing(candidates, parse);
    if i < 0 then None else parse(candidates[i])
  }

  lemma FirstParsedSkip(candidates: seq<string>, parse: Parser)
    requires candidates != [] && !Parses(parse, candidates[0])
    ensures FirstParsed(candidates, parse) == FirstParsed(candidates[1..], parse)
  {
  }

  lemma FirstParsedHead(candidates: seq<string>, parse: Parser)
    requires candidates != [] && Parses(parse, candidates[0])
    ensures FirstParsed(candidates, parse) == parse(candidates[0])
  {
  }

  lemma CandidatesStep(patterns: seq<Pattern>, p: nat, response: string, matcher: Matcher)
    requires p < |patterns|
    ensures CandidatesFrom(patterns[p..], response, matcher)
         == matcher(patterns[p], response) + CandidatesFrom(patterns[p + 1..], response, matcher)
  {
    assert patterns[p..][1..] == patterns[p + 1..];
  }

  lemma {:induction false} NoMatchesNoCandidates(patterns: seq<Pattern>, response: string, matcher: Matcher)
    requires forall p :: matcher(p, response) == []
    ensures CandidatesFrom(patterns, response, matcher) == []
  {
    if patterns != [] {
      NoMatchesNoCandidates(patterns[1..], response, matcher);
    }
  }

  /** The fixed last-resort proposal. */
  const LastResort: Json :=
    JObject(map["strategy" := JString("css"),
                "params" := JObject(map["selector" := JString("input[placeholder*='location' i]")])])

  predicate MentionsInputPlaceholder(response: string) {
    Contains(Lower(response), "input") && Contains(Lower(response), "placeholder")
  }

  /** The extraction cascade on a stripped reply. */
  function ExtractStrategy(response: string, matcher: Matcher, parse: Parser): Option<Json> {
    var fromPatterns := FirstParsed(CandidatesFrom(JsonPatterns, response, matcher), parse);
    if fromPatterns.Some? then fromPatterns
    else if Parses(parse, response) then parse(response)
    else if MentionsInputPlaceholder(response) then Some(LastResort)
    else None
  }

  /** What the cascade returns always passes the key test, so an object it
      returns has both keys. The first passing pattern match wins, earlier
      matches all failing; the whole reply is tried only when no match
      passes, and the last resort only when the whole reply fails too and
      the reply mentions both "input" and "placeholder"; otherwise nothing. */
  lemma ExtractionOrder(response: string, matcher: Matcher, parse: Parser)
    ensures var r := ExtractStrategy(response, matcher, parse);
      && (r.Some? ==> HasStrategyShape(r.value))
      && (r.Some? && r.value.JObject? ==> "strategy" in r.value.members && "params" in r.value.members)
    ensures var r := ExtractStrategy(response, matcher, parse);
      var cs := CandidatesFrom(JsonPatterns, response, matcher);
      (exists i :: 0 <= i < |cs| && Parses(parse, cs[i])) ==>
        exists i :: 0 <= i < |cs| && Parses(parse, cs[i]) && r == parse(cs[i])
          && forall k :: 0 <= k < i ==> !Parses(parse, cs[k])
    ensures var r := ExtractStrategy(response, matcher, parse);
      var cs := CandidatesFrom(JsonPatterns, response, matcher);
      NoneParses(cs, parse) ==>
        r == (if Parses(parse, response) then parse(response)
              else if MentionsInputPlaceholder(response) then Some(LastResort) else None)
  {
    var cs := CandidatesFrom(JsonPatterns, response, matcher);
    var r := ExtractStrategy(response, matcher, parse);
    var i := FirstParsing(cs, parse);
    if i >= 0 {
      assert Parses(parse, cs[i]);
      assert forall k :: 0 <= k < i ==> !Parses(parse, cs[k]);
      assert r == parse(cs[i]);
      assert r.Some? && HasStrategyShape(r.value);
      assert !NoneParses(cs, parse);
    } else {
      assert NoneParses(cs, parse);
      assert r == (if Parses(parse, response) then parse(response)
                   else if MentionsInputPlaceholder(response) then Some(LastResort) else None);
      assert r.Some? ==> HasStrategyShape(r.value);
    }
  }

  /** The last resort is itself a usable CSS strategy. */
  lemma LastResortIsCss()
    ensures HasStrategyShape(LastResort)
    ensures AsStrategy(LastResort) == Some(Record("css", map["selector" := "input[placeholder*='location' i]"], None, None))
  {
    var pm := map["selector" := JString("input[placeholder*='location' i]")];
    assert StringMembers(pm) == map["selector" := "input[placeholder*='location' i]"];
  }

  /** What a generation reply yields: only a status-200 reply is read, and
      reading never raises. */
  function ProposalFromReply(reply: GenerateReply, matcher: Matcher, parse: Parser): Option<Json> {
    if reply.GenerateReplied? && reply.status == 200 then ExtractStrategy(Strip(reply.response), matcher, parse)
    else None
  }

  /** A decoded JSON list holding both key words passes the key test of the
      whole-reply parse; such a proposal is not a strategy object and is
      dropped when applied. */
  lemma NonObjectProposal(reply: string, matcher: Matcher, parse: Parser)
    requires forall p :: matcher(p, reply) == []
    requires parse(reply) == Some(JArray([JString("strategy"), JString("params")]))
    ensures ExtractStrategy(reply, matcher, parse) == parse(reply)
    ensures AsStrategy(parse(reply).value).None?
  {
    NoMatchesNoCandidates(JsonPatterns, reply, matcher);
  }

  /** The nested loops of the cascade: patterns in list order, the matches
      of each in text order, the first match that decodes and passes the
      key test wins. */
  method FirstPatternMatch(aiResponse: string, matcher: Matcher, parse: Parser) returns (found: Option<Json>)
    ensures found == FirstParsed(CandidatesFrom(JsonPatterns, aiResponse, matcher), parse)
    ensures found.Some? ==> HasStrategyShape(found.value)
  {
    ghost var all := CandidatesFrom(JsonPatterns, aiResponse, matcher);
    var p := 0;
    while p < |JsonPatterns|
      invariant 0 <= p <= |JsonPatterns|
      invariant FirstParsed(all, parse) == FirstParsed(CandidatesFrom(JsonPatterns[p..], aiResponse, matcher), parse)
    {
      var matches := matcher(JsonPatterns[p], aiResponse);
      ghost var rest := CandidatesFrom(JsonPatterns[p + 1..], aiResponse, matcher);
      CandidatesStep(JsonPatterns, p, aiResponse, matcher);
      assert matches[0..] == matches;
      var m := 0;
      while m < |matches|
        invariant 0 <= m <= |matches|
        invariant FirstParsed(all, parse) == FirstParsed(matches[m..] + rest, parse)
      {
        var parsed := parse(matches[m]);
        if parsed.Some? && HasStrategyShape(parsed.value) {
          assert (matches[m..] + rest)[0] == matches[m];
          FirstParsedHead(matches[m..] + rest, parse);
          return parsed;
        }
        assert (matches[m..] + rest)[1..] == matches[m + 1..] + rest;
        FirstParsedSkip(matches[m..] + rest, parse);
        m := m + 1;
      }
      assert matches[m..] + rest == rest;
      p := p + 1;
    }
    assert JsonPatterns[p..] == [];
    return None;
  }

  /** The cascade on a stripped reply: the pattern matches, then the whole
      reply, then the fixed last resort. */
  method ExtractFromReply(aiResponse: string, matcher: Matcher, parse: Parser) returns (proposal: Option<Json>)
    ensures proposal == ExtractStrategy(aiResponse, matcher, parse)
    ensures proposal.Some? ==> HasStrategyShape(proposal.value)
  {
    ExtractionOrder(aiResponse, matcher, parse);
    proposal := FirstPatternMatch(aiResponse, matcher, parse);
    if proposal.Some? {
      return proposal;
    }
    var whole := parse(aiResponse);
    if whole.Some? && HasStrategyShape(whole.value) {
      return whole;
    }
    if MentionsInputPlaceholder(aiResponse) {
      return Some(LastResort);
    }
    return None;
  }

  /** The constructor's default model name and service address. */
  const DefaultModel := "gpt-oss"
  const DefaultBaseUrl := "http://localhost:11434"

  /** `OllamaAIRepair`: a client of the service. */
  class OllamaAIRepair {
    const model: string
    const baseUrl: string
    const apiUrl: string

    constructor (model: string, baseUrl: string)
      ensures this.model == model && this.baseUrl == baseUrl && apiUrl == baseUrl + "/api/generate"
    {
      this.model := model;
      this.baseUrl := baseUrl;
      apiUrl := baseUrl + "/api/generate";
    }

    /** `check_ollama_available`: true exactly when the listing answered 200
      and the configured model name occurs in some listed name. */
    function CheckOllamaAvailable(tags: TagsReply): (available: bool)
      ensures available <==>
        (tags.TagsReplied? && tags.status == 200
         && exists i :: 0 <= i < |tags.modelNames| && Contains(tags.modelNames[i], model))
    {
      tags.TagsReplied? && tags.status == 200 && AnyNameContains(tags.modelNames, model)
    }

    function Request(prompt: Prompt): GenerateRequest {
      GenerateRequest(model, prompt, false, 200, 2048)
    }

    /** The strategy the service's reply yields for a bounded prompt, as a
      record; a non-object proposal yields none. */
    function Candidate(field: string, domSnippet: string, failedStrategies: seq<Record>,
                       service: GenerateService, matcher: Matcher, parse: Parser): Option<Record>
    {
      var proposal := ProposalFromReply(service(Request(BuildPrompt(field, domSnippet, failedStrategies))), matcher, parse);
      if proposal.Some? then AsStrategy(proposal.value) else None
    }

    /** `propose_strategy_with_ollama`: one request with the bounded prompt,
      then the extraction cascade on the stripped reply. */
    method ProposeStrategyWithOllama(field: string, domSnippet: string, failedStrategies: seq<Record>,
                                     provider: string, service: GenerateService,
                                     matcher: Matcher, parse: Parser)
      returns (proposal: Option<Json>)
      ensures proposal == ProposalFromReply(service(Request(BuildPrompt(field, domSnippet, failedStrategies))), matcher, parse)
      ensures proposal.Some? ==> HasStrategyShape(proposal.value)
    {
      var prompt := BuildPrompt(field, domSnippet, failedStrategies);
      var reply := service(Request(prompt));
      if !(reply.GenerateReplied? && reply.status == 200) {
        return None;
      }
      var aiResponse := Strip(reply.response);
      proposal := ExtractFromReply(aiResponse, matcher, parse);
    }
  }

  /** The markup statistics of `analyze_dom_patterns`. */
  datatype DomPatterns = DomPatterns(
    inputFields: nat,
    buttonFields: nat,
    dataTestAttrs: seq<string>,
    ariaLabels: seq<string>,
    placeholders: seq<string>,
    classNames: seq<string>,
    ids: seq<string>)

  /** The markup text `name="value"`. */
  function QuotedAttribute(name: string, value: string): string {
    name + "=\"" + value + "\""
  }

  /** `re.findall(name + '="([^"]*)"', s)`. */
  function AttributeValues(s: string, name: string): (vs: seq<string>)
    ensures forall v :: v in vs ==> '"' !in v && Contains(s, QuotedAttribute(name, v))
  {
    ScanSound(s, name + "=\"", '"');
    assert forall v :: QuotedAttribute(name, v) == (name + "=\"") + v + ['"'];
    Scan(s, name + "=\"", '"')
  }

  /** No `name="` in the markup, no value. */
  lemma AttributeValuesNone(s: string, name: string)
    requires !Contains(s, name + "=\"")
    ensures AttributeValues(s, name) == []
  {
    ScanNoOpener(s, name + "=\"", '"');
  }

  /** The first `name="` that is followed by a closing quote gives the first
      value; the search resumes after that quote. */
  lemma AttributeValuesFirst(s: string, name: string, i: nat, v: string)
    requires '"' !in v
    requires OccursAt(s, QuotedAttribute(name, v), i)
    requires forall k :: 0 <= k < i ==> !OccursAt(s, name + "=\"", k)
    ensures AttributeValues(s, name) == [v] + AttributeValues(s[i + |QuotedAttribute(name, v)|..], name)
  {
    var open := name + "=\"";
    var e := i + |QuotedAttribute(name, v)|;
    assert QuotedAttribute(name, v) == open + v + ['"'];
    assert e == i + |open| + |v| + 1;
    ScanFirstMatch(s, open, '"', i, v);
    assert AttributeValues(s, name) == Scan(s, open, '"');
    assert AttributeValues(s[e..], name) == Scan(s[e..], open, '"');
  }

  /** `len(re.findall(tag + '[^>]*>', s, re.IGNORECASE))` for a tag opener
      written in lower case: each counted tag takes its opener and a `>`. */
  function TagCount(s: string, tag: string): (n: nat)
    requires |tag| > 0
    ensures n * (|tag| + 1) <= |s|
  {
    ScanCountBound(Lower(s), tag, '>');
    |Scan(Lower(s), tag, '>')|
  }

  /** Markup without the tag opener (in any case) counts none of that tag. */
  lemma TagCountNone(s: string, tag: string)
    requires |tag| > 0 && !Contains(Lower(s), tag)
    ensures TagCount(s, tag) == 0
  {
    ScanNoOpener(Lower(s), tag, '>');
  }

  /** `analyze_dom_patterns`: tag counts (case-insensitive) and attribute
      values in document order. Each counted tag takes at least its opener
      and a `>`, and every value listed stands quoted in the markup. */
  function AnalyzeDomPatterns(domSnippet: string): (d: DomPatterns)
    ensures d.inputFields * 7 <= |domSnippet| && d.buttonFields * 8 <= |domSnippet|
    ensures forall v :: v in d.dataTestAttrs ==> Contains(domSnippet, QuotedAttribute("data-test", v))
    ensures forall v :: v in d.ariaLabels ==> Contains(domSnippet, QuotedAttribute("aria-label", v))
    ensures forall v :: v in d.placeholders ==> Contains(domSnippet, QuotedAttribute("placeholder", v))
    ensures forall v :: v in d.classNames ==> Contains(domSnippet, QuotedAttribute("class", v))
    ensures forall v :: v in d.ids ==> Contains(domSnippet, QuotedAttribute("id", v))
    ensures d.inputFields == TagCount(domSnippet, "<input")
    ensures d.buttonFields == TagCount(domSnippet, "<button")
    ensures d.dataTestAttrs == AttributeValues(domSnippet, "data-test")
    ensures d.ariaLabels == AttributeValues(domSnippet, "aria-label")
    ensures d.placeholders == AttributeValues(domSnippet, "placeholder")
    ensures d.classNames == AttributeValues(domSnippet, "class")
    ensures d.ids == AttributeValues(domSnippet, "id")
  {
    DomPatterns(
      TagCount(domSnippet, "<input"),
      TagCount(domSnippet, "<button"),
      AttributeValues(domSnippet, "data-test"),
      AttributeValues(domSnippet, "aria-label"),
      AttributeValues(domSnippet, "placeholder"),
      AttributeValues(domSnippet, "class"),
      AttributeValues(domSnippet, "id"))
  }

  /** A candidate commits when it realizes and validates with the default
      timeout. */
  predicate Commits(page: Page, candidate: Option<Record>) {
    candidate.Some? && Accepts(page, DefaultTimeout, candidate.value)
  }

  /** `EnhancedResilientFinder`: repair through the service alone. */
  class EnhancedResilientFinder {
    const kb: SelectorKB
    const ollamaRepair: OllamaAIRepair

    constructor (kb: SelectorKB, ollamaRepair: OllamaAIRepair)
      ensures this.kb == kb && this.ollamaRepair == ollamaRepair
    {
      this.kb := kb;
      this.ollamaRepair := ollamaRepair;
    }

    /** `find_with_ollama_ai_repair`: without the service nothing is
      requested and nothing changes; otherwise the proposal is committed at
      the top of the field's list only when it validates. */
    method FindWithOllamaAiRepair(page: Page, tags: TagsReply, service: GenerateService,
                                  matcher: Matcher, parse: Parser,
                                  provider: string, field: string, domSnippet: string,
                                  failedStrategies: seq<Record>, now: string)
      returns (locator: Option<Query>, newStrategy: Option<Record>, ghost requested: bool)
      modifies kb
      ensures requested <==> ollamaRepair.CheckOllamaAvailable(tags)
      ensures var c := ollamaRepair.Candidate(field, domSnippet, failedStrategies, service, matcher, parse);
        if requested && Commits(page, c) then
          && locator == Some(ApplyStrategy(c.value).query) && newStrategy == c
          && kb.providers == StrategyAdded(old(kb.providers), provider, field, c.value, 0)
          && kb.version == old(kb.version) && kb.lastUpdated == now
          && kb.persisted == Stored(kb.Doc())
        else
          locator == None && newStrategy == None && unchanged(kb)
    {
      var available := ollamaRepair.CheckOllamaAvailable(tags);
      requested := available;
      if !available {
        return None, None, requested;
      }
      var proposal := ollamaRepair.ProposeStrategyWithOllama(field, domSnippet, failedStrategies,
                                                            provider, service, matcher, parse);
      if proposal.Some? {
        var strategy := AsStrategy(proposal.value);
        if strategy.Some? {
          var applied := ApplyStrategy(strategy.value);
          if applied.Realized? && Validate(page, applied.query, DefaultTimeout) {
            kb.AddStrategy(provider, field, strategy.value, 0, now);
            return Some(applied.query), strategy, requested;
          }
        }
      }
      return None, None, requested;
    }
  }
}
