/** The multi-strategy element locator: the ranked search over the stored
    strategies, the heuristic repair that proposes CSS selectors from the
    field name and a markup excerpt, and the repair that falls back to the
    language-model service when the heuristics propose nothing. */
module Finder {
  import opened Prelude
  import opened Text
  import opened Strategies
  import opened SelectorKnowledgeBase
  import opened OllamaRepair

  /** Selectors proposed for input fields, by the field name's intent. */
  const PickupSelectors: seq<string> := [
    "input[placeholder*='pickup']",
    "input[placeholder*='Pick-up']",
    "input[name*='pickup']",
    "input[id*='pickup']"
  ]

  const DropoffSelectors: seq<string> := [
    "input[placeholder*='dropoff']",
    "input[placeholder*='Drop-off']",
    "input[name*='dropoff']",
    "input[id*='dropoff']"
  ]

  const DateSelectors: seq<string> := [
    "input[type='date']",
    "input[placeholder*='date']",
    "input[name*='date']"
  ]

  /** Selectors proposed whenever the markup mentions a button. */
  const ButtonSelectors: seq<string> := [
    "button[type='submit']",
    "button:has-text('Get')",
    "button:has-text('Search')",
    "button:has-text('Find')"
  ]

  /** CSS strategy records for a list of selectors, in order. */
  function CssAll(selectors: seq<string>): (r: seq<Record>)
    ensures |r| == |selectors|
    ensures forall i :: 0 <= i < |r| ==> r[i] == Css(selectors[i])
  {
    seq(|selectors|, i requires 0 <= i < |selectors| => Css(selectors[i]))
  }

  /** The input-field group: only when the lowered markup mentions "input",
      and then exactly one of pickup, drop-off or date, checked in that order
      on the lowered field name. */
  function InputProposals(field: string, domSnippet: string): (r: seq<Record>)
    ensures !Contains(Lower(domSnippet), "input") ==> r == []
    ensures Contains(Lower(domSnippet), "input") && (Contains(Lower(field), "pickup") || Contains(Lower(field), "pick-up"))
      ==> r == CssAll(PickupSelectors)
    ensures Contains(Lower(domSnippet), "input") && !(Contains(Lower(field), "pickup") || Contains(Lower(field), "pick-up"))
      && (Contains(Lower(field), "dropoff") || Contains(Lower(field), "drop-off"))
      ==> r == CssAll(DropoffSelectors)
    ensures Contains(Lower(domSnippet), "input") && !(Contains(Lower(field), "pickup") || Contains(Lower(field), "pick-up"))
      && !(Contains(Lower(field), "dropoff") || Contains(Lower(field), "drop-off")) && Contains(Lower(field), "date")
      ==> r == CssAll(DateSelectors)
    ensures !(Contains(Lower(field), "pickup") || Contains(Lower(field), "pick-up"))
      && !(Contains(Lower(field), "dropoff") || Contains(Lower(field), "drop-off")) && !Contains(Lower(field), "date")
      ==> r == []
  {
    var f := Lower(field);
    if !Contains(Lower(domSnippet), "input") then []
    else if Contains(f, "pickup") || Contains(f, "pick-up") then CssAll(PickupSelectors)
    else if Contains(f, "dropoff") || Contains(f, "drop-off") then CssAll(DropoffSelectors)
    else if Contains(f, "date") then CssAll(DateSelectors)
    else []
  }

  /** The button group: only when the lowered markup mentions "button". */
  function ButtonProposals(domSnippet: string): (r: seq<Record>)
    ensures r != [] <==> Contains(Lower(domSnippet), "button")
  {
    if Contains(Lower(domSnippet), "button") then CssAll(ButtonSelectors) else []
  }

  /** `any(keyword in value.lower() for keyword in keywords)`. */
  predicate AnyKeyword(value: string, keywords: seq<string>) {
    exists i :: 0 <= i < |keywords| && Contains(Lower(value), keywords[i])
  }

  /** The keywords an attribute value is checked against: the lowered field
      name without underscores, then a fixed list. */
  function Keywords(field: string, fixed: seq<string>): seq<string> {
    [Without(Lower(field), '_')] + fixed
  }

  const DataTestKeywords: seq<string> := ["input", "button", "card"]
  const AriaKeywords: seq<string> := ["pickup", "dropoff", "date"]

  /** The values that pass the keyword test, in their original order. */
  function Matching(values: seq<string>, keywords: seq<string>): (r: seq<string>)
    ensures |r| <= |values|
    ensures forall v :: v in r <==> v in values && AnyKeyword(v, keywords)
    decreases |values|
  {
    if values == [] then []
    else
      var last := values[|values| - 1];
      var front := values[..|values| - 1];
      assert values == front + [last];
      Matching(front, keywords) + (if AnyKeyword(last, keywords) then [last] else [])
  }

  /** The keyword filter distributes over concatenation, so the values
      that pass keep their relative order. */
  lemma {:induction false} MatchingAppend(a: seq<string>, b: seq<string>, keywords: seq<string>)
    ensures Matching(a + b, keywords) == Matching(a, keywords) + Matching(b, keywords)
    decreases |b|
  {
    if b == [] {
      assert a + b == a;
    } else {
      var front := b[..|b| - 1];
      var last := b[|b| - 1];
      var kept := if AnyKeyword(last, keywords) then [last] else [];
      assert (a + b)[..|a + b| - 1] == a + front && (a + b)[|a + b| - 1] == last;
      assert Matching(a + b, keywords) == Matching(a + front, keywords) + kept;
      assert Matching(b, keywords) == Matching(front, keywords) + kept;
      MatchingAppend(a, front, keywords);
    }
  }

  /** A single value passes exactly when it meets a keyword. */
  lemma MatchingOne(v: string, keywords: seq<string>)
    ensures Matching([v], keywords) == if AnyKeyword(v, keywords) then [v] else []
  {
    assert [v][..0] == [];
  }

  /** The attribute selector `[name='value']`. */
  function AttributeSelector(name: string, value: string): string {
    "[" + name + "='" + value + "']"
  }

  /** One CSS record per attribute value, in order. */
  function AttributeRecords(name: string, values: seq<string>): (r: seq<Record>)
    ensures |r| == |values|
    ensures forall k :: 0 <= k < |r| ==> r[k] == Css(AttributeSelector(name, values[k]))
  {
    seq(|values|, k requires 0 <= k < |values| => Css(AttributeSelector(name, values[k])))
  }

  /** Records of concatenated value lists are the concatenated records. */
  lemma AttributeRecordsAppend(name: string, a: seq<string>, b: seq<string>)
    ensures AttributeRecords(name, a + b) == AttributeRecords(name, a) + AttributeRecords(name, b)
  {
  }

  /** One CSS proposal per value of the attribute that passes the keyword
      test, in document order; each value stands quoted in the markup. */
  function AttributeProposals(domSnippet: string, name: string, keywords: seq<string>): (r: seq<Record>)
    ensures forall k :: 0 <= k < |r| ==>
      exists v :: r[k] == Css(AttributeSelector(name, v))
        && AnyKeyword(v, keywords) && Contains(domSnippet, QuotedAttribute(name, v))
  {
    var vs := Matching(AttributeValues(domSnippet, name), keywords);
    var r := AttributeRecords(name, vs);
    assert forall k :: 0 <= k < |r| ==> vs[k] in vs && r[k] == Css(AttributeSelector(name, vs[k]));
    r
  }

  /** No `name="` in the markup, no proposal for that attribute. */
  lemma AttributeProposalsNone(domSnippet: string, name: string, keywords: seq<string>)
    requires !Contains(domSnippet, name + "=\"")
    ensures AttributeProposals(domSnippet, name, keywords) == []
  {
    AttributeValuesNone(domSnippet, name);
  }

  /** The first quoted value of the attribute gives the first proposal when
      it passes the keyword test and none when it does not; the proposals
      for the rest of the markup follow, in order. */
  lemma AttributeProposalsFirst(domSnippet: string, name: string, keywords: seq<string>, i: nat, v: string)
    requires '"' !in v
    requires OccursAt(domSnippet, QuotedAttribute(name, v), i)
    requires forall k :: 0 <= k < i ==> !OccursAt(domSnippet, name + "=\"", k)
    ensures AttributeProposals(domSnippet, name, keywords)
         == (if AnyKeyword(v, keywords) then [Css(AttributeSelector(name, v))] else [])
          + AttributeProposals(domSnippet[i + |QuotedAttribute(name, v)|..], name, keywords)
  {
    var rest := domSnippet[i + |QuotedAttribute(name, v)|..];
    var tail := AttributeValues(rest, name);
    var first := if AnyKeyword(v, keywords) then [Css(AttributeSelector(name, v))] else [];
    AttributeValuesFirst(domSnippet, name, i, v);
    MatchingAppend([v], tail, keywords);
    MatchingOne(v, keywords);
    AttributeRecordsAppend(name, Matching([v], keywords), Matching(tail, keywords));
    assert AttributeRecords(name, Matching([v], keywords)) == first;
    ProposalsAreRecords(domSnippet, name, keywords);
    ProposalsAreRecords(rest, name, keywords);
  }

  lemma ProposalsAreRecords(domSnippet: string, name: string, keywords: seq<string>)
    ensures AttributeProposals(domSnippet, name, keywords)
         == AttributeRecords(name, Matching(AttributeValues(domSnippet, name), keywords))
  {
  }

  /** One more value adds its proposal when it passes the keyword test. */
  lemma RecordsStep(name: string, values: seq<string>, i: nat, keywords: seq<string>)
    requires i < |values|
    ensures AttributeRecords(name, Matching(values[..i + 1], keywords))
         == AttributeRecords(name, Matching(values[..i], keywords))
          + (if AnyKeyword(values[i], keywords) then [Css(AttributeSelector(name, values[i]))] else [])
  {
    var kept := Matching([values[i]], keywords);
    MatchingStep(values, i, keywords);
    AttributeRecordsAppend(name, Matching(values[..i], keywords), kept);
    MatchingOne(values[i], keywords);
    if AnyKeyword(values[i], keywords) {
      assert AttributeRecords(name, kept) == [Css(AttributeSelector(name, values[i]))];
    } else {
      assert AttributeRecords(name, kept) == [];
    }
  }

  lemma MatchingStep(values: seq<string>, i: nat, keywords: seq<string>)
    requires i < |values|
    ensures Matching(values[..i + 1], keywords) == Matching(values[..i], keywords) + Matching([values[i]], keywords)
  {
    assert values[..i + 1] == values[..i] + [values[i]];
    MatchingAppend(values[..i], [values[i]], keywords);
  }

  /** Every proposal of `_ai_propose_strategy`, in the order they are
      collected: input group, button group, data-test values, aria labels. */
  function HeuristicProposals(field: string, domSnippet: string): seq<Record> {
    InputProposals(field, domSnippet)
      + ButtonProposals(domSnippet)
      + AttributeProposals(domSnippet, "data-test", Keywords(field, DataTestKeywords))
      + AttributeProposals(domSnippet, "aria-label", Keywords(field, AriaKeywords))
  }

  /** The heuristic's answer: the first proposal, if any. */
  function Heuristic(field: string, domSnippet: string): Option<Record> {
    var ps := HeuristicProposals(field, domSnippet);
    if ps == [] then None else Some(ps[0])
  }

  /** A CSS record realizes to a locator on its selector. */
  lemma CssProposalRealizes(selector: string)
    ensures ApplyStrategy(Css(selector)) == Realized(ByLocator(selector))
  {
  }

  /** Every heuristic proposal is a CSS record, so the first one realizes to
      a locator. */
  lemma HeuristicIsLocator(field: string, domSnippet: string)
    ensures Heuristic(field, domSnippet).Some? ==>
      ApplyStrategy(Heuristic(field, domSnippet).value).Realized?
      && ApplyStrategy(Heuristic(field, domSnippet).value).query.ByLocator?
  {
    var a := InputProposals(field, domSnippet);
    var b := ButtonProposals(domSnippet);
    var c := AttributeProposals(domSnippet, "data-test", Keywords(field, DataTestKeywords));
    var d := AttributeProposals(domSnippet, "aria-label", Keywords(field, AriaKeywords));
    var ps := a + b + c + d;
    assert ps == HeuristicProposals(field, domSnippet);
    if ps != [] {
      var sel: string;
      if a != [] {
        assert ps[0] == a[0];
        var f := Lower(field);
        if Contains(f, "pickup") || Contains(f, "pick-up") {
          sel := PickupSelectors[0];
        } else if Contains(f, "dropoff") || Contains(f, "drop-off") {
          sel := DropoffSelectors[0];
        } else {
          sel := DateSelectors[0];
        }
        assert a[0] == Css(sel);
      } else if b != [] {
        assert ps[0] == b[0];
        sel := ButtonSelectors[0];
        assert b[0] == Css(sel);
      } else if c != [] {
        assert ps[0] == c[0];
        var v :| c[0] == Css(AttributeSelector("data-test", v));
        sel := AttributeSelector("data-test", v);
      } else {
        assert ps[0] == d[0];
        var v :| d[0] == Css(AttributeSelector("aria-label", v));
        sel := AttributeSelector("aria-label", v);
      }
      assert ps[0] == Css(sel);
      CssProposalRealizes(sel);
    }
  }

  /** What the finder tries when every stored strategy has failed: the
      heuristic's first proposal; only when it has none and the service is
      available, the service's proposal. */
  function RepairCandidate(client: OllamaAIRepair, tags: TagsReply, service: GenerateService,
                           matcher: Matcher, parse: Parser,
                           field: string, domSnippet: string, failedStrategies: seq<Record>): Option<Record>
  {
    var h := Heuristic(field, domSnippet);
    if h.Some? then h
    else if client.CheckOllamaAvailable(tags) then client.Candidate(field, domSnippet, failedStrategies, service, matcher, parse)
    else None
  }

  /** The button group precedes the data-test group: when no input
      proposal applies and the markup mentions a button, the submit-button
      selector wins whatever data-test or aria-label values the markup
      carries. */
  lemma ButtonsBeforeAttributes(field: string, domSnippet: string)
    requires InputProposals(field, domSnippet) == []
    requires Contains(Lower(domSnippet), "button")
    ensures Heuristic(field, domSnippet) == Some(Css("button[type='submit']"))
  {
    assert HeuristicProposals(field, domSnippet)[0] == ButtonProposals(domSnippet)[0];
  }

  /** The input intents are exclusive and checked pickup first: a field
      whose lowered name mentions "pickup" gets the pickup selectors even
      when it also mentions "date" or "dropoff". */
  lemma PickupIntentFirst(field: string, domSnippet: string)
    requires Contains(Lower(domSnippet), "input") && Contains(Lower(field), "pickup")
    ensures Heuristic(field, domSnippet) == Some(Css("input[placeholder*='pickup']"))
  {
    assert HeuristicProposals(field, domSnippet)[0] == CssAll(PickupSelectors)[0];
  }

  /** The `pickup_date` field over markup with an input gets the pickup
      text-box selector, not a date selector. */
  lemma PickupDateField(domSnippet: string)
    requires Contains(Lower(domSnippet), "input")
    ensures Heuristic("pickup_date", domSnippet) == Some(Css("input[placeholder*='pickup']"))
  {
    assert OccursAt(Lower("pickup_date"), "pickup", 0);
    PickupIntentFirst("pickup_date", domSnippet);
  }

  lemma ContainsPrefix(s: string, a: string, b: string)
    requires Contains(s, a + b)
    ensures Contains(s, a)
  {
    var i :| 0 <= i <= |s| - |a + b| && OccursAt(s, a + b, i);
    assert s[i..i + |a|] == (a + b)[..|a|] == a;
    assert OccursAt(s, a, i);
  }

  /** An attribute proposal exists only where the markup carries the
      attribute's opening text. */
  lemma AttributeProposalNeedsAttribute(domSnippet: string, name: string, keywords: seq<string>)
    requires AttributeProposals(domSnippet, name, keywords) != []
    ensures Contains(domSnippet, name + "=\"")
  {
    var r := AttributeProposals(domSnippet, name, keywords);
    var v :| r[0] == Css(AttributeSelector(name, v)) && Contains(domSnippet, QuotedAttribute(name, v));
    assert QuotedAttribute(name, v) == (name + "=\"") + (v + "\"");
    ContainsPrefix(domSnippet, name + "=\"", v + "\"");
  }

  /** The heuristic proposes nothing for markup that mentions neither an
      input nor a button and carries no `data-test="` or `aria-label="`
      text. */
  lemma HeuristicNeedsMarkup(field: string, domSnippet: string)
    requires Heuristic(field, domSnippet).Some?
    ensures || Contains(Lower(domSnippet), "input") || Contains(Lower(domSnippet), "button")
            || Contains(domSnippet, "data-test=\"") || Contains(domSnippet, "aria-label=\"")
  {
    var ip := InputProposals(field, domSnippet);
    var bp := ButtonProposals(domSnippet);
    var dt := AttributeProposals(domSnippet, "data-test", Keywords(field, DataTestKeywords));
    var al := AttributeProposals(domSnippet, "aria-label", Keywords(field, AriaKeywords));
    assert ip + bp + dt + al != [];
    if ip == [] && bp == [] {
      if dt != [] {
        AttributeProposalNeedsAttribute(domSnippet, "data-test", Keywords(field, DataTestKeywords));
        assert "data-test" + "=\"" == "data-test=\"";
      } else {
        AttributeProposalNeedsAttribute(domSnippet, "aria-label", Keywords(field, AriaKeywords));
        assert "aria-label" + "=\"" == "aria-label=\"";
      }
    }
  }

  /** The service is never consulted while the heuristic has a proposal:
      the candidate is the same for every listing, service and parser. */
  lemma HeuristicShortCircuits(client: OllamaAIRepair, tags: TagsReply, service: GenerateService,
                               matcher: Matcher, parse: Parser,
                               tags': TagsReply, service': GenerateService,
                               matcher': Matcher, parse': Parser,
                               field: string, domSnippet: string, failedStrategies: seq<Record>)
    requires Heuristic(field, domSnippet).Some?
    ensures RepairCandidate(client, tags, service, matcher, parse, field, domSnippet, failedStrategies)
         == RepairCandidate(client, tags', service', matcher', parse', field, domSnippet, failedStrategies)
         == Heuristic(field, domSnippet)
  {
  }

  /** A committed repair ranks first: the next ranked search on the same
      page with the default timeout stops at index 0. */
  lemma RepairedStrategyRanksFirst(ps: Providers, provider: string, field: string, rec: Record, page: Page)
    requires Accepts(page, DefaultTimeout, rec)
    ensures FirstWhere(Lookup(StrategyAdded(ps, provider, field, rec, 0), provider, field),
                       (r: Record) => Accepts(page, DefaultTimeout, r)) == 0
  {
    assert Lookup(StrategyAdded(ps, provider, field, rec, 0), provider, field)[0] == rec;
  }

  /** `ResilientFinder`: the store plus a service client with its defaults. */
  class ResilientFinder {
    const kb: SelectorKB
    const ollamaRepair: OllamaAIRepair

    constructor (kb: SelectorKB)
      ensures this.kb == kb
      ensures ollamaRepair.model == DefaultModel && ollamaRepair.baseUrl == DefaultBaseUrl
    {
      this.kb := kb;
      ollamaRepair := new OllamaAIRepair(DefaultModel, DefaultBaseUrl);
    }

    /** `find_with_strategies`: the stored strategies are tried in rank
      order; the first that realizes and validates within the timeout wins
      and has its success recorded (and the store saved). When none does,
      nothing changes. */
    method FindWithStrategies(page: Page, provider: string, field: string, timeout: int, now: string)
      returns (locator: Option<Query>, index: int)
      modifies kb
      ensures index == FirstWhere(Lookup(old(kb.providers), provider, field), (r: Record) => Accepts(page, timeout, r))
      ensures index == -1 ==> locator == None && unchanged(kb)
      ensures 0 <= index ==>
        && locator == Some(ApplyStrategy(Lookup(old(kb.providers), provider, field)[index]).query)
        && kb.providers == SuccessRecorded(old(kb.providers), provider, field, index, now)
        && kb.version == old(kb.version) && kb.lastUpdated == now
        && kb.persisted == Stored(kb.Doc())
    {
      var strategies := kb.GetStrategies(provider, field);
      var i := 0;
      while i < |strategies|
        invariant 0 <= i <= |strategies|
        invariant forall k :: 0 <= k < i ==> !Accepts(page, timeout, strategies[k])
      {
        var applied := ApplyStrategy(strategies[i]);
        if applied.Realized? && Validate(page, applied.query, timeout) {
          kb.RecordSuccess(provider, field, i, now);
          return Some(applied.query), i;
        }
        i := i + 1;
      }
      return None, -1;
    }

    /** `_ai_propose_strategy`: collect the proposals group by group and
      return the first. The failed strategies play no part, and every
      proposal is a CSS locator. */
    method AiProposeStrategy(field: string, domSnippet: string, failedStrategies: seq<Record>)
      returns (proposal: Option<Record>)
      ensures proposal == Heuristic(field, domSnippet)
      ensures proposal.Some? ==> ApplyStrategy(proposal.value).Realized? && ApplyStrategy(proposal.value).query.ByLocator?
    {
      var proposals: seq<Record> := [];
      var lowered := Lower(domSnippet);
      var f := Lower(field);
      if Contains(lowered, "input") {
        if Contains(f, "pickup") || Contains(f, "pick-up") {
          proposals := proposals + CssAll(PickupSelectors);
        } else if Contains(f, "dropoff") || Contains(f, "drop-off") {
          proposals := proposals + CssAll(DropoffSelectors);
        } else if Contains(f, "date") {
          proposals := proposals + CssAll(DateSelectors);
        }
      }
      assert proposals == InputProposals(field, domSnippet);
      if Contains(lowered, "button") {
        proposals := proposals + CssAll(ButtonSelectors);
      }
      assert proposals == InputProposals(field, domSnippet) + ButtonProposals(domSnippet);

      proposals := AppendMatching(proposals, domSnippet, "data-test", Keywords(field, DataTestKeywords));
      proposals := AppendMatching(proposals, domSnippet, "aria-label", Keywords(field, AriaKeywords));
      assert proposals == HeuristicProposals(field, domSnippet);
      if proposals == [] {
        return None;
      }
      proposal := Some(proposals[0]);
      HeuristicIsLocator(field, domSnippet);
    }

    /** `_ai_propose_strategy`'s scan of one attribute: every value that
      passes the keyword test adds one CSS proposal. */
    method AppendMatching(proposals: seq<Record>, domSnippet: string, name: string, keywords: seq<string>)
      returns (extended: seq<Record>)
      ensures extended == proposals + AttributeProposals(domSnippet, name, keywords)
    {
      var values := AttributeValues(domSnippet, name);
      extended := proposals;
      for i := 0 to |values|
        invariant extended == proposals + AttributeRecords(name, Matching(values[..i], keywords))
      {
        RecordsStep(name, values, i, keywords);
        if AnyKeyword(values[i], keywords) {
          extended := extended + [Css(AttributeSelector(name, values[i]))];
        }
      }
      assert values[..|values|] == values;
      ProposalsAreRecords(domSnippet, name, keywords);
    }

    /** `find_with_ai_repair`: the heuristic first; the service only when
      the heuristic proposes nothing and the service is available. A
      candidate that realizes and validates is stored at the top of the
      field's list and returned; otherwise nothing changes. */
    method FindWithAiRepair(page: Page, tags: TagsReply, service: GenerateService,
                            matcher: Matcher, parse: Parser,
                            provider: string, field: string, domSnippet: string,
                            failedStrategies: seq<Record>, now: string)
      returns (locator: Option<Query>, newStrategy: Option<Record>, ghost asked: bool)
      modifies kb
      ensures asked <==> Heuristic(field, domSnippet).None? && ollamaRepair.CheckOllamaAvailable(tags)
      ensures var c := RepairCandidate(ollamaRepair, tags, service, matcher, parse, field, domSnippet, failedStrategies);
        if Commits(page, c) then
          && locator == Some(ApplyStrategy(c.value).query) && newStrategy == c
          && kb.providers == StrategyAdded(old(kb.providers), provider, field, c.value, 0)
          && kb.version == old(kb.version) && kb.lastUpdated == now
          && kb.persisted == Stored(kb.Doc())
        else
          locator == None && newStrategy == None && unchanged(kb)
    {
      var candidate := AiProposeStrategy(field, domSnippet, failedStrategies);
      asked := false;
      if candidate.None? {
        var available := ollamaRepair.CheckOllamaAvailable(tags);
        if available {
          asked := true;
          var proposal := ollamaRepair.ProposeStrategyWithOllama(field, domSnippet, failedStrategies,
                                                                provider, service, matcher, parse);
          candidate := if proposal.Some? then AsStrategy(proposal.value) else None;
        }
      }
      if candidate.Some? {
        var applied := ApplyStrategy(candidate.value);
        if applied.Realized? && Validate(page, applied.query, DefaultTimeout) {
          kb.AddStrategy(provider, field, candidate.value, 0, now);
          return Some(applied.query), candidate, asked;
        }
      }
      return None, None, asked;
    }
  }
}
