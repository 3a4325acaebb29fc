# Self-healing selector core, modelled in Dafny

This project models the core of a browser-automation scraper for truck-rental
quotes that keeps working when a site's markup changes:

- **Selector knowledge base** (`SelectorKnowledgeBase`): for each provider and
  field it keeps an ordered list of locator strategies (label, placeholder,
  role, CSS, XPath, test id, text) with a success count and a last-success
  timestamp. The base loads from a file or falls back to a seeded document.
  It inserts, promotes and records successes, and saves the whole document
  after every change. The class `SelectorKB` holds the document. Its ghost
  field `persisted` stands for what the file holds.
- **Resilient finder** (`Finder`): tries the stored strategies in rank order
  and records a success for the first one that resolves on the page. When all
  of them fail, it repairs: a heuristic first proposes CSS selectors from the
  field name and a markup excerpt. Only when the heuristic proposes nothing
  is the local language-model service asked. A validated proposal is stored
  at the top of the field's list.
- **Language-model repair** (`OllamaRepair`): probes whether the service is
  available and builds a bounded prompt. It then digs a strategy object out
  of the free-text reply through a cascade: four extraction patterns, then
  the whole reply, then a fixed last resort. This module also holds the
  markup statistics helper and the finder that uses the service alone.
- **Result-text parsers** (`PenskeParsers`): the included-miles parser and
  the amount match of the price parser.

Shared vocabulary sits in `Prelude` and `Text`: ASCII lower-casing,
substring tests, `str.strip`, `str.replace`, non-overlapping `findall` of
`open…close` shapes, and decimal digits. The JSON value, the strategy record
and strategy application sit in `Strategies`.

The page, the HTTP service, `json.loads`, the regular expressions of the
reply cascade and the clock are **parameters**:

- a page is a function from a realized query and a timeout to "found";
- the service is a function from a request to a reply;
- the four reply patterns are a function from pattern and text to matches;
- the decoder is a function from text to an optional JSON value;
- every timestamp is passed in as `now`.

The button proposals are collected before the data-test and aria-label
proposals (resilient_finder.py:128-146); `Finder.ButtonsBeforeAttributes`
proves it.

The seeded default document carries three `role` strategies without a
`role` parameter (see "## Findings"). The loader follows the code and falls
back to that document as written (`SelectorKnowledgeBase.SeedAsWritten`);
`SelectorKnowledgeBase.Seed` is the corrected document, and the lemmas about
it state what the correction gives.

## Model

| member | source | states |
|---|---|---|
| `Text.Strip` | ollama_ai_repair.py:73 | The result is a slice of the input with only whitespace cut from either end, and it neither starts nor ends with whitespace. |
| `Text.Lower` | resilient_finder.py:105 | `lower()`: same length; each ASCII capital becomes its small letter and every other character is kept in place. |
| `Text.ContainsWithin` | resilient_finder.py:105 | The `in` test: an occurrence inside a suffix of the text is an occurrence in the whole text. |
| `Text.Without` | resilient_finder.py:139 | `replace(c, "")`: `c` no longer occurs, and every other character keeps its multiplicity. |
| `Text.WithoutAppend` | resilient_finder.py:139 | Removal works piece by piece: removing from a concatenation is the concatenation of the removals, so the kept characters stay in their order. |
| `Text.WithoutOne` | resilient_finder.py:139 | A single character is dropped exactly when it is the removed one. |
| `Text.ScanNoOpener` | ollama_ai_repair.py:121-125 | `findall` of an `open…close` shape finds nothing in a text without the opener. |
| `Text.ScanSkip` | ollama_ai_repair.py:121-125 | A position where the opener does not start is passed over. |
| `Text.ScanSkipTo` | ollama_ai_repair.py:121-125 | Every position before the first opener is passed over: the matches are those of the text from there on. |
| `Text.ScanAtMatch` | ollama_ai_repair.py:121-125 | An opener followed by a value free of the closer and the closer yields that value first; the search resumes after the closer. |
| `Text.ScanFirstMatch` | ollama_ai_repair.py:121-125 | The first opener, when a value free of the closer and the closer follow it, gives the first match; the remaining matches are those after the closer, in order. |
| `Text.ScanSound` | ollama_ai_repair.py:121-125 | Every value `findall` returns for an `open…"` pattern is free of the closing character and stands between `open` and the closer in the text. |
| `Text.ScanCountBound` | ollama_ai_repair.py:119-120 | The number of matches times (opener length + 1) never exceeds the text length. |
| `Strategies.NewSelectorStrategy` | selector_kb.py:14-18 | Kind, parameters and count are kept. A non-empty timestamp is kept; an absent or empty one becomes the clock reading, so the timestamp is non-empty whenever the clock reading is. |
| `Strategies.ToDict` | selector_kb.py:20-26 | All four fields are written, both bookkeeping keys present. |
| `Strategies.FromDict` | selector_kb.py:28-35 | Kind and parameters are taken over. A missing count becomes 0. A missing timestamp becomes the clock reading. |
| `Strategies.FromDictToDict` | selector_kb.py:14-35 | A strategy with a non-empty timestamp survives `to_dict` followed by `from_dict` unchanged. |
| `Strategies.EmptyTimestampReplaced` | selector_kb.py:18 | An empty timestamp does not survive: `last_success or now()` replaces it by the clock reading. |
| `Strategies.ToDictFromDict` | selector_kb.py:20-35 | A record carrying both bookkeeping keys and a non-empty timestamp survives `from_dict` followed by `to_dict`. |
| `Strategies.ApplyStrategy` | resilient_finder.py:38-58 | An unknown kind gives no locator, and only an unknown kind does. A known kind gives a locator exactly when all its parameters are present. Otherwise it fails on the first missing key in the order the code reads them. |
| `Strategies.ApplyStrategyFor` | resilient_finder.py:43-56 | Every kind of locator is reachable: each query has a record that realizes to it. |
| `Strategies.XPathIsPrefixedLocator` | resilient_finder.py:49-52 | An XPath strategy realizes to the same locator as a CSS strategy whose selector is `xpath=` followed by the expression. |
| `Strategies.Validate` | resilient_finder.py:60-66 | True exactly when the page finds the realized query within the timeout. |
| `Strategies.AsStrategy` | resilient_finder.py:38-41 | A proposal becomes a record only when it is an object whose `strategy` is text and whose `params` is an object. The record carries no bookkeeping keys. |
| `Strategies.AsStrategyOfJson` | resilient_finder.py:38-41 | Reading back the JSON shape of a record without bookkeeping gives the same record. |
| `SelectorKnowledgeBase.Lookup` | selector_kb.py:135-137 | An unknown provider or field gives the empty list. Otherwise the result is the stored list. |
| `SelectorKnowledgeBase.RemoveAt` | selector_kb.py:157 | `list.pop(i)`: one element fewer; the elements before `i` stay and those after it move down by one; the multiset loses exactly element `i`. |
| `SelectorKnowledgeBase.InsertAt` | selector_kb.py:149 | `list.insert`: the list gets one element more, and `x` sits at Python's clamped insertion point (negative positions count from the end). The elements before it are unchanged, those after it shift by one, and the multiset gains exactly `x`. |
| `SelectorKnowledgeBase.MoveToFront` | selector_kb.py:157-158 | `pop(i)` then `insert(0, …)`: the length is kept and element `i` comes first. The elements before `i` move down by one, the others stay in place, and the result is a permutation. |
| `SelectorKnowledgeBase.StrategyAdded` | selector_kb.py:139-149 | Missing provider and field entries are created, and the targeted list is the old list with the record inserted. Every other provider and field is untouched. |
| `SelectorKnowledgeBase.Promoted` | selector_kb.py:152-158 | A valid index moves its record to the front. Keys and all other lists are unchanged. Any other index changes nothing. |
| `SelectorKnowledgeBase.SuccessRecorded` | selector_kb.py:161-168 | A valid index replaces only that record by one with count + 1 (from 0 when absent) and the new stamp. Length, order and keys are kept. Any other index changes nothing. |
| `SelectorKnowledgeBase.RepeatedSuccess` | selector_kb.py:161-169 | M recorded successes raise the count by exactly M and leave the last clock reading. Every record keeps its kind, parameters and position. |
| `SelectorKnowledgeBase.SeedAsWritten` | selector_kb.py:54-127 | The default document as written: version "1.0", stamped with the clock reading, the single provider `penske`, and the `submit_button` list with the three role entries that carry no role. |
| `SelectorKnowledgeBase.Seed` | selector_kb.py:54-127 | The corrected default document: the one as written with button roles on the three role entries, and nothing else changed. |
| `SelectorKnowledgeBase.SeedRoleEntriesNeverRealize` | selector_kb.py:93-96 | As written, the three seeded `role` strategies of `submit_button` always fail on the missing `role` key. |
| `SelectorKnowledgeBase.PenskeSeedRealizes` | selector_kb.py:58-124 | Every seeded list of the `penske` provider realizes to a locator, given a `submit_button` list that does. |
| `SelectorKnowledgeBase.SeedEntriesRealize` | selector_kb.py:54-127 | In the corrected seed (button roles), every strategy of every provider and field realizes to a locator. |
| `SelectorKnowledgeBase.Load` | selector_kb.py:44-54 | A file that parses gives its document. A missing or unreadable file gives the default document as written, stamped with the clock reading. Loading never fails. |
| `SelectorKnowledgeBase.FreshStoreSkipsRoleEntries` | selector_kb.py:44-96 | On a fresh or unreadable store, the ranked search over `submit_button` never stops at one of the three role entries, whatever the page shows. |
| `SelectorKnowledgeBase.SelectorKB.constructor` | selector_kb.py:40-42 | The in-memory document is the loaded one, and the file is left as it was. |
| `SelectorKnowledgeBase.SelectorKB.SaveKb` | selector_kb.py:129-133 | Only the stamp changes. The file then holds the whole document, and loading it gives exactly the in-memory document. |
| `SelectorKnowledgeBase.SelectorKB.GetStrategies` | selector_kb.py:135-137 | Returns the field's list, or the empty list for an unknown provider or field. |
| `SelectorKnowledgeBase.SelectorKB.AddStrategy` | selector_kb.py:139-150 | The new provider map is `StrategyAdded` of the old one. The version is kept and the document is stamped and saved. |
| `SelectorKnowledgeBase.SelectorKB.PromoteStrategy` | selector_kb.py:152-159 | The new provider map is `Promoted` of the old one. A valid index saves; any other index leaves the object unchanged. |
| `SelectorKnowledgeBase.SelectorKB.RecordSuccess` | selector_kb.py:161-169 | The new provider map is `SuccessRecorded` of the old one. A valid index saves; any other index leaves the object unchanged. |
| `OllamaRepair.AnyNameContains` | ollama_ai_repair.py:26-28 | True exactly when some listed model name contains the configured name. |
| `OllamaRepair.OllamaAIRepair.constructor` | ollama_ai_repair.py:16-19 | Keeps model and base address. The generation address is the base address followed by `/api/generate`. |
| `OllamaRepair.OllamaAIRepair.CheckOllamaAvailable` | ollama_ai_repair.py:21-31 | True exactly when the listing answered 200 and some listed name contains the model name. A failed probe is false. |
| `OllamaRepair.BuildPrompt` | ollama_ai_repair.py:42-48 | The prompt names the field, holds a prefix of the markup of at most 1000 characters and a prefix of the failed strategies of at most 2, each as long as that bound allows. |
| `OllamaRepair.FirstPatternMatch` | ollama_ai_repair.py:85-93 | The nested loops return the first candidate that decodes and passes the key test, taking patterns in order and matches in text order, or none. |
| `OllamaRepair.ExtractFromReply` | ollama_ai_repair.py:78-108 | The cascade on the stripped reply returns the cascade's answer, and any answer passes the key test: first the pattern matches, then the whole reply, then the fixed last resort. |
| `OllamaRepair.ExtractionOrder` | ollama_ai_repair.py:78-108 | Whatever the cascade returns passes the `"strategy" in v and "params" in v` test. The first passing match wins over all earlier ones. The whole reply is tried only when no match passes. The last resort applies only after that, and only when the reply mentions "input" and "placeholder". |
| `OllamaRepair.LastResortIsCss` | ollama_ai_repair.py:103-108 | The fixed last-resort answer passes the key test and reads as the CSS strategy `input[placeholder*='location' i]`. |
| `OllamaRepair.NonObjectProposal` | ollama_ai_repair.py:95-99 | A decoded list holding both key words passes the key test and is returned, but it is not a strategy object and cannot be applied. |
| `OllamaRepair.OllamaAIRepair.ProposeStrategyWithOllama` | ollama_ai_repair.py:33-113 | One request: the bounded prompt, no streaming, 200 tokens, a 2048 context. The result is the cascade on the stripped reply of a status-200 answer, and none otherwise. Any result passes the key test. |
| `OllamaRepair.AttributeValues` | ollama_ai_repair.py:121-125 | Each value found for an attribute is free of `"` and stands quoted as `name="value"` in the markup. |
| `OllamaRepair.AttributeValuesNone` | ollama_ai_repair.py:121-125 | Markup without `name="` has no value for that attribute. |
| `OllamaRepair.AttributeValuesFirst` | ollama_ai_repair.py:121-125 | The first `name="` followed by a quote-free value and a quote gives the first value; the other values are those after that quote, in document order. |
| `OllamaRepair.TagCount` | ollama_ai_repair.py:119-120 | The count of `<tag…>` matches, case-insensitive; each counted tag takes its opener and a `>`, so the count times (opener length + 1) is at most the markup length. |
| `OllamaRepair.TagCountNone` | ollama_ai_repair.py:119-120 | Markup without the tag opener, in any case, counts none of that tag. |
| `OllamaRepair.AnalyzeDomPatterns` | ollama_ai_repair.py:115-128 | The input and button counts are the case-insensitive tag counts, bounded by the markup length (7 and 8 characters per tag). The five lists are the attribute values in document order, and every listed value stands quoted in the markup. |
| `OllamaRepair.EnhancedResilientFinder.constructor` | ollama_ai_repair.py:133-135 | Keeps the given store and client. |
| `OllamaRepair.EnhancedResilientFinder.FindWithOllamaAiRepair` | ollama_ai_repair.py:137-175 | The service is asked exactly when it is available. A proposal that realizes and validates is returned and inserted at the top of the field's list, and the store is saved. Otherwise the result is (none, none) and the store is unchanged. |
| `Finder.InputProposals` | resilient_finder.py:105-126 | No proposal unless the lowered markup mentions "input". Then the lowered field name picks exactly one group: pickup when it mentions "pickup" or "pick-up"; otherwise drop-off when it mentions "dropoff" or "drop-off", even if it also mentions "date"; otherwise date when it mentions "date"; otherwise none. |
| `Finder.ButtonProposals` | resilient_finder.py:128-134 | Button proposals exist exactly when the lowered markup mentions "button". |
| `Finder.Matching` | resilient_finder.py:138-139 | Keeps exactly the values that contain one of the keywords once lowered, and no more of them than there are values. |
| `Finder.MatchingAppend` | resilient_finder.py:138-139 | The keyword filter distributes over concatenation, so the kept values stay in their original order. |
| `Finder.MatchingOne` | resilient_finder.py:139 | A single value is kept exactly when it contains a keyword once lowered. |
| `Finder.AttributeRecordsAppend` | resilient_finder.py:138-146 | The proposals for concatenated value lists are the concatenated proposals. |
| `Finder.AttributeProposals` | resilient_finder.py:137-146 | Every proposal is `[name='v']` for a value `v` that passes the keyword test and stands quoted in the markup. |
| `Finder.AttributeProposalsNone` | resilient_finder.py:137-146 | Markup without `name="` gives no proposal for that attribute. |
| `Finder.AttributeProposalsFirst` | resilient_finder.py:137-146 | The first quoted value of the attribute gives the first proposal when it passes the keyword test and none when it does not; the proposals for the rest of the markup follow, in document order. |
| `Finder.ButtonsBeforeAttributes` | resilient_finder.py:128-149 | When no input proposal applies and the markup mentions a button, the first proposal is `button[type='submit']`, whatever data-test or aria-label values the markup carries. |
| `Finder.PickupIntentFirst` | resilient_finder.py:105-121 | Over markup with an input, a field whose lowered name mentions "pickup" gets the pickup selectors first, even if it also mentions "date" or "dropoff". |
| `Finder.PickupDateField` | resilient_finder.py:105-113 | The `pickup_date` field gets the pickup text-box selector, not a date selector. |
| `Finder.HeuristicNeedsMarkup` | resilient_finder.py:102-149 | The heuristic proposes something only if the markup mentions an input or a button, or carries `data-test="` or `aria-label="`. |
| `Finder.HeuristicIsLocator` | resilient_finder.py:108-149 | Whatever the heuristic returns is a CSS record, so applying it realizes to a locator. |
| `Finder.HeuristicShortCircuits` | resilient_finder.py:73-82 | While the heuristic has a proposal, the repair candidate is that proposal for every service state, reply and parser: the service is never consulted. |
| `Finder.RepairedStrategyRanksFirst` | resilient_finder.py:86-89 | After a committed repair, the next ranked search on the same page with the default timeout stops at index 0. |
| `Finder.ResilientFinder.constructor` | resilient_finder.py:15-17 | Keeps the store and creates a client with the default model `gpt-oss` at `http://localhost:11434`. |
| `Finder.ResilientFinder.FindWithStrategies` | resilient_finder.py:19-36 | Returns the index of the first stored strategy that realizes and validates, and its locator. Its success is recorded (`SuccessRecorded`) and the store is saved. When none does, the result is (none, -1) and the store is unchanged. |
| `Finder.ResilientFinder.AiProposeStrategy` | resilient_finder.py:96-149 | Returns the first of the input, button, data-test and aria-label proposals, in that group order. The failed strategies play no part. Every proposal realizes to a CSS locator. |
| `Finder.ResilientFinder.AppendMatching` | resilient_finder.py:137-146 | The scan over one attribute's values appends exactly the proposals for the values that pass the keyword test, in document order. |
| `Finder.ResilientFinder.FindWithAiRepair` | resilient_finder.py:68-94 | The service is asked exactly when the heuristic proposes nothing and the service is available. A candidate that realizes and validates is returned and inserted at position 0, and the store is saved. Otherwise the result is (none, none) and the store is unchanged. |
| `PenskeParsers.MilesIn` | penske_adapter.py:246-247 | No figure exactly when no position matches `(\d{1,6})\s*mile`. Otherwise the figure comes from the leftmost match and lies in 0..999999. |
| `PenskeParsers.ParseMiles` | penske_adapter.py:240-247 | Absent or empty text gives none. Text that mentions "unlimited" in any case gives none, whatever digits it holds. Otherwise the result is the leftmost match in the lowered text, below a million. |
| `PenskeParsers.MilesRoundTrip` | penske_adapter.py:240-247 | "n miles" parses back to n for every n up to 999999. |
| `PenskeParsers.SevenDigitMiles` | penske_adapter.py:246 | A seven-digit figure before " miles" loses its leading digit: the leftmost match starts at the second digit. |
| `PenskeParsers.AmountAt` | penske_adapter.py:237 | A match starting at a digit takes the whole digit run. It takes a point and one or two digits only when a digit follows the point, and never a third fraction digit. |
| `PenskeParsers.MatchAmount` | penske_adapter.py:237 | There is a match exactly when the text holds a digit, and the match starts at the first digit. |
| `PenskeParsers.ParseMoneyCents` | penske_adapter.py:233-238 | Empty text, or text without a digit, is worth 0. Otherwise the whole part and the cents come from the leftmost amount of the comma-free text, and the value is never negative. |
| `PenskeParsers.CommasIgnored` | penske_adapter.py:237 | A text parses as it does with its commas removed. |
| `PenskeParsers.MoneyRoundTrip` | penske_adapter.py:233-238 | "$w.cc" parses to exactly 100·w + cc cents. |

## Left out

- Playwright, HTTP, file reading and writing, and the clock are parameters or
  ghost state; `async`, timeouts in seconds and the page's own timing are not
  modelled.
- Exceptions from the page (other than a failed wait), from writing the file
  and from `record_success`/`add_strategy` while saving are not modelled; a
  failed save would make the source skip to the next strategy.
- A stored file that parses but is not shaped like a knowledge-base document
  (for example without `providers`) is not modelled: `Load` takes a
  well-formed `Document` or the seed.
- `Strategies.AsStrategy`: parameters whose values are not text are dropped
  rather than handed to the page, and the raw proposal dictionary stored by
  the source is stored as its record.
- `Text.Lower`: ASCII case folding only; Python's `lower()` also folds
  non-ASCII capitals.
- `Text.Strip`: the whitespace set is space, tab, line feed, carriage return,
  vertical tab and form feed; Python's `strip()` and `\s` also count the
  separators U+001C to U+001F and the Unicode spaces.
- `PenskeParsers.ParseMiles`: `\d` is read as the ASCII digits and `\s` as the
  whitespace set of `Text.Strip`, so non-ASCII digits and the separators
  U+001C to U+001F are not matched.
- `PenskeParsers.ParseMoneyCents`: returns exact cents instead of the float
  `float(m.group(1))`, so binary rounding of the float is not modelled.
- `OllamaRepair.OllamaAIRepair.ProposeStrategyWithOllama`: the four regular
  expressions of the reply cascade and `json.loads` are parameters, the
  prompt text is represented by its content (field, excerpt, failed
  strategies) rather than its exact wording, and the float sampling options
  (temperature, top-p, repeat penalty) are not part of the request.
- `SelectorKnowledgeBase.SelectorKB.RecordSuccess`: one clock reading `now`
  stamps both the record's `last_success` and the document's `last_updated`;
  the source reads the clock twice (selector_kb.py:168 and :131), so the two
  stamps may differ there by the time between the readings.
- `print` output, the integration test function at the end of the
  repair module, the quote records and the form-filling workflow of the
  rental adapter are not part of this model, nor are the other modules of
  the repository (the self-healing application and the simple scraper).

## Findings

| source | as written | input that shows it | evidently intended | confidence | as-written member | corrected member |
|---|---|---|---|---|---|---|
| selector_kb.py:93-96 | the three seeded `role` strategies of `submit_button` carry only `name` | applying any of them, e.g. `{"strategy": "role", "params": {"name": "Get Rates"}}`, raises `KeyError('role')`, so the finder skips all three on every page | `params` with `"role": "button"` and the name | high; not executed | `SelectorKnowledgeBase.SeedRoleEntriesNeverRealize` | `SelectorKnowledgeBase.SeedEntriesRealize` |
