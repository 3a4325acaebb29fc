/** The selector knowledge base: provider -> field -> ranked list of strategy
    records (index 0 is tried first), with a version tag and a last-updated
    stamp. The document is rewritten whole after every mutation. */
module SelectorKnowledgeBase {
  import opened Prelude
  import opened Strategies

  type FieldEntry = seq<Record>
  type Providers = map<string, map<string, FieldEntry>>

  datatype Document = Document(version: string, lastUpdated: string, providers: Providers)

  /** What the knowledge-base file holds when the store is opened. */
  datatype StoredFile = Missing | Corrupt | Stored(doc: Document)

  /** `get_strategies`: never fails; an unknown provider or field gives the
      empty list. */
  function Lookup(ps: Providers, provider: string, field: string): (r: FieldEntry)
    ensures provider !in ps || field !in ps[provider] ==> r == []
    ensures provider in ps && field in ps[provider] ==> r == ps[provider][field]
  {
    if provider in ps && field in ps[provider] then ps[provider][field] else []
  }

  /** Where Python's `list.insert(position, x)` puts `x` in a list of
      length `len`: a negative position counts from the end, and positions
      past either end are clamped. */
  function InsertionPoint(len: nat, position: int): (c: nat)
    ensures c <= len
    ensures 0 <= position <= len ==> c == position
  {
    if position < 0 then (if len + position < 0 then 0 else len + position)
    else if position > len then len
    else position
  }

  /** `list.insert`: one element more, `x` at the insertion point, the
      elements before it in place and those from it on shifted by one. */
  function InsertAt<T>(s: seq<T>, position: int, x: T): (r: seq<T>)
    ensures |r| == |s| + 1
    ensures r[InsertionPoint(|s|, position)] == x
    ensures forall j :: 0 <= j < InsertionPoint(|s|, position) ==> r[j] == s[j]
    ensures forall j :: InsertionPoint(|s|, position) <= j < |s| ==> r[j + 1] == s[j]
    ensures multiset(r) == multiset(s) + multiset{x}
  {
    var c := InsertionPoint(|s|, position);
    assert s == s[..c] + s[c..];
    s[..c] + [x] + s[c..]
  }

  /** `list.pop(i)` for a valid index. */
  function RemoveAt<T>(s: seq<T>, i: nat): (r: seq<T>)
    requires i < |s|
    ensures |r| == |s| - 1
    ensures forall j :: 0 <= j < i ==> r[j] == s[j]
    ensures forall j :: i <= j < |r| ==> r[j] == s[j + 1]
    ensures multiset(r) + multiset{s[i]} == multiset(s)
  {
    assert s == s[..i] + [s[i]] + s[i + 1..];
    s[..i] + s[i + 1..]
  }

  /** `pop(i)` then `insert(0, ...)`: the element at `i` comes first, the
      length is kept, the elements before `i` move down by one and those
      after it stay where they were, so every other element keeps its
      relative order. */
  function MoveToFront<T>(s: seq<T>, i: nat): (r: seq<T>)
    requires i < |s|
    ensures |r| == |s| && r[0] == s[i]
    ensures forall j :: 0 <= j < i ==> r[j + 1] == s[j]
    ensures forall j :: i < j < |s| ==> r[j] == s[j]
    ensures multiset(r) == multiset(s)
  {
    var t := RemoveAt(s, i);
    var r := InsertAt(t, 0, s[i]);
    assert InsertionPoint(|t|, 0) == 0;
    assert forall j :: 0 <= j < i ==> r[j + 1] == s[j] by {
      forall j | 0 <= j < i ensures r[j + 1] == s[j] { assert r[j + 1] == t[j]; }
    }
    assert forall j :: i < j < |s| ==> r[j] == s[j] by {
      forall j | i < j < |s| ensures r[j] == s[j] { assert r[j] == t[j - 1]; }
    }
    assert multiset(r) == multiset(s) by {
      assert multiset(r) == multiset(t) + multiset{s[i]};
    }
    r
  }

  /** The stored count, a missing one reading as 0. */
  function CountOf(r: Record): int {
    if r.successCount.Some? then r.successCount.value else 0
  }

  /** One success recorded on a record at clock reading `now`. */
  function Bumped(r: Record, now: string): (b: Record)
    ensures b.strategy == r.strategy && b.params == r.params
    ensures CountOf(b) == CountOf(r) + 1 && b.lastSuccess == Some(now)
  {
    r.(successCount := Some(CountOf(r) + 1), lastSuccess := Some(now))
  }

  /** `add_strategy` on the provider map: missing provider and field entries
      are created, the record is inserted into the targeted list (no
      de-duplication), and every other list is untouched. */
  function StrategyAdded(ps: Providers, provider: string, field: string, rec: Record, position: int): (r: Providers)
    ensures r.Keys == ps.Keys + {provider}
    ensures r[provider].Keys == (if provider in ps then ps[provider].Keys else {}) + {field}
    ensures Lookup(r, provider, field) == InsertAt(Lookup(ps, provider, field), position, rec)
    ensures forall p :: p in ps && p != provider ==> r[p] == ps[p]
    ensures forall f :: provider in ps && f in ps[provider] && f != field ==> r[provider][f] == ps[provider][f]
  {
    var fields := if provider in ps then ps[provider] else map[];
    var entry := if field in fields then fields[field] else [];
    ps[provider := fields[field := InsertAt(entry, position, rec)]]
  }

  /** `promote_strategy` on the provider map: an in-range index moves its
      record to the front of the targeted list; any other index leaves the
      map as it was. */
  function Promoted(ps: Providers, provider: string, field: string, index: int): (r: Providers)
    ensures !(0 <= index < |Lookup(ps, provider, field)|) ==> r == ps
    ensures 0 <= index < |Lookup(ps, provider, field)| ==>
      r.Keys == ps.Keys && r[provider].Keys == ps[provider].Keys
      && Lookup(r, provider, field) == MoveToFront(Lookup(ps, provider, field), index)
    ensures forall p :: p in ps && p != provider ==> r[p] == ps[p]
    ensures forall f :: provider in ps && f in ps[provider] && f != field ==> r[provider][f] == ps[provider][f]
  {
    var entry := Lookup(ps, provider, field);
    if 0 <= index < |entry| then
      ps[provider := ps[provider][field := MoveToFront(entry, index)]]
    else ps
  }

  /** `record_success` on the provider map: an in-range index bumps that one
      record; no record changes kind, parameters or position; any other
      index leaves the map as it was. */
  function SuccessRecorded(ps: Providers, provider: string, field: string, index: int, now: string): (r: Providers)
    ensures !(0 <= index < |Lookup(ps, provider, field)|) ==> r == ps
    ensures 0 <= index < |Lookup(ps, provider, field)| ==>
      r.Keys == ps.Keys && r[provider].Keys == ps[provider].Keys
      && Lookup(r, provider, field) == Lookup(ps, provider, field)[index := Bumped(Lookup(ps, provider, field)[index], now)]
    ensures |Lookup(r, provider, field)| == |Lookup(ps, provider, field)|
    ensures forall j :: 0 <= j < |Lookup(ps, provider, field)| ==>
      Lookup(r, provider, field)[j].strategy == Lookup(ps, provider, field)[j].strategy
      && Lookup(r, provider, field)[j].params == Lookup(ps, provider, field)[j].params
    ensures forall p :: p in ps && p != provider ==> r[p] == ps[p]
    ensures forall f :: provider in ps && f in ps[provider] && f != field ==> r[provider][f] == ps[provider][f]
  {
    var entry := Lookup(ps, provider, field);
    if 0 <= index < |entry| then
      ps[provider := ps[provider][field := entry[index := Bumped(entry[index], now)]]]
    else ps
  }

  /** `record_success` called once per clock reading in `nows`. */
  function SuccessesRecorded(ps: Providers, provider: string, field: string, index: int, nows: seq<string>): Providers
    decreases |nows|
  {
    if nows == [] then ps
    else SuccessesRecorded(SuccessRecorded(ps, provider, field, index, nows[0]), provider, field, index, nows[1..])
  }

  /** M successes recorded on a valid index raise its count by exactly M
      (from 0 when it had none), stamp it with the last clock reading, and
      keep the list's length and order of strategies. */
  lemma {:induction false} RepeatedSuccess(ps: Providers, provider: string, field: string, index: nat, nows: seq<string>)
    requires index < |Lookup(ps, provider, field)|
    ensures var after := Lookup(SuccessesRecorded(ps, provider, field, index, nows), provider, field);
      |after| == |Lookup(ps, provider, field)|
      && CountOf(after[index]) == CountOf(Lookup(ps, provider, field)[index]) + |nows|
      && (nows != [] ==> after[index].lastSuccess == Some(nows[|nows| - 1]))
      && forall j :: 0 <= j < |after| ==>
           after[j].strategy == Lookup(ps, provider, field)[j].strategy
           && after[j].params == Lookup(ps, provider, field)[j].params
    decreases |nows|
  {
    if nows != [] {
      var once := SuccessRecorded(ps, provider, field, index, nows[0]);
      RepeatedSuccess(once, provider, field, index, nows[1..]);
      if |nows| > 1 {
        assert nows[1..][|nows[1..]| - 1] == nows[|nows| - 1];
      }
    }
  }

  /** A seeded record without bookkeeping keys. */
  function Seeded(kind: string, key: string, value: string): Record {
    Record(kind, map[key := value], None, None)
  }

  function Css(selector: string): Record { Seeded("css", "selector", selector) }

  /** The seeded `submit_button` list as the source writes it: the three role
      entries carry a `name` but no `role`. */
  const SubmitButtonAsWritten: FieldEntry := [
    Seeded("role", "name", "Get Rates"),
    Seeded("role", "name", "Search"),
    Seeded("role", "name", "Find"),
    Css("button[type='submit']"),
    Css("[data-test=submit]")
  ]

  /** The seeded `submit_button` list with the evident intent: button roles. */
  const SubmitButton: FieldEntry := [
    Record("role", map["role" := "button", "name" := "Get Rates"], None, None),
    Record("role", map["role" := "button", "name" := "Search"], None, None),
    Record("role", map["role" := "button", "name" := "Find"], None, None),
    Css("button[type='submit']"),
    Css("[data-test=submit]")
  ]

  const PickupInputSeed: FieldEntry := [
    Seeded("label", "text", "Pick-up Location"),
    Seeded("placeholder", "text", "Pick-up"),
    Css("input[placeholder*='pickup' i]"),
    Css("input[placeholder*='Pick-up' i]"),
    Css("input[name*='pickup' i]"),
    Css("input[id*='pickup' i]"),
    Css("input[placeholder*='location' i]:first-of-type"),
    Css("input[type='text']:first-of-type"),
    Css("[data-test=pickup] input")
  ]

  const DropoffInputSeed: FieldEntry := [
    Seeded("label", "text", "Drop-off Location"),
    Seeded("placeholder", "text", "Drop-off"),
    Css("input[placeholder*='dropoff' i]"),
    Css("input[placeholder*='Drop-off' i]"),
    Css("input[name*='dropoff' i]"),
    Css("input[id*='dropoff' i]"),
    Css("input[placeholder*='location' i]:nth-of-type(2)"),
    Css("input[type='text']:nth-of-type(2)"),
    Css("[data-test=dropoff] input")
  ]

  const PickupDateSeed: FieldEntry := [
    Seeded("label", "text", "Pick-up Date"),
    Css("input[type='date']"),
    Css("[data-test=pickup-date] input"),
    Css("input[placeholder*='date']")
  ]

  const DropoffDateSeed: FieldEntry := [
    Seeded("label", "text", "Drop-off Date"),
    Css("input[type='date']"),
    Css("[data-test=dropoff-date] input"),
    Css("input[placeholder*='date']")
  ]

  const ResultCardsSeed: FieldEntry := [
    Css("[data-test=rate-card]"),
    Css(".rate-card"),
    Css("article"),
    Css(".quote-card"),
    Css("[class*='rate']")
  ]

  const PriceElementSeed: FieldEntry := [
    Css(".price"),
    Css(".total"),
    Css("[data-test=total-price]"),
    Css("[class*='price']"),
    Css("[class*='total']")
  ]

  const TruckTitleSeed: FieldEntry := [
    Css("h3"),
    Css("h2"),
    Css("[data-test=truck-title]"),
    Css("[class*='title']")
  ]

  const MilesElementSeed: FieldEntry := [
    Css(".miles"),
    Css("[data-test=included-miles]"),
    Css("[class*='mile']")
  ]

  /** The seeded fields of the `penske` provider, around a given
      `submit_button` list. */
  function PenskeSeed(submit: FieldEntry): map<string, FieldEntry> {
    map[
      "pickup_input" := PickupInputSeed,
      "dropoff_input" := DropoffInputSeed,
      "pickup_date" := PickupDateSeed,
      "dropoff_date" := DropoffDateSeed,
      "submit_button" := submit,
      "result_cards" := ResultCardsSeed,
      "price_element" := PriceElementSeed,
      "truck_title" := TruckTitleSeed,
      "miles_element" := MilesElementSeed
    ]
  }

  /** The default document of `_load_kb`, exactly as written: version
      "1.0", stamped with the clock reading, one provider, whose
      `submit_button` list is the one with the three role entries that carry
      no role. */
  function SeedAsWritten(now: string): (d: Document)
    ensures d.version == "1.0" && d.lastUpdated == now
    ensures d.providers.Keys == {"penske"}
    ensures Lookup(d.providers, "penske", "submit_button") == SubmitButtonAsWritten
  {
    Document("1.0", now, map["penske" := PenskeSeed(SubmitButtonAsWritten)])
  }

  /** The default document as evidently intended: the document of
      `SeedAsWritten` with button roles on the three role entries, and
      nothing else changed. */
  function Seed(now: string): (d: Document)
    ensures d == SeedAsWritten(now).(providers := map["penske" := PenskeSeed(SubmitButton)])
    ensures Lookup(d.providers, "penske", "submit_button") == SubmitButton
  {
    Document("1.0", now, map["penske" := PenskeSeed(SubmitButton)])
  }

  /** As written, the three seeded role strategies raise `KeyError('role')`
      on every application, so the resolver can never pick them. */
  lemma SeedRoleEntriesNeverRealize(now: string)
    ensures forall i :: 0 <= i < 3 ==>
      ApplyStrategy(Lookup(SeedAsWritten(now).providers, "penske", "submit_button")[i]) == MissingParam("role")
  {
    var entry := Lookup(SeedAsWritten(now).providers, "penske", "submit_button");
    assert entry == SubmitButtonAsWritten;
    RoleWithoutRoleFails("Get Rates");
    RoleWithoutRoleFails("Search");
    RoleWithoutRoleFails("Find");
  }

  /** A role record that names the accessible name but no role. */
  lemma RoleWithoutRoleFails(name: string)
    ensures ApplyStrategy(Seeded("role", "name", name)) == MissingParam("role")
  {
    assert "role" !in Seeded("role", "name", name).params;
  }

  /** Every record of the list realizes to a query. */
  predicate AllRealize(entry: FieldEntry) {
    forall i :: 0 <= i < |entry| ==> ApplyStrategy(entry[i]).Realized?
  }

  lemma PickupInputRealizes()
    ensures AllRealize(PickupInputSeed)
  {
  }

  lemma DropoffInputRealizes()
    ensures AllRealize(DropoffInputSeed)
  {
  }

  lemma DateSeedsRealize()
    ensures AllRealize(PickupDateSeed) && AllRealize(DropoffDateSeed)
  {
  }

  lemma ResultSeedsRealize()
    ensures AllRealize(ResultCardsSeed) && AllRealize(PriceElementSeed)
  {
  }

  lemma TitleAndMilesSeedsRealize()
    ensures AllRealize(TruckTitleSeed) && AllRealize(MilesElementSeed)
  {
  }

  lemma SubmitButtonRealizes()
    ensures AllRealize(SubmitButton)
  {
  }

  /** Around a `submit_button` list whose records all realize, every list
      of the `penske` seed realizes. */
  lemma PenskeSeedRealizes(submit: FieldEntry)
    requires AllRealize(submit)
    ensures forall f :: f in PenskeSeed(submit) ==> AllRealize(PenskeSeed(submit)[f])
  {
    PickupInputRealizes();
    DropoffInputRealizes();
    DateSeedsRealize();
    ResultSeedsRealize();
    TitleAndMilesSeedsRealize();
  }

  /** With button roles, every seeded strategy of every field realizes to a
      query. */
  lemma SeedEntriesRealize(now: string)
    ensures forall p, f :: p in Seed(now).providers && f in Seed(now).providers[p] ==>
      AllRealize(Seed(now).providers[p][f])
  {
    SubmitButtonRealizes();
    PenskeSeedRealizes(SubmitButton);
  }

  /** `_load_kb`: the stored document when the file parses, the default
      document as written when it is missing or unreadable; it never fails. */
  function Load(stored: StoredFile, now: string): (d: Document)
    ensures stored.Stored? ==> d == stored.doc
    ensures !stored.Stored? ==> d == SeedAsWritten(now)
  {
    if stored.Stored? then stored.doc else SeedAsWritten(now)
  }

  /** On a fresh or unreadable store, the ranked search over `submit_button`
      never stops at one of the three role entries, whatever the page shows:
      it stops at a CSS entry or finds nothing. */
  lemma FreshStoreSkipsRoleEntries(stored: StoredFile, now: string, page: Page, timeout: int)
    requires !stored.Stored?
    ensures var i := FirstWhere(Lookup(Load(stored, now).providers, "penske", "submit_button"),
                                r => Accepts(page, timeout, r));
      i == -1 || 3 <= i
  {
    var entry := Lookup(Load(stored, now).providers, "penske", "submit_button");
    SeedRoleEntriesNeverRealize(now);
    assert forall k :: 0 <= k < 3 ==> !Accepts(page, timeout, entry[k]);
  }

  /** The store. `persisted` is what the knowledge-base file holds. */
  class SelectorKB {
    var version: string
    var lastUpdated: string
    var providers: Providers
    ghost var persisted: StoredFile

    /** The in-memory document. */
    function Doc(): Document
      reads this
    {
      Document(version, lastUpdated, providers)
    }

    /** Opening the store loads the file (or the seed) and writes nothing. */
    constructor (stored: StoredFile, now: string)
      ensures Doc() == Load(stored, now)
      ensures persisted == stored
    {
      var d := Load(stored, now);
      version, lastUpdated, providers := d.version, d.lastUpdated, d.providers;
      persisted := stored;
    }

    /** `save_kb`: stamp the document and write it whole; reloading the file
      then gives back exactly the in-memory document. */
    method SaveKb(now: string)
      modifies this
      ensures version == old(version) && providers == old(providers) && lastUpdated == now
      ensures persisted == Stored(Doc())
      ensures forall t :: Load(persisted, t) == Doc()
    {
      lastUpdated := now;
      persisted := Stored(Doc());
    }

    /** `get_strategies`. */
    function GetStrategies(provider: string, field: string): (r: FieldEntry)
      reads this
      ensures r == Lookup(providers, provider, field)
    {
      if provider in providers && field in providers[provider] then providers[provider][field] else []
    }

    /** `add_strategy`: create missing entries, insert, save. */
    method AddStrategy(provider: string, field: string, strategy: Record, position: int, now: string)
      modifies this
      ensures providers == StrategyAdded(old(providers), provider, field, strategy, position)
      ensures version == old(version) && lastUpdated == now
      ensures persisted == Stored(Doc())
    {
      var fields := if provider in providers then providers[provider] else map[];
      var entry := if field in fields then fields[field] else [];
      providers := providers[provider := fields[field := InsertAt(entry, position, strategy)]];
      SaveKb(now);
    }

    /** `promote_strategy`: an in-range index moves to the front and the
      document is saved; any other index changes and saves nothing. */
    method PromoteStrategy(provider: string, field: string, strategyIndex: int, now: string)
      modifies this
      ensures providers == Promoted(old(providers), provider, field, strategyIndex)
      ensures 0 <= strategyIndex < |Lookup(old(providers), provider, field)| ==>
        version == old(version) && lastUpdated == now && persisted == Stored(Doc())
      ensures !(0 <= strategyIndex < |Lookup(old(providers), provider, field)|) ==> unchanged(this)
    {
      var strategies := GetStrategies(provider, field);
      if 0 <= strategyIndex < |strategies| {
        var strategy := strategies[strategyIndex];
        strategies := RemoveAt(strategies, strategyIndex);
        strategies := InsertAt(strategies, 0, strategy);
        providers := providers[provider := providers[provider][field := strategies]];
        SaveKb(now);
      }
    }

    /** `record_success`: an in-range index gets one more success and the
      clock reading; the document is saved. Any other index changes and
      saves nothing. */
    method RecordSuccess(provider: string, field: string, strategyIndex: int, now: string)
      modifies this
      ensures providers == SuccessRecorded(old(providers), provider, field, strategyIndex, now)
      ensures 0 <= strategyIndex < |Lookup(old(providers), provider, field)| ==>
        version == old(version) && lastUpdated == now && persisted == Stored(Doc())
      ensures !(0 <= strategyIndex < |Lookup(old(providers), provider, field)|) ==> unchanged(this)
    {
      var strategies := GetStrategies(provider, field);
      if 0 <= strategyIndex < |strategies| {
        var rec := strategies[strategyIndex];
        var count := if rec.successCount.None? then 0 else rec.successCount.value;
        rec := rec.(successCount := Some(count + 1));
        rec := rec.(lastSuccess := Some(now));
        providers := providers[provider := providers[provider][field := strategies[strategyIndex := rec]]];
        SaveKb(now);
      }
    }
  }
}
