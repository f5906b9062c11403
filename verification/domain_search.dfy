/**
 * The domain search page of `src/pages/DomainSearch.jsx`. A search takes the
 * part of the entered name before its first '.', and produces one mock
 * result per known extension, each available when its `Math.random()` draw
 * exceeds 0.3. The simulated delay splits a search into the request (the
 * page starts searching) and its completion, which receives the draws.
 */
module DomainSearch {
  import opened Optional
  import opened Text
  import opened Palette

  datatype Tld = Tld(extension: string, priceCents: nat, popular: bool)

  const PopularTlds: seq<Tld> := [
    Tld(".com", 1299, true), Tld(".net", 1499, false), Tld(".org", 1399, false), Tld(".co", 2499, false),
    Tld(".io", 3999, true), Tld(".dev", 1999, false), Tld(".app", 1999, false), Tld(".tech", 1999, false)
  ]

  const DomainSuggestions: seq<string> := [
    "business", "store", "shop", "blog", "news", "tech", "digital", "creative",
    "agency", "studio", "design", "marketing", "consulting", "solutions", "services"
  ]

  /** What an available name comes with. */
  const AvailableFeatures: seq<string> := [
    "Free DNS Management", "Free Email Forwarding", "Domain Lock Protection", "24/7 Support"
  ]

  datatype DomainResult = DomainResult(domain: string, available: bool, priceCents: nat, popular: bool, features: seq<string>)

  /** `Math.random() > 0.3`. */
  predicate IsAvailable(draw: real) {
    draw > 0.3
  }

  /** The results for `base` over `tlds`, one random draw per extension. */
  function ResultsFor(base: string, tlds: seq<Tld>, draws: seq<real>): (r: seq<DomainResult>)
    requires |draws| == |tlds|
    ensures |r| == |tlds|
    ensures forall i :: 0 <= i < |r| ==>
      && r[i].domain == base + tlds[i].extension
      && r[i].priceCents == tlds[i].priceCents
      && r[i].popular == tlds[i].popular
      && (r[i].available <==> draws[i] > 0.3)
    ensures forall i :: 0 <= i < |r| ==> (r[i].available ==> r[i].features == AvailableFeatures) && (!r[i].available ==> r[i].features == [])
    ensures forall i :: 0 <= i < |r| ==> (|r[i].features| == 4 <==> r[i].available)
  {
    if |tlds| == 0 then []
    else
      var available := IsAvailable(draws[0]);
      var first := DomainResult(base + tlds[0].extension, available, tlds[0].priceCents, tlds[0].popular,
                                if available then AvailableFeatures else []);
      [first] + ResultsFor(base, tlds[1..], draws[1..])
  }

  /** The body of `mockSearchDomain(domainName)` once the delay is over. */
  function SearchResults(domainName: string, draws: seq<real>): (r: seq<DomainResult>)
    requires |draws| == |PopularTlds|
    ensures |r| == |PopularTlds|
    ensures forall i :: 0 <= i < |r| ==> r[i].domain == BeforeFirstDot(domainName) + PopularTlds[i].extension
  {
    ResultsFor(BeforeFirstDot(domainName), PopularTlds, draws)
  }

  // ---------------------------------------------------------------------------
  // page state

  datatype Page = Page(input: string, results: seq<DomainResult>, searching: bool)

  const InitialPage := Page("", [], false)

  /** The page after an event, and the name handed to `mockSearchDomain` if one was started. */
  datatype Submitted = Submitted(page: Page, request: Option<string>)

  /** `handleSearch`: a search starts only for a non-blank input, with the trimmed input. */
  function HandleSearch(p: Page): (r: Submitted)
    ensures r.request.Some? <==> Trim(p.input) != ""
    ensures r.request.Some? ==> r.request.value == Trim(p.input) && r.page == p.(searching := true)
    ensures r.request.None? ==> r.page == p
  {
    var name := Trim(p.input);
    if name != "" then Submitted(p.(searching := true), Some(name)) else Submitted(p, None)
  }

  /** The name a search is started with is never blank and never starts or ends with whitespace. */
  lemma SearchRequestIsTrimmed(p: Page)
    requires HandleSearch(p).request.Some?
    ensures var name := HandleSearch(p).request.value;
      name != "" && !IsSpace(name[0]) && !IsSpace(name[|name| - 1])
  {
    TrimCharacterised(p.input);
  }

  /**
   * `handleSuggestionClick(suggestion)`: the input becomes its part before the
   * first '.' followed by the suggestion, and that is searched, untrimmed and
   * even when blank.
   */
  function SuggestionClick(p: Page, suggestion: string): (r: Submitted)
    ensures r.page.input == BeforeFirstDot(p.input) + suggestion
    ensures r.page.searching && r.page.results == p.results
    ensures r.request == Some(r.page.input)
  {
    var name := BeforeFirstDot(p.input) + suggestion;
    Submitted(Page(name, p.results, true), Some(name))
  }

  /** Searching a clicked suggestion without '.' names every result after the old base and the suggestion. */
  lemma SuggestionResults(p: Page, suggestion: string, draws: seq<real>)
    requires '.' !in suggestion
    requires |draws| == |PopularTlds|
    ensures var results := SearchResults(SuggestionClick(p, suggestion).request.value, draws);
      forall i :: 0 <= i < |results| ==>
        results[i].domain == BeforeFirstDot(p.input) + suggestion + PopularTlds[i].extension
  {
    BeforeFirstDotAppend(BeforeFirstDot(p.input), suggestion);
    BeforeFirstDotNoDot(suggestion);
  }

  /** The delayed end of `mockSearchDomain(domainName)`: results shown, searching over. */
  function SearchFinished(p: Page, domainName: string, draws: seq<real>): (r: Page)
    requires |draws| == |PopularTlds|
    ensures !r.searching && r.input == p.input
    ensures |r.results| == |PopularTlds|
    ensures forall i :: 0 <= i < |r.results| ==> r.results[i].domain == BeforeFirstDot(domainName) + PopularTlds[i].extension
  {
    Page(p.input, SearchResults(domainName, draws), false)
  }

  /** The search button is disabled, and labelled "Searching...", exactly while a search runs. */
  function SearchButton(p: Page): (r: (bool, string))
    ensures r.0 <==> p.searching
    ensures r.1 == "Searching..." <==> p.searching
    ensures r.1 == "Search Domain" <==> !p.searching
  {
    if p.searching then (true, "Searching...") else (false, "Search Domain")
  }

  /** `getStatusText`. */
  function StatusText(available: bool): (s: string)
    ensures s == "Available" <==> available
    ensures s == "Taken" <==> !available
  {
    if available then "Available" else "Taken"
  }

  /** `getStatusColor` and `getStatusIcon`: green with a check mark when available, red otherwise. */
  function StatusTone(available: bool): (t: Tone)
    ensures t == Green <==> available
    ensures t == Red <==> !available
  {
    if available then Green else Red
  }

  /**
   * The suggestion row: nothing while the input is empty (`domain && ...`),
   * otherwise `domainSuggestions.slice(0, 8)`, the first eight in order.
   */
  function ShownSuggestions(p: Page): (r: seq<string>)
    ensures p.input == "" ==> r == []
    ensures p.input != "" ==> |r| == 8 && r <= DomainSuggestions
  {
    if p.input == "" then [] else DomainSuggestions[..8]
  }

  /** The fresh page shows no suggestions; after a suggestion is clicked the first eight are shown. */
  lemma SuggestionsFollowInput(p: Page, suggestion: string)
    requires suggestion in DomainSuggestions
    ensures ShownSuggestions(InitialPage) == []
    ensures ShownSuggestions(SuggestionClick(p, suggestion).page) == DomainSuggestions[..8]
  {
    assert suggestion != "";
    assert |SuggestionClick(p, suggestion).page.input| >= |suggestion|;
  }
}
