/**
 * The search page: a text box, the submitted query, and the results, which are the
 * catalogue items whose name, brand or category contains the query ignoring case. The
 * simulated search delay is a separate completion step, not a timer.
 */
module SearchResults {
  import opened Wrappers
  import opened Seqs
  import opened Text
  import opened ProductData

  /** The match test of the search: name, brand or category contains the query, ignoring case. */
  predicate ItemMatches(query: string, item: Product) {
    ContainsIgnoringCase(item.name, query)
    || ContainsIgnoringCase(item.brand, query)
    || ContainsIgnoringCase(item.category, query)
  }

  function Matches(query: string): Product -> bool {
    (item: Product) => ItemMatches(query, item)
  }

  /** The results for a query: the whole catalogue for the empty query, else the matching items. */
  function ResultsIn(catalogue: seq<Product>, query: string): seq<Product> {
    if query == "" then catalogue else Filter(catalogue, Matches(query))
  }

  function Results(query: string): seq<Product> {
    ResultsIn(MockClothing, query)
  }

  /**
   * For a non-empty query the results are exactly the matching catalogue items, in
   * catalogue order; in every case they are a sub-list of the catalogue.
   */
  lemma ResultsSpec(catalogue: seq<Product>, query: string)
    ensures query != "" ==>
              (forall k :: 0 <= k < |ResultsIn(catalogue, query)| ==> ItemMatches(query, ResultsIn(catalogue, query)[k]))
              && (forall k :: 0 <= k < |catalogue| && ItemMatches(query, catalogue[k]) ==> catalogue[k] in ResultsIn(catalogue, query))
    ensures SubsequenceOf(ResultsIn(catalogue, query), catalogue)
  {
    FilterIsSubsequence(catalogue, Matches(query));
    if query == "" {
      SubsequenceOfSelf(catalogue);
    }
  }

  lemma {:induction false} SubsequenceOfSelf(s: seq<Product>)
    ensures SubsequenceOf(s, s)
  {
    if s != [] {
      SubsequenceOfSelf(s[1..]);
    }
  }

  /**
   * The empty query shows the whole catalogue, and filtering with it would show the same:
   * the empty string occurs in every text.
   */
  lemma EmptyQueryShowsEverything(catalogue: seq<Product>)
    ensures ResultsIn(catalogue, "") == catalogue
    ensures Filter(catalogue, Matches("")) == catalogue
  {
    forall k | 0 <= k < |catalogue| ensures Matches("")(catalogue[k]) {
      EmptyTermMatches(catalogue[k].name);
    }
    FilterAllKept(catalogue, Matches(""));
  }

  /** The query's letter case does not matter. */
  lemma QueryCaseIgnored(catalogue: seq<Product>, q1: string, q2: string)
    requires ToLower(q1) == ToLower(q2) && q1 != "" && q2 != ""
    ensures ResultsIn(catalogue, q1) == ResultsIn(catalogue, q2)
  {
    FilterSameTest(catalogue, Matches(q1), Matches(q2));
  }

  /** The white space `trim()` removes, restricted to ASCII. */
  predicate IsSpace(c: char) {
    c == ' ' || c == '\t' || c == '\n' || c == '\r' || c == '\U{000B}' || c == '\U{000C}'
  }

  /** The Search button is enabled when the box holds a non-blank character. */
  predicate SubmitEnabled(searchQuery: string) {
    exists i :: 0 <= i < |searchQuery| && !IsSpace(searchQuery[i])
  }

  /** The button stays disabled for an empty or blank box, so such text is never submitted. */
  lemma BlankNeverSubmitted(text: string)
    requires forall i :: 0 <= i < |text| ==> IsSpace(text[i])
    ensures !SubmitEnabled(text)
  {
  }

  /** Submitted text is never empty, so a submission never brings back the whole catalogue. */
  lemma SubmittedTextNonEmpty(text: string)
    requires SubmitEnabled(text)
    ensures text != ""
  {
  }

  /** The search page's state. */
  class SearchPage {
    var searchQuery: string
    var query: string
    var results: seq<Product>
    var isSearching: bool
    /** The query of the scheduled, not yet finished, search. */
    var pending: Option<string>
    /** The catalogue searched: `MOCK_CLOTHING`. */
    const catalogue: seq<Product>

    /** Only a non-empty query is ever scheduled. */
    predicate Valid()
      reads this
    {
      pending.Some? ==> pending.value != ""
    }

    /** Mounting: both texts start as the initial query and the effect runs once. */
    constructor (initialQuery: string)
      ensures Valid() && catalogue == MockClothing && searchQuery == initialQuery && query == initialQuery
      ensures initialQuery == "" ==> results == catalogue && !isSearching && pending.None?
      ensures initialQuery != "" ==> results == catalogue && isSearching && pending == Some(initialQuery)
    {
      catalogue := MockClothing;
      searchQuery := initialQuery;
      query := initialQuery;
      results := catalogue;
      isSearching := false;
      pending := None;
      new;
      QueryEffect();
    }

    /** Typing in the box. */
    method SetSearchQuery(text: string)
      requires Valid()
      modifies this
      ensures Valid()
      ensures searchQuery == text
      ensures query == old(query) && results == old(results)
      ensures isSearching == old(isSearching) && pending == old(pending)
    {
      searchQuery := text;
    }

    /**
     * The effect on `query`: a non-empty query starts a search (replacing any scheduled
     * one); the empty query shows the whole catalogue at once.
     */
    method QueryEffect()
      modifies this
      ensures Valid()
      ensures query != "" ==> isSearching && pending == Some(query) && results == old(results)
      ensures query == "" ==> results == catalogue && pending.None? && isSearching == old(isSearching)
      ensures searchQuery == old(searchQuery) && query == old(query)
    {
      if query != "" {
        isSearching := true;
        pending := Some(query);
      } else {
        results := catalogue;
        pending := None;
      }
    }

    /**
     * Submitting the search form: the button is disabled for a blank box, which blocks
     * submission; otherwise `handleSearch` copies the typed text into `query`, and the effect
     * runs when it changed. An accepted query is never empty.
     */
    method HandleSearch() returns (accepted: bool)
      requires Valid()
      modifies this
      ensures Valid()
      ensures accepted <==> SubmitEnabled(old(searchQuery))
      ensures !accepted ==> query == old(query) && results == old(results)
                            && isSearching == old(isSearching) && pending == old(pending)
      ensures accepted ==> query == old(searchQuery) && query != ""
      ensures accepted && query != old(query) ==> isSearching && pending == Some(query) && results == old(results)
      ensures accepted && query == old(query) ==> results == old(results) && isSearching == old(isSearching) && pending == old(pending)
      ensures searchQuery == old(searchQuery)
    {
      accepted := SubmitEnabled(searchQuery);
      if !accepted {
        return;
      }
      var changed := searchQuery != query;
      query := searchQuery;
      if changed {
        QueryEffect();
      }
    }

    /** The scheduled search finishes: the matching items for its (non-empty) query, searching ends. */
    method CompleteSearch()
      requires Valid()
      modifies this
      ensures Valid()
      ensures old(pending).Some? ==> results == ResultsIn(catalogue, old(pending).value) && !isSearching && pending.None?
      ensures old(pending).None? ==> results == old(results) && isSearching == old(isSearching) && pending.None?
      ensures searchQuery == old(searchQuery) && query == old(query)
    {
      if pending.Some? {
        results := Filter(catalogue, Matches(pending.value));
        isSearching := false;
        pending := None;
      }
    }
  }
}
