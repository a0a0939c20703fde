/** `PokemonScreen`: two pieces of remembered state, `showResults` and
    `pokemonData`, reassigned by the two callbacks; the results view is
    composed only when both are set, the search view otherwise. */
module Screen {
  import opened Wrappers
  import opened JsonModel
  import opened Records

  /** The value of the screen's two state variables. */
  datatype ScreenState = ScreenState(showResults: bool, pokemonData: Option<PokemonData>)

  /** The two things that reassign the state: a search's coroutine finishing
      with its result, and the "Search Again" button. */
  datatype Event = SearchCompleted(result: Option<PokemonData>) | SearchAgain

  /** What the screen composes. */
  datatype View = SearchView | ResultsView(data: PokemonData)

  /** `mutableStateOf(false)` and `mutableStateOf<PokemonData?>(null)`. */
  const Initial := ScreenState(false, None)

  /** The `if (showResults && pokemonData != null)` choice. */
  function ViewOf(s: ScreenState): (v: View)
    ensures v.ResultsView? <==> s.showResults && s.pokemonData.Some?
    ensures v.ResultsView? ==> Some(v.data) == s.pokemonData
  {
    if s.showResults && s.pokemonData.Some? then ResultsView(s.pokemonData.value) else SearchView
  }

  /** One callback: `onSearchAgain` clears both variables; the search coroutine
      stores its result and raises `showResults`. */
  function Step(s: ScreenState, e: Event): (t: ScreenState)
    ensures e.SearchAgain? ==> ViewOf(t) == SearchView && t == Initial
    ensures e.SearchCompleted? ==> t.pokemonData == e.result && t.showResults
    ensures e.SearchCompleted? ==> ViewOf(t) == (if e.result.Some? then ResultsView(e.result.value) else SearchView)
  {
    match e
    case SearchAgain => ScreenState(false, None)
    case SearchCompleted(r) => ScreenState(true, r)
  }

  /** The state after a sequence of callbacks, first to last. */
  function Run(s: ScreenState, events: seq<Event>): ScreenState
    decreases |events|
  {
    if |events| == 0 then s else Run(Step(s, events[0]), events[1..])
  }

  /** Every reachable state keeps the data cleared while the search view is
      requested. */
  predicate Consistent(s: ScreenState)
  {
    s.showResults || s.pokemonData.None?
  }

  lemma {:induction false} RunPreservesConsistent(s: ScreenState, events: seq<Event>)
    requires Consistent(s)
    ensures Consistent(Run(s, events))
    decreases |events|
  {
    if |events| > 0 {
      RunPreservesConsistent(Step(s, events[0]), events[1..]);
    }
  }

  /** Running a sequence is running all but its last event, then that one. */
  lemma {:induction false} RunSnoc(s: ScreenState, events: seq<Event>, e: Event)
    ensures Run(s, events + [e]) == Step(Run(s, events), e)
    decreases |events|
  {
    if |events| == 0 {
      assert events + [e] == [e];
    } else {
      assert (events + [e])[1..] == events[1..] + [e];
      RunSnoc(Step(s, events[0]), events[1..], e);
    }
  }

  /** Whatever came before, the last callback alone decides what is shown:
      "Search Again" gives the search view, and a completed search shows the
      results exactly when it found something. */
  lemma {:induction false} LastEventDecidesView(s: ScreenState, events: seq<Event>)
    requires |events| > 0
    ensures var last := events[|events| - 1];
            ViewOf(Run(s, events)) ==
              (if last.SearchCompleted? && last.result.Some? then ResultsView(last.result.value) else SearchView)
  {
    var prefix := events[..|events| - 1];
    assert events == prefix + [events[|events| - 1]];
    RunSnoc(s, prefix, events[|events| - 1]);
  }

  /** In a consistent state, the results view is shown exactly when there is data. */
  lemma ConsistentViewFollowsData(s: ScreenState)
    requires Consistent(s)
    ensures ViewOf(s).ResultsView? <==> s.pokemonData.Some?
  {
  }

  /** The composable's remembered state, updated in place by its callbacks. */
  class PokemonScreen {
    var showResults: bool
    var pokemonData: Option<PokemonData>

    function State(): ScreenState
      reads this
    {
      ScreenState(showResults, pokemonData)
    }

    /** What is composed for the current state. */
    function CurrentView(): (v: View)
      reads this
      ensures v.ResultsView? <==> showResults && pokemonData.Some?
      ensures v.ResultsView? ==> pokemonData == Some(v.data)
    {
      ViewOf(State())
    }

    constructor ()
      ensures State() == Initial && CurrentView() == SearchView
    {
      showResults := false;
      pokemonData := None;
    }

    /** `onSearchAgain = { showResults = false; pokemonData = null }`. */
    method OnSearchAgain()
      modifies this
      ensures !showResults && pokemonData.None?
      ensures State() == Step(old(State()), SearchAgain)
      ensures CurrentView() == SearchView
    {
      showResults := false;
      pokemonData := None;
    }

    /** The end of the search coroutine: `pokemonData = realData; showResults = true`. */
    method OnSearchCompleted(result: Option<PokemonData>)
      modifies this
      ensures pokemonData == result && showResults
      ensures State() == Step(old(State()), SearchCompleted(result))
      ensures CurrentView() == (if result.Some? then ResultsView(result.value) else SearchView)
    {
      pokemonData := result;
      showResults := true;
    }

    /** `onSearch`: run the query for the form's name and flags, then store
        its result; a search that finds nothing leaves the search view up. */
    method OnSearch(name: string, includeImage: bool, includeCry: bool, json: JsonText,
                    execute: string -> QueryOutcome)
      modifies this
      ensures State() == Step(old(State()), SearchCompleted(PerformQuery(name, includeImage, includeCry, json, execute)))
      ensures CurrentView().ResultsView? <==> PerformQuery(name, includeImage, includeCry, json, execute).Some?
    {
      var realData := PerformQuery(name, includeImage, includeCry, json, execute);
      OnSearchCompleted(realData);
    }
  }
}
