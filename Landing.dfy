/**
 * The landing page's search box (the `Home` component of src/app/page.tsx):
 * a query, focus and fullscreen flags, a stay-type tab, and a suggestion index
 * that a fixed-interval timer advances while the box is focused and empty.
 *
 * The state transitions are stated once as a pure function `Next` over a
 * `SearchState` value; the class `Home` holds the same state in fields and
 * each of its handlers is proved to perform one `Next` step.
 */
module Landing {

  datatype Tab = Rental | Shortlet

  /** Below this window width (the "sm" breakpoint, in pixels) focusing opens the fullscreen search. */
  const SM_BREAKPOINT: int := 640

  /** The rotating suggestions shown for each tab. */
  function Suggestions(tab: Tab): (r: seq<string>)
    ensures |r| == 4
    ensures forall i :: 0 <= i < |r| ==> r[i] != ""
  {
    match tab
    case Rental => [
      "A modern 3-bedroom apartment in Ikoyi for long-term lease...",
      "Family-friendly home near international schools in Lekki...",
      "Serviced apartment under ₦5M in Victoria Island...",
      "Pet-friendly 2-bedroom flat with 24/7 power..."]
    case Shortlet => [
      "Luxury 2-bed apartment in VI for weekend getaway...",
      "Cozy studio in Lekki for 2 weeks stay...",
      "Premium shortlet with pool for events...",
      "Furnished apartment in Ikoyi for business trips..."]
  }

  datatype SearchState = SearchState(
    query: string,
    isFocused: bool,
    suggestionIndex: nat,
    activeTab: Tab,
    isFullscreenSearch: bool)

  const INITIAL_STATE := SearchState("", false, 0, Rental, false)

  /** The suggestion index points into the active tab's list. */
  predicate IndexValid(s: SearchState)
  {
    s.suggestionIndex < |Suggestions(s.activeTab)|
  }

  /** The interval timer is installed, and the suggestion shown, exactly while the box is focused and empty. */
  predicate Cycling(s: SearchState)
  {
    s.isFocused && s.query == ""
  }

  datatype Event =
    | IntervalTick                      // the interval callback
    | SearchFocused(innerWidth: int)    // handleSearchFocus
    | SearchBlurred                     // handleSearchBlur
    | CloseClicked                      // the fullscreen overlay's close button
    | ContainerTapped(innerWidth: int)  // the search container's click handler
    | QueryChanged(text: string)        // a textarea's change handler, or a listed suggestion's click
    | CurrentSuggestionClicked          // the rotating suggestion's button
    | TabSelected(tab: Tab)             // the stay-type buttons

  function Next(s: SearchState, e: Event): (r: SearchState)
    requires IndexValid(s)
    ensures IndexValid(r)
  {
    match e
    case IntervalTick =>
      if Cycling(s)
      then s.(suggestionIndex := (s.suggestionIndex + 1) % |Suggestions(s.activeTab)|)
      else s
    case SearchFocused(innerWidth) =>
      s.(isFocused := true,
         isFullscreenSearch := if innerWidth < SM_BREAKPOINT then true else s.isFullscreenSearch)
    case SearchBlurred =>
      if !s.isFullscreenSearch then s.(isFocused := false) else s
    case CloseClicked =>
      s.(isFullscreenSearch := false, isFocused := false)
    case ContainerTapped(innerWidth) =>
      if !s.isFullscreenSearch && innerWidth < SM_BREAKPOINT then s.(isFullscreenSearch := true) else s
    case QueryChanged(text) =>
      s.(query := text)
    case CurrentSuggestionClicked =>
      s.(query := Suggestions(s.activeTab)[s.suggestionIndex])
    case TabSelected(tab) =>
      s.(activeTab := tab)
  }

  /** The state after `n` interval ticks and no other event. */
  function Ticks(s: SearchState, n: nat): (r: SearchState)
    requires IndexValid(s)
    ensures IndexValid(r)
  {
    if n == 0 then s else Next(Ticks(s, n - 1), IntervalTick)
  }

  /** A tick while cycling moves to the next suggestion, wrapping after the fourth, and changes nothing else. */
  lemma TickAdvances(s: SearchState)
    requires IndexValid(s) && Cycling(s)
    ensures Next(s, IntervalTick) == s.(suggestionIndex := (s.suggestionIndex + 1) % 4)
    ensures Next(s, IntervalTick).suggestionIndex < 4
  {
  }

  /** A tick changes nothing unless the box is focused and the query is empty. */
  lemma TickIdleIsNoOp(s: SearchState)
    requires IndexValid(s) && !Cycling(s)
    ensures Next(s, IntervalTick) == s
  {
  }

  /** While cycling, `n` ticks advance the index by `n` modulo the list length and touch nothing else. */
  lemma {:induction false} TicksAdvanceBy(s: SearchState, n: nat)
    requires IndexValid(s) && Cycling(s)
    ensures Ticks(s, n) == s.(suggestionIndex := (s.suggestionIndex + n) % 4)
  {
    if n > 0 {
      TicksAdvanceBy(s, n - 1);
      var before := Ticks(s, n - 1);
      assert Cycling(before);
      assert Ticks(s, n).suggestionIndex == ((s.suggestionIndex + n - 1) % 4 + 1) % 4;
    }
  }

  /** From index 0, focused and empty, `n` ticks show suggestion `n mod 4`. */
  lemma TicksFromZero(s: SearchState, n: nat)
    requires s.suggestionIndex == 0 && Cycling(s)
    ensures Ticks(s, n).suggestionIndex == n % 4
  {
    TicksAdvanceBy(s, n);
  }

  /**
   * Clicking the shown suggestion copies it into the query; every suggestion
   * is non-empty, so from then on ticks change nothing.
   */
  lemma {:induction false} SuggestionClickStopsCycling(s: SearchState, n: nat)
    requires IndexValid(s)
    ensures Next(s, CurrentSuggestionClicked).query == Suggestions(s.activeTab)[s.suggestionIndex]
    ensures !Cycling(Next(s, CurrentSuggestionClicked))
    ensures Ticks(Next(s, CurrentSuggestionClicked), n) == Next(s, CurrentSuggestionClicked)
  {
    if n > 0 {
      SuggestionClickStopsCycling(s, n - 1);
    }
  }

  /** Switching tabs keeps the index, which stays in range because both lists have four entries. */
  lemma TabSwitchKeepsIndex(s: SearchState, tab: Tab)
    requires IndexValid(s)
    ensures Next(s, TabSelected(tab)) == s.(activeTab := tab)
    ensures Next(s, TabSelected(tab)).suggestionIndex < |Suggestions(tab)|
  {
  }

  /** Focus always sets the focus flag, and turns on fullscreen search only below the breakpoint. */
  lemma FocusRule(s: SearchState, innerWidth: int)
    requires IndexValid(s)
    ensures Next(s, SearchFocused(innerWidth)).isFocused
    ensures Next(s, SearchFocused(innerWidth)).isFullscreenSearch
        <==> innerWidth < SM_BREAKPOINT || s.isFullscreenSearch
  {
  }

  /** Blur clears the focus flag outside fullscreen search; in fullscreen search it leaves the state as it was. */
  lemma BlurRule(s: SearchState)
    requires IndexValid(s)
    ensures Next(s, SearchBlurred).isFocused <==> s.isFocused && s.isFullscreenSearch
    ensures s.isFullscreenSearch ==> Next(s, SearchBlurred) == s
  {
  }

  /** The close button leaves fullscreen search unfocused, whatever the state before. */
  lemma CloseRule(s: SearchState)
    requires IndexValid(s)
    ensures !Next(s, CloseClicked).isFocused && !Next(s, CloseClicked).isFullscreenSearch
    ensures !Cycling(Next(s, CloseClicked))
  {
  }

  /**
   * The idle/cycling machine: focusing an empty box starts the cycling, and
   * a non-empty query, a blur outside fullscreen search or the close button stop it.
   */
  lemma CyclingTransitions(s: SearchState, innerWidth: int, text: string)
    requires IndexValid(s)
    ensures s.query == "" ==> Cycling(Next(s, SearchFocused(innerWidth)))
    ensures text != "" ==> !Cycling(Next(s, QueryChanged(text)))
    ensures !s.isFullscreenSearch ==> !Cycling(Next(s, SearchBlurred))
    ensures Cycling(Next(s, QueryChanged(text))) <==> s.isFocused && text == ""
  {
  }

  /** The page's component state, updated in place by its handlers. */
  class Home {
    var query: string
    var isFocused: bool
    var currentSuggestionIndex: nat
    var activeTab: Tab
    var isFullscreenSearch: bool

    function State(): SearchState
      reads this
    {
      SearchState(query, isFocused, currentSuggestionIndex, activeTab, isFullscreenSearch)
    }

    ghost predicate Valid()
      reads this
    {
      IndexValid(State())
    }

    constructor ()
      ensures State() == INITIAL_STATE
      ensures Valid()
    {
      query := "";
      isFocused := false;
      currentSuggestionIndex := 0;
      activeTab := Rental;
      isFullscreenSearch := false;
    }

    /** One firing of the interval timer; the timer only exists while the box is focused and empty. */
    method Tick()
      requires Valid()
      modifies this
      ensures Valid()
      ensures State() == Next(old(State()), IntervalTick)
      ensures old(isFocused) && old(query) == ""
          ==> currentSuggestionIndex == (old(currentSuggestionIndex) + 1) % |Suggestions(activeTab)|
    {
      if isFocused && query == "" {
        currentSuggestionIndex := (currentSuggestionIndex + 1) % |Suggestions(activeTab)|;
      }
    }

    /** `handleSearchFocus`, given the window's inner width. */
    method HandleSearchFocus(innerWidth: int)
      requires Valid()
      modifies this
      ensures Valid()
      ensures State() == Next(old(State()), SearchFocused(innerWidth))
    {
      isFocused := true;
      if innerWidth < SM_BREAKPOINT {
        isFullscreenSearch := true;
      }
    }

    /** `handleSearchBlur`. */
    method HandleSearchBlur()
      requires Valid()
      modifies this
      ensures Valid()
      ensures State() == Next(old(State()), SearchBlurred)
    {
      if !isFullscreenSearch {
        isFocused := false;
      }
    }

    /** The fullscreen overlay's close button. */
    method CloseFullscreenSearch()
      requires Valid()
      modifies this
      ensures Valid()
      ensures State() == Next(old(State()), CloseClicked)
    {
      isFullscreenSearch := false;
      isFocused := false;
    }

    /** The search container's click handler, attached only outside fullscreen search. */
    method TapSearchContainer(innerWidth: int)
      requires Valid()
      modifies this
      ensures Valid()
      ensures State() == Next(old(State()), ContainerTapped(innerWidth))
    {
      if !isFullscreenSearch && innerWidth < SM_BREAKPOINT {
        isFullscreenSearch := true;
      }
    }

    /** A textarea's change handler. */
    method SetQuery(text: string)
      requires Valid()
      modifies this
      ensures Valid()
      ensures State() == Next(old(State()), QueryChanged(text))
    {
      query := text;
    }

    /** The rotating suggestion's button: the shown suggestion becomes the query. */
    method ClickCurrentSuggestion()
      requires Valid()
      modifies this
      ensures Valid()
      ensures State() == Next(old(State()), CurrentSuggestionClicked)
      ensures query != ""
    {
      query := Suggestions(activeTab)[currentSuggestionIndex];
    }

    /** One of the fullscreen overlay's listed suggestions, by its position in the list. */
    method ChooseListedSuggestion(k: nat)
      requires Valid()
      requires k < |Suggestions(activeTab)|
      modifies this
      ensures Valid()
      ensures State() == Next(old(State()), QueryChanged(Suggestions(old(activeTab))[k]))
      ensures query != ""
    {
      query := Suggestions(activeTab)[k];
    }

    /** The stay-type buttons. */
    method SetActiveTab(tab: Tab)
      requires Valid()
      modifies this
      ensures Valid()
      ensures State() == Next(old(State()), TabSelected(tab))
    {
      TabSwitchKeepsIndex(State(), tab);
      activeTab := tab;
    }
  }
}
