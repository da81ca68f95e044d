/**
 * The location search box of src/components/Search.tsx.
 *
 * `Session` is the component's state as one value: the five React state
 * variables, the single timer slot that the debounce closure keeps, an
 * integer clock in milliseconds, the lookups whose promise has not settled,
 * and a log of the texts handed to `performSearch`. Each event handler is a
 * function from the old session to the new one; `SearchBox` is the same
 * state kept in mutable fields, with one method per handler, each proved to
 * move its fields exactly as the matching function does.
 */
module Search {
  import opened Wrappers
  import opened Api

  /** The delay passed to `debounce` when the component creates `debouncedSearch`. */
  const DebounceDelay: int := 200

  // ---------------------------------------------------------------------
  // String.prototype.trim
  // ---------------------------------------------------------------------

  /** The white space and line terminators that `trim` removes. */
  predicate IsWhitespace(c: char)
  {
    c == '\t' || c == '\n' || c == '\U{000B}' || c == '\U{000C}' || c == '\r' || c == ' ' ||
    c == '\U{00A0}' || c == '\U{1680}' || ('\U{2000}' <= c <= '\U{200A}') ||
    c == '\U{2028}' || c == '\U{2029}' || c == '\U{202F}' || c == '\U{205F}' ||
    c == '\U{3000}' || c == '\U{FEFF}'
  }

  predicate Blank(s: string)
  {
    forall k :: 0 <= k < |s| ==> IsWhitespace(s[k])
  }

  function TrimStart(s: string): string
  {
    if s != [] && IsWhitespace(s[0]) then TrimStart(s[1..]) else s
  }

  function TrimEnd(s: string): string
  {
    if s != [] && IsWhitespace(s[|s| - 1]) then TrimEnd(s[..|s| - 1]) else s
  }

  /** `String.prototype.trim`: white space removed from both ends. */
  function Trim(s: string): string
  {
    TrimEnd(TrimStart(s))
  }

  /** Trimming the start empties a text exactly when it is blank, and otherwise stops at a visible character. */
  lemma {:induction false} TrimStartBlank(s: string)
    ensures TrimStart(s) == [] <==> Blank(s)
    ensures TrimStart(s) == [] || !IsWhitespace(TrimStart(s)[0])
  {
    if s != [] && IsWhitespace(s[0]) {
      TrimStartBlank(s[1..]);
      assert Blank(s) <==> Blank(s[1..]) by {
        if Blank(s[1..]) {
          forall k | 0 <= k < |s| ensures IsWhitespace(s[k]) {
            if k > 0 { assert s[k] == s[1..][k - 1]; }
          }
        }
      }
    }
  }

  /** Trimming the end empties a text exactly when it is blank. */
  lemma {:induction false} TrimEndBlank(s: string)
    ensures TrimEnd(s) == [] <==> Blank(s)
  {
    if s != [] && IsWhitespace(s[|s| - 1]) {
      var init := s[..|s| - 1];
      TrimEndBlank(init);
      assert Blank(s) <==> Blank(init) by {
        if Blank(init) {
          forall k | 0 <= k < |s| ensures IsWhitespace(s[k]) {
            if k < |s| - 1 { assert s[k] == init[k]; }
          }
        }
      }
    }
  }

  /** `searchQuery.trim()` is falsy exactly for the blank texts. */
  lemma TrimEmptyIffBlank(s: string)
    ensures Trim(s) == "" <==> Blank(s)
  {
    TrimStartBlank(s);
    var t := TrimStart(s);
    TrimEndBlank(t);
  }

  // ---------------------------------------------------------------------
  // The component's state
  // ---------------------------------------------------------------------

  /** The one timeout the debounce closure holds: the text it will search and when. */
  datatype Timer = Timer(text: string, deadline: int)

  datatype Session = Session(
    query: string,
    selectedLocation: Option<string>,
    results: seq<Candidate>,
    isLoading: bool,
    isOpen: bool,
    timer: Option<Timer>,
    clock: int,
    searched: seq<string>,    // every text `performSearch` was called with, oldest first
    inFlight: seq<string>)    // the texts of the lookups that have not settled

  /**
   * The session right after mounting: all state at its initial value, and the
   * query effect's first run has handed `""` to the debounce at time 0.
   */
  function Initial(): Session
  {
    Session("", None, [], false, false, Some(Timer("", DebounceDelay)), 0, [], [])
  }

  /** The debounced function: cancel the pending timeout, start a new one for `text`. */
  function Debounce(s: Session, text: string): Session
  {
    s.(timer := Some(Timer(text, s.clock + DebounceDelay)))
  }

  /**
   * `setQuery(text)` followed by the effect on `[query]`: React re-runs the
   * effect only when the value changed, and then it calls the debounce.
   */
  function WithQuery(s: Session, text: string): (r: Session)
    ensures r.query == text
    ensures text != s.query ==> r.timer == Some(Timer(text, s.clock + DebounceDelay))
    ensures text == s.query ==> r == s
    ensures r == s.(query := text, timer := r.timer)
  {
    if text == s.query then s else Debounce(s.(query := text), text)
  }

  /**
   * The synchronous part of `performSearch`: a non-blank text opens the
   * dropdown, shows the loader, forgets the selection and starts a lookup; a
   * blank one only empties the result list.
   */
  function AfterSearch(s: Session, text: string): (r: Session)
    ensures r.searched == s.searched + [text]
    ensures Blank(text) ==> r == s.(results := [], searched := r.searched)
    ensures !Blank(text) ==>
      r == s.(isOpen := true, isLoading := true, selectedLocation := None,
              inFlight := s.inFlight + [text], searched := r.searched)
  {
    TrimEmptyIffBlank(text);
    var s' := s.(searched := s.searched + [text]);
    var trimmed := Trim(text);
    if trimmed != "" then
      s'.(isOpen := true, isLoading := true, selectedLocation := None, inFlight := s.inFlight + [text])
    else
      s'.(results := [])
  }

  /** Time passes up to `t`; a timeout that falls due on the way fires. */
  function Advance(s: Session, t: int): (r: Session)
    requires t >= s.clock
    ensures r.clock == t && r.query == s.query
    ensures r.timer == if s.timer.Some? && s.timer.value.deadline <= t then None else s.timer
    ensures |s.searched| <= |r.searched| <= |s.searched| + 1
    ensures s.timer.Some? && s.timer.value.deadline <= t ==>
      r == AfterSearch(s.(clock := t, timer := None), s.timer.value.text)
    ensures !(s.timer.Some? && s.timer.value.deadline <= t) ==> r == s.(clock := t)
  {
    if s.timer.Some? && s.timer.value.deadline <= t then
      AfterSearch(s.(clock := t, timer := None), s.timer.value.text)
    else
      s.(clock := t)
  }

  /** Removes the `k`-th element of a sequence. */
  function RemoveAt<T>(s: seq<T>, k: nat): (r: seq<T>)
    requires k < |s|
    ensures |r| == |s| - 1
  {
    s[..k] + s[k + 1..]
  }

  /**
   * The lookup `inFlight[k]` settles: `Some(list)` on success, `None` when it
   * threw. Nothing compares the lookup's text with the current query.
   */
  function Settle(s: Session, k: nat, outcome: Option<seq<Candidate>>): (r: Session)
    requires k < |s.inFlight|
    ensures r.results == if outcome.Some? then outcome.value else s.results
    ensures !r.isLoading
    ensures r.inFlight == RemoveAt(s.inFlight, k)
    ensures r == s.(results := r.results, isLoading := false, inFlight := r.inFlight)
  {
    s.(results := if outcome.Some? then outcome.value else s.results,
       isLoading := false,
       inFlight := RemoveAt(s.inFlight, k))
  }

  /** A click on the `i`-th list item (the `onLocationSelect` call is the caller's). */
  function Select(s: Session, i: nat): (r: Session)
    requires ShowsList(s) && i < |s.results|
    ensures r.results == [] && r.query == "" && !r.isOpen
    ensures r.selectedLocation == Some(s.results[i].displayName)
    ensures r.isLoading == s.isLoading && r.inFlight == s.inFlight && r.searched == s.searched
    ensures r.timer == if s.query != "" then Some(Timer("", s.clock + DebounceDelay)) else s.timer
    ensures r == s.(results := [], query := "", isOpen := false,
                    selectedLocation := r.selectedLocation, timer := r.timer)
  {
    WithQuery(s.(results := [], isOpen := false, selectedLocation := Some(s.results[i].displayName)), "")
  }

  /** The X icon: empty the query and forget the selection; results and dropdown stay. */
  function Clear(s: Session): (r: Session)
    ensures r.query == "" && r.selectedLocation == None
    ensures r.results == s.results && r.isOpen == s.isOpen && r.isLoading == s.isLoading
    ensures r.inFlight == s.inFlight && r.searched == s.searched
    ensures r.timer == if s.query != "" then Some(Timer("", s.clock + DebounceDelay)) else s.timer
    ensures r == s.(query := "", selectedLocation := None, timer := r.timer)
  {
    WithQuery(s.(selectedLocation := None), "")
  }

  /** A mouse press outside the component closes the dropdown and touches nothing else. */
  function ClickOutside(s: Session): (r: Session)
    ensures !r.isOpen
    ensures r.query == s.query && r.results == s.results && r.selectedLocation == s.selectedLocation
    ensures r.isLoading == s.isLoading && r.timer == s.timer && r.inFlight == s.inFlight
    ensures r.clock == s.clock && r.searched == s.searched
  {
    s.(isOpen := false)
  }

  // ---------------------------------------------------------------------
  // What the component renders
  // ---------------------------------------------------------------------

  /** The input's `value`. */
  function DisplayedValue(s: Session): string
  {
    match s.selectedLocation
    case Some(name) => name
    case None => s.query
  }

  /** After a pick the input shows the picked candidate's name. */
  lemma PickShowsName(s: Session, i: nat)
    requires ShowsList(s) && i < |s.results|
    ensures DisplayedValue(Select(s, i)) == s.results[i].displayName
  {
  }

  /** After the X icon the input is empty. */
  lemma ClearShowsEmpty(s: Session)
    ensures DisplayedValue(Clear(s)) == ""
  {
  }

  /**
   * While a picked name is shown, typing changes the query but not what the
   * input shows; the name gives way only when a non-blank search starts.
   */
  lemma TypingUnderSelection(s: Session, text: string)
    requires s.selectedLocation.Some?
    ensures DisplayedValue(WithQuery(s, text)) == s.selectedLocation.value
    ensures !Blank(text) ==> DisplayedValue(AfterSearch(WithQuery(s, text), text)) == text
  {
  }

  /** The three conditional blocks inside the open dropdown, as written in the JSX. */
  predicate ShowsLoading(s: Session)
  {
    s.isOpen && s.isLoading
  }

  predicate ShowsNoResults(s: Session)
  {
    s.isOpen && !s.isLoading && |s.results| == 0 && s.query != ""
  }

  predicate ShowsList(s: Session)
  {
    s.isOpen && !s.isLoading && |s.results| > 0
  }

  datatype Panel = NoPanel | LoadingPanel | NoResultsPanel | ListPanel(items: seq<string>)

  /** The dropdown's content as a single choice. */
  function Dropdown(s: Session): (p: Panel)
    ensures p.LoadingPanel? <==> ShowsLoading(s)
    ensures p.NoResultsPanel? <==> ShowsNoResults(s)
    ensures p.ListPanel? <==> ShowsList(s)
    ensures p.ListPanel? ==>
      |p.items| == |s.results| && forall k :: 0 <= k < |p.items| ==> p.items[k] == s.results[k].displayName
  {
    if !s.isOpen then NoPanel
    else if s.isLoading then LoadingPanel
    else if |s.results| > 0 then ListPanel(seq(|s.results|, k requires 0 <= k < |s.results| => s.results[k].displayName))
    else if s.query != "" then NoResultsPanel
    else NoPanel
  }

  /** At most one of the three blocks shows, and "No results" needs a query. */
  lemma PanelsExclusive(s: Session)
    ensures !(ShowsLoading(s) && ShowsNoResults(s))
    ensures !(ShowsLoading(s) && ShowsList(s))
    ensures !(ShowsNoResults(s) && ShowsList(s))
    ensures ShowsNoResults(s) ==> s.query != ""
  {
  }

  // ---------------------------------------------------------------------
  // Event sequences
  // ---------------------------------------------------------------------

  datatype Event =
    | Typed(text: string)                                        // the input's onChange
    | Elapsed(at: int)                                           // the clock reaches `at`
    | Settled(request: nat, outcome: Option<seq<Candidate>>)     // lookup `inFlight[request]` settles
    | Picked(index: nat)                                         // click on a list item
    | Cleared                                                    // click on the X icon
    | ClickedOutside                                             // mousedown outside the component

  /** Whether the event can happen at all in state `s`. */
  predicate Enabled(s: Session, e: Event)
  {
    match e
    case Elapsed(t) => t >= s.clock
    case Settled(k, _) => k < |s.inFlight|
    case Picked(i) => ShowsList(s) && i < |s.results|
    case _ => true
  }

  /** One event; an event that cannot happen in `s` leaves it as it is. */
  function Step(s: Session, e: Event): Session
  {
    if !Enabled(s, e) then s
    else match e
      case Typed(text) => WithQuery(s, text)
      case Elapsed(t) => Advance(s, t)
      case Settled(k, outcome) => Settle(s, k, outcome)
      case Picked(i) => Select(s, i)
      case Cleared => Clear(s)
      case ClickedOutside => ClickOutside(s)
  }

  function Run(s: Session, events: seq<Event>): Session
    decreases |events|
  {
    if events == [] then s else Run(Step(s, events[0]), events[1..])
  }

  /**
   * What every reachable session satisfies: a pending timeout always carries
   * the current query and falls due within one delay, and the loader only
   * shows while some lookup is unsettled.
   */
  ghost predicate Inv(s: Session)
  {
    (s.timer.Some? ==>
      s.timer.value.text == s.query && s.clock < s.timer.value.deadline <= s.clock + DebounceDelay) &&
    (s.isLoading ==> |s.inFlight| > 0)
  }

  lemma InitialInv()
    ensures Inv(Initial())
  {
  }

  lemma StepInv(s: Session, e: Event)
    requires Inv(s)
    ensures Inv(Step(s, e))
  {
  }

  lemma {:induction false} RunInv(s: Session, events: seq<Event>)
    requires Inv(s)
    ensures Inv(Run(s, events))
    decreases |events|
  {
    if events != [] {
      StepInv(s, events[0]);
      RunInv(Step(s, events[0]), events[1..]);
    }
  }

  lemma {:induction false} RunAppend(s: Session, a: seq<Event>, b: seq<Event>)
    ensures Run(s, a + b) == Run(Run(s, a), b)
    decreases |a|
  {
    if a == [] {
      assert a + b == b;
    } else {
      assert (a + b)[0] == a[0] && (a + b)[1..] == a[1..] + b;
      RunAppend(Step(s, a[0]), a[1..], b);
    }
  }

  /** When the timeout fires it searches the query as it is at that moment. */
  lemma FiresCurrentQuery(s: Session, t: int)
    requires Inv(s) && t >= s.clock
    requires s.timer.Some? && s.timer.value.deadline <= t
    ensures Advance(s, t).searched == s.searched + [s.query]
    ensures Advance(s, t).timer == None
  {
  }

  /** A keystroke that turns the input's text into `text` at time `at`. */
  datatype Keystroke = Keystroke(text: string, at: int)

  function Keystrokes(keys: seq<Keystroke>): (events: seq<Event>)
    ensures |events| == 2 * |keys|
  {
    if keys == [] then [] else [Elapsed(keys[0].at), Typed(keys[0].text)] + Keystrokes(keys[1..])
  }

  /**
   * A burst: keystrokes that each change the text, in time order, each less
   * than one delay after the one before, the first arriving before any
   * pending timeout falls due.
   */
  predicate IsBurst(s: Session, keys: seq<Keystroke>)
  {
    keys != [] &&
    s.clock <= keys[0].at &&
    (s.timer.Some? ==> keys[0].at < s.timer.value.deadline) &&
    keys[0].text != s.query &&
    forall j :: 0 < j < |keys| ==>
      keys[j - 1].at <= keys[j].at < keys[j - 1].at + DebounceDelay && keys[j].text != keys[j - 1].text
  }

  /** During a burst nothing is searched, and afterwards one timeout waits for the last text. */
  lemma {:induction false} BurstSearchesNothing(s: Session, keys: seq<Keystroke>)
    requires Inv(s) && IsBurst(s, keys)
    ensures var last, b := keys[|keys| - 1], Run(s, Keystrokes(keys));
      b.searched == s.searched && b.query == last.text && b.clock == last.at &&
      b.timer == Some(Timer(last.text, last.at + DebounceDelay)) && Inv(b)
    decreases |keys|
  {
    var first := keys[0];
    var s1 := Step(Step(s, Elapsed(first.at)), Typed(first.text));
    assert Keystrokes(keys) == [Elapsed(first.at), Typed(first.text)] + Keystrokes(keys[1..]);
    RunAppend(s, [Elapsed(first.at), Typed(first.text)], Keystrokes(keys[1..]));
    var pair := [Elapsed(first.at), Typed(first.text)];
    assert Run(s, pair) == Run(Step(s, pair[0]), pair[1..]);
    assert Run(Step(s, pair[0]), pair[1..]) == Run(s1, []);
    StepInv(s, Elapsed(first.at));
    StepInv(Step(s, Elapsed(first.at)), Typed(first.text));
    if |keys| > 1 {
      assert IsBurst(s1, keys[1..]);
      BurstSearchesNothing(s1, keys[1..]);
    }
  }

  /**
   * The debounce: a burst followed by one quiet delay performs exactly one
   * search, with the text of the burst's last keystroke.
   */
  lemma DebounceSearchesLastText(s: Session, keys: seq<Keystroke>)
    requires Inv(s) && IsBurst(s, keys)
    ensures var last := keys[|keys| - 1];
      Run(s, Keystrokes(keys) + [Elapsed(last.at + DebounceDelay)]).searched == s.searched + [last.text]
  {
    var last := keys[|keys| - 1];
    BurstSearchesNothing(s, keys);
    RunAppend(s, Keystrokes(keys), [Elapsed(last.at + DebounceDelay)]);
    FiresCurrentQuery(Run(s, Keystrokes(keys)), last.at + DebounceDelay);
  }

  /**
   * There is no stale-response guard: search `older`, then `newer`, and let
   * the lookup for `older` settle while the one for `newer` is still out;
   * its list is shown although the query is `newer`, and the loader
   * disappears before the lookup for `newer` has settled.
   */
  lemma LateResponseOverwrites(older: string, newer: string, late: seq<Candidate>)
    requires !Blank(older) && !Blank(newer) && older != newer
    ensures var r := Run(Initial(), [Elapsed(200), Typed(older), Elapsed(400), Typed(newer), Elapsed(600), Settled(0, Some(late))]);
      r.query == newer && r.results == late && !r.isLoading && r.inFlight == [newer]
  {
    var events := [Elapsed(200), Typed(older), Elapsed(400), Typed(newer), Elapsed(600), Settled(0, Some(late))];
    var s0 := Initial();
    var s1 := Step(s0, events[0]);
    var s2 := Step(s1, events[1]);
    var s3 := Step(s2, events[2]);
    assert s3.inFlight == [older] && s3.query == older;
    var s4 := Step(s3, events[3]);
    var s5 := Step(s4, events[4]);
    assert s5.inFlight == [older, newer] && s5.query == newer;
    var s6 := Step(s5, events[5]);
    assert s6.inFlight == [newer];
    assert Run(s0, events) == Run(s1, events[1..]);
    assert Run(s1, events[1..]) == Run(s2, events[2..]);
    assert Run(s2, events[2..]) == Run(s3, events[3..]);
    assert Run(s3, events[3..]) == Run(s4, events[4..]);
    assert Run(s4, events[4..]) == Run(s5, events[5..]);
    assert Run(s5, events[5..]) == Run(s6, []);
  }

  // ---------------------------------------------------------------------
  // The component
  // ---------------------------------------------------------------------

  class SearchBox {
    var query: string
    var selectedLocation: Option<string>
    var results: seq<Candidate>
    var isLoading: bool
    var isOpen: bool
    var timer: Option<Timer>
    var clock: int
    var inFlight: seq<string>
    ghost var searched: seq<string>

    ghost function State(): Session
      reads this
    {
      Session(query, selectedLocation, results, isLoading, isOpen, timer, clock, searched, inFlight)
    }

    ghost predicate Valid()
      reads this
    {
      Inv(State())
    }

    /** Mounting: initial state, then the query effect debounces `""`. */
    constructor ()
      ensures Valid() && State() == Initial()
    {
      query, selectedLocation, results := "", None, [];
      isLoading, isOpen := false, false;
      clock, inFlight, searched := 0, [], [];
      timer := Some(Timer("", 0 + DebounceDelay));
    }

    /** `debouncedSearch(text)`: clear the pending timeout, set a new one. */
    method Debounced(text: string)
      modifies this`timer
      ensures timer == Some(Timer(text, clock + DebounceDelay))
      ensures State() == Debounce(old(State()), text)
    {
      timer := Some(Timer(text, clock + DebounceDelay));
    }

    /** `setQuery(text)` and the effect on `[query]` that follows a change. */
    method SetQuery(text: string)
      modifies this
      ensures State() == WithQuery(old(State()), text)
    {
      if text != query {
        query := text;
        Debounced(text);
      }
    }

    /** The input's onChange. */
    method Type(text: string)
      requires Valid()
      modifies this
      ensures Valid() && State() == Step(old(State()), Typed(text))
    {
      SetQuery(text);
      StepInv(old(State()), Typed(text));
    }

    /** The part of `performSearch` that runs before the lookup's promise settles. */
    method PerformSearch(text: string)
      modifies this
      ensures State() == AfterSearch(old(State()), text)
    {
      var trimmed := Trim(text);
      if trimmed != "" {
        isOpen := true;
        isLoading := true;
        selectedLocation := None;
        inFlight := inFlight + [text];
      } else {
        results := [];
      }
      searched := searched + [text];
    }

    /** The clock reaches `t`; the pending timeout fires if it is due. */
    method Elapse(t: int)
      requires Valid() && t >= clock
      modifies this
      ensures Valid() && State() == Step(old(State()), Elapsed(t))
    {
      var due := timer;
      clock := t;
      if due.Some? && due.value.deadline <= t {
        timer := None;
        PerformSearch(due.value.text);
      }
      StepInv(old(State()), Elapsed(t));
    }

    /** The lookup `inFlight[k]` settles: the `try` / `catch` / `finally` of `performSearch`. */
    method LookupSettled(k: nat, outcome: Option<seq<Candidate>>)
      requires Valid() && k < |inFlight|
      modifies this
      ensures Valid() && State() == Step(old(State()), Settled(k, outcome))
    {
      if outcome.Some? {
        results := outcome.value;
      }
      isLoading := false;
      inFlight := RemoveAt(inFlight, k);
      StepInv(old(State()), Settled(k, outcome));
    }

    /** A click on list item `i`; returns the coordinates passed to `onLocationSelect`. */
    method Select(i: nat) returns (lat: real, lon: real)
      requires Valid() && ShowsList(State()) && i < |results|
      modifies this
      ensures lat == old(results[i].lat) && lon == old(results[i].lon)
      ensures Valid() && State() == Step(old(State()), Picked(i))
    {
      var chosen := results[i];
      lat, lon := chosen.lat, chosen.lon;
      results := [];
      SetQuery("");
      isOpen := false;
      selectedLocation := Some(chosen.displayName);
      StepInv(old(State()), Picked(i));
    }

    /** The X icon's onClick (the focus call is not modelled). */
    method Clear()
      requires Valid()
      modifies this
      ensures Valid() && State() == Step(old(State()), Cleared)
    {
      SetQuery("");
      selectedLocation := None;
      StepInv(old(State()), Cleared);
    }

    /** `handleClickOutside` for a mousedown outside the component. */
    method ClickOutside()
      requires Valid()
      modifies this
      ensures Valid() && State() == Step(old(State()), ClickedOutside)
    {
      isOpen := false;
      StepInv(old(State()), ClickedOutside);
    }
  }
}
