/**
 * The search-fetch coordinator of the weather context as a state machine:
 * a single-flight scheduler with one trailing retrigger. An intent records its
 * text and either starts a fetch or, while one is in flight, raises a boolean
 * "pending" flag. When the fetch finishes, successfully or not, the in-flight
 * flag is cleared; if the pending flag was raised it is cleared and a new
 * fetch starts with the text current at that moment.
 *
 * The class `Context.WeatherContext` keeps this state in its fields; its
 * methods are proved to change it exactly as the functions here say.
 */
module SearchCoordinator {
  import opened Wrappers

  /**
   * `text` is the current search text, `fetching` says a fetch is in flight,
   * `pending` says another fetch is owed once it finishes, and `query` is the
   * query of the most recently started fetch (the one in flight, if any).
   */
  datatype SearchState = SearchState(text: string, fetching: bool, pending: bool, query: string)

  /** A state together with the query of the fetch the step started, if it started one. */
  datatype Step = Step(state: SearchState, started: Option<string>)

  /**
   * The invariant the coordinator keeps: a retrigger is owed only while a fetch
   * is in flight, and when none is owed the latest fetch queried the current text.
   */
  predicate Valid(s: SearchState)
  {
    (s.pending ==> s.fetching) && (!s.pending ==> s.query == s.text)
  }

  /** A new search text arrives. */
  function SubmitIntent(s: SearchState, text: string): (r: Step)
    ensures r.state.text == text && r.state.fetching
    ensures s.fetching ==> r.started == None && r.state.pending && r.state.query == s.query
    ensures !s.fetching ==> r.started == Some(text) && r.state.query == text && r.state.pending == s.pending
    ensures Valid(r.state)
  {
    if s.fetching then Step(s.(text := text, pending := true), None)
    else Step(s.(text := text, fetching := true, query := text), Some(text))
  }

  /** The fetch in flight finishes, whatever its result. */
  function FinishFetch(s: SearchState): (r: Step)
    requires s.fetching
    ensures r.state.text == s.text && !r.state.pending
    ensures r.started == (if s.pending then Some(s.text) else None)
    ensures r.state.fetching <==> r.started.Some?
    ensures Valid(s) ==> Valid(r.state)
  {
    var cleared := s.(fetching := false);
    if s.pending then SubmitIntent(cleared.(pending := false), s.text)
    else Step(cleared, None)
  }

  /** What can happen to the coordinator: a text intent, or the completion of the fetch in flight. */
  datatype Event = Submit(text: string) | Finish

  /** A completion can only happen while a fetch is in flight. */
  predicate Enabled(s: SearchState, e: Event)
  {
    e.Finish? ==> s.fetching
  }

  function Apply(s: SearchState, e: Event): Step
    requires Enabled(s, e)
  {
    match e
    case Submit(t) => SubmitIntent(s, t)
    case Finish => FinishFetch(s)
  }

  /** Every completion in `events` happens while a fetch is in flight. */
  predicate Legal(s: SearchState, events: seq<Event>)
    decreases |events|
  {
    events == [] || (Enabled(s, events[0]) && Legal(Apply(s, events[0]).state, events[1..]))
  }

  /** The final state of a run and the queries of the fetches it started, in order. */
  datatype Trace = Trace(final: SearchState, starts: seq<string>)

  function Begun(started: Option<string>): seq<string>
  {
    if started.Some? then [started.value] else []
  }

  function Run(s: SearchState, events: seq<Event>): Trace
    requires Legal(s, events)
    decreases |events|
  {
    if events == [] then Trace(s, [])
    else
      var step := Apply(s, events[0]);
      var rest := Run(step.state, events[1..]);
      Trace(rest.final, Begun(step.started) + rest.starts)
  }

  /** The text of the last intent in `events`, or `text` when there is none. */
  function Latest(text: string, events: seq<Event>): string
    decreases |events|
  {
    if events == [] then text
    else Latest(if events[0].Submit? then events[0].text else text, events[1..])
  }

  /** Whether `events` holds an intent. */
  predicate HasSubmit(events: seq<Event>)
  {
    exists i :: 0 <= i < |events| && events[i].Submit?
  }

  /** The number of completions in `events`. */
  function Finishes(events: seq<Event>): nat
    decreases |events|
  {
    if events == [] then 0 else (if events[0].Finish? then 1 else 0) + Finishes(events[1..])
  }

  function Count(b: bool): nat { if b then 1 else 0 }

  /** The intents `texts`, in order. */
  function Submits(texts: seq<string>): (events: seq<Event>)
    ensures |events| == |texts|
    ensures forall i :: 0 <= i < |texts| ==> events[i] == Submit(texts[i])
    decreases |texts|
  {
    if texts == [] then [] else [Submit(texts[0])] + Submits(texts[1..])
  }

  /** Every run keeps the invariant. */
  lemma {:induction false} RunValid(s: SearchState, events: seq<Event>)
    requires Valid(s) && Legal(s, events)
    ensures Valid(Run(s, events).final)
    decreases |events|
  {
    if events != [] {
      RunValid(Apply(s, events[0]).state, events[1..]);
    }
  }

  /** The current text after a run is the text of its last intent. */
  lemma {:induction false} RunText(s: SearchState, events: seq<Event>)
    requires Legal(s, events)
    ensures Run(s, events).final.text == Latest(s.text, events)
    decreases |events|
  {
    if events != [] {
      RunText(Apply(s, events[0]).state, events[1..]);
    }
  }

  /** The recorded query is that of the last fetch the run started, if it started any. */
  lemma {:induction false} RunQuery(s: SearchState, events: seq<Event>)
    requires Legal(s, events)
    ensures var t := Run(s, events);
            if t.starts == [] then t.final.query == s.query else t.final.query == t.starts[|t.starts| - 1]
    decreases |events|
  {
    if events != [] {
      RunQuery(Apply(s, events[0]).state, events[1..]);
    }
  }

  /**
   * A run that holds an intent, or that begins with a retrigger owed, and ends
   * with no fetch in flight has started at least one fetch.
   */
  lemma {:induction false} RunStarts(s: SearchState, events: seq<Event>)
    requires Valid(s) && Legal(s, events)
    requires HasSubmit(events) || s.pending
    requires !Run(s, events).final.fetching
    ensures Run(s, events).starts != []
    decreases |events|
  {
    if events != [] {
      var step := Apply(s, events[0]);
      if step.started.None? {
        assert step.state.pending || HasSubmit(events[1..]) by {
          if events[0].Finish? {
            var i :| 0 <= i < |events| && events[i].Submit?;
            assert events[1..][i - 1].Submit?;
          }
        }
        RunStarts(step.state, events[1..]);
      }
    }
  }

  /**
   * Convergence to the latest text: once a run ends with no fetch in flight,
   * the latest fetch queried the text of the run's last intent (the current
   * text if it holds none), and if the run holds an intent or begins with a
   * retrigger owed, the last fetch it started is that one.
   */
  lemma ConvergesToLatest(s: SearchState, events: seq<Event>)
    requires Valid(s) && Legal(s, events)
    requires !Run(s, events).final.fetching
    ensures Run(s, events).final.query == Latest(s.text, events)
    ensures HasSubmit(events) || s.pending ==>
              var starts := Run(s, events).starts;
              starts != [] && starts[|starts| - 1] == Latest(s.text, events)
  {
    RunValid(s, events);
    RunText(s, events);
    RunQuery(s, events);
    if HasSubmit(events) || s.pending {
      RunStarts(s, events);
    }
  }

  /**
   * At most one fetch is in flight: the fetches started by a run, plus the one
   * in flight before it, minus the completions, is the 0-or-1 flag afterwards.
   */
  lemma {:induction false} InFlightCount(s: SearchState, events: seq<Event>)
    requires Legal(s, events)
    ensures |Run(s, events).starts| + Count(s.fetching)
            == Finishes(events) + Count(Run(s, events).final.fetching)
    decreases |events|
  {
    if events != [] {
      InFlightCount(Apply(s, events[0]).state, events[1..]);
    }
  }

  /**
   * Any number of intents during one fetch start nothing and collapse into a
   * single owed retrigger, which the completion starts with the last text.
   */
  lemma {:induction false} IntentsCollapse(s: SearchState, texts: seq<string>)
    requires s.fetching && texts != []
    ensures Legal(s, Submits(texts))
    ensures Run(s, Submits(texts)).starts == []
    ensures Run(s, Submits(texts)).final == s.(text := texts[|texts| - 1], pending := true)
    ensures FinishFetch(Run(s, Submits(texts)).final).started == Some(texts[|texts| - 1])
    decreases |texts|
  {
    var next := SubmitIntent(s, texts[0]).state;
    assert Submits(texts)[1..] == Submits(texts[1..]);
    if |texts| > 1 {
      IntentsCollapse(next, texts[1..]);
    } else {
      assert Submits(texts[1..]) == [];
    }
  }
}
