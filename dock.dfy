/**
 * `WeatherDockWidget` (weather_dock_widget.py): the single-flight guard on
 * `self.fetch_thread` and what the panel shows.
 *
 * The guard is first stated as a transition function on the value of
 * `fetch_thread` together with the state of the threads the widget has
 * started, with lemmas about whole event sequences; the class then keeps
 * those fields and updates them by exactly those transitions. The threads'
 * own concurrency is not modelled: a thread's run ending and each callback
 * are events taken one at a time, each tagged with the thread it comes from.
 */
module Dock {
  import opened Wrappers
  import opened Text
  import opened Forecast
  import opened Fetch

  /** A `FetchWeatherThread` object: its identity and the request it was constructed with. */
  datatype Thread = Thread(id: nat, request: FetchRequest)

  /**
   * `self.fetch_thread`, with the state of the threads started so far: those
   * whose `run` has not returned (`running`), those that have emitted a
   * signal whose callback the main thread has not yet run (`pending`), and
   * the next fresh thread id.
   */
  datatype GuardState = GuardState(fetchThread: Option<Thread>, running: set<nat>, pending: set<nat>, nextId: nat)

  const Initial := GuardState(None, {}, {}, 0)

  /** `self.fetch_thread and self.fetch_thread.isRunning()` (line 67). */
  predicate FetchRunning(s: GuardState) {
    s.fetchThread.Some? && s.fetchThread.value.id in s.running
  }

  /** Thread ids are fresh, and no thread is both running and awaiting its callback. */
  predicate Valid(s: GuardState) {
    && (forall id :: id in s.running ==> id < s.nextId)
    && (forall id :: id in s.pending ==> id < s.nextId)
    && s.running !! s.pending
    && (s.fetchThread.Some? ==> s.fetchThread.value.id < s.nextId)
  }

  /** The events that touch the guard, each naming the thread it comes from. */
  datatype Event =
    | Update(request: FetchRequest)  // update_weather, with the coordinates and setting read at that moment
    | ThreadDone(sender: nat)        // run() of thread `sender` emitted its signal and returned
    | DataReceived(sender: nat)      // on_weather_data_received, for the signal of thread `sender`
    | DataError(sender: nat)         // on_weather_data_error, for the signal of thread `sender`

  /** `update_weather`: nothing while the tracked thread runs, else a fresh thread for `r`. */
  function Launch(s: GuardState, r: FetchRequest): GuardState {
    if FetchRunning(s) then s
    else GuardState(Some(Thread(s.nextId, r)), s.running + {s.nextId}, s.pending, s.nextId + 1)
  }

  /** Thread `id`'s `run` emits its one signal and returns; its callback is now queued. */
  function Finish(s: GuardState, id: nat): GuardState {
    if id in s.running then s.(running := s.running - {id}, pending := s.pending + {id}) else s
  }

  /** As written (lines 97, 102): a callback clears `fetch_thread` whichever thread sent it. */
  function Release(s: GuardState, id: nat): GuardState {
    if id in s.pending then s.(fetchThread := None, pending := s.pending - {id}) else s
  }

  /** The evidently intended callback: clear `fetch_thread` only for the thread it holds. */
  function ReleaseIfCurrent(s: GuardState, id: nat): GuardState {
    if id in s.pending then
      s.(fetchThread := if s.fetchThread.Some? && s.fetchThread.value.id == id then None else s.fetchThread,
         pending := s.pending - {id})
    else s
  }

  /**
   * One transition of the guard; `guarded` selects the intended callback
   * instead of the one written. A callback for a thread that has no queued
   * signal cannot happen and changes nothing.
   */
  function Next(s: GuardState, e: Event, guarded: bool): GuardState {
    match e
    case Update(r) => Launch(s, r)
    case ThreadDone(id) => Finish(s, id)
    case DataReceived(id) => if guarded then ReleaseIfCurrent(s, id) else Release(s, id)
    case DataError(id) => if guarded then ReleaseIfCurrent(s, id) else Release(s, id)
  }

  function Replay(s: GuardState, events: seq<Event>, guarded: bool): GuardState
    decreases |events|
  {
    if events == [] then s else Replay(Next(s, events[0], guarded), events[1..], guarded)
  }

  /** The requests for which a thread is started, in order. */
  function Started(s: GuardState, events: seq<Event>, guarded: bool): seq<FetchRequest>
    decreases |events|
  {
    if events == [] then []
    else (if events[0].Update? && !FetchRunning(s) then [events[0].request] else [])
         + Started(Next(s, events[0], guarded), events[1..], guarded)
  }

  /** The number of threads whose `run` returns along the way. */
  function Finishes(s: GuardState, events: seq<Event>, guarded: bool): nat
    decreases |events|
  {
    if events == [] then 0
    else (if events[0].ThreadDone? && events[0].sender in s.running then 1 else 0)
         + Finishes(Next(s, events[0], guarded), events[1..], guarded)
  }

  // ---------------------------------------------------------------- properties of both guards

  lemma NextKeepsValid(s: GuardState, e: Event, guarded: bool)
    requires Valid(s)
    ensures Valid(Next(s, e, guarded))
  {
  }

  /**
   * Threads are conserved: every start is matched by a `run` returning or
   * is still running at the end.
   */
  lemma {:induction false} StartsBalanceFinishes(s: GuardState, events: seq<Event>, guarded: bool)
    requires Valid(s)
    ensures |Started(s, events, guarded)| + |s.running|
         == Finishes(s, events, guarded) + |Replay(s, events, guarded).running|
    decreases |events|
  {
    if events != [] {
      var e := events[0];
      var t := Next(s, e, guarded);
      NextKeepsValid(s, e, guarded);
      if e.Update? && !FetchRunning(s) {
        assert s.nextId !in s.running;
        assert |t.running| == |s.running| + 1;
      } else if e.ThreadDone? && e.sender in s.running {
        assert |t.running| == |s.running| - 1;
      } else {
        assert t.running == s.running;
      }
      StartsBalanceFinishes(t, events[1..], guarded);
    }
  }

  /** An update while the tracked thread runs is dropped, with no effect on anything that follows (it is not queued). */
  lemma {:induction false} UpdateWhileRunningIsDropped(s: GuardState, r: FetchRequest, events: seq<Event>, guarded: bool)
    requires FetchRunning(s)
    ensures Next(s, Update(r), guarded) == s
    ensures Replay(s, [Update(r)] + events, guarded) == Replay(s, events, guarded)
    ensures Started(s, [Update(r)] + events, guarded) == Started(s, events, guarded)
  {
  }

  /** An update with the tracked thread not running starts a fresh thread for exactly that request. */
  lemma {:induction false} UpdateWhenIdleStarts(s: GuardState, r: FetchRequest, events: seq<Event>, guarded: bool)
    requires !FetchRunning(s)
    ensures Started(s, [Update(r)] + events, guarded) == [r] + Started(Launch(s, r), events, guarded)
    ensures Launch(s, r).fetchThread == Some(Thread(s.nextId, r)) && FetchRunning(Launch(s, r))
  {
  }

  /** With no thread ending or callback in between, at most one of any number of updates starts a fetch. */
  lemma {:induction false} BurstStartsAtMostOne(s: GuardState, events: seq<Event>, guarded: bool)
    requires forall i :: 0 <= i < |events| ==> events[i].Update?
    ensures |Started(s, events, guarded)| <= 1
    ensures FetchRunning(s) ==> Started(s, events, guarded) == []
    ensures events != [] ==> FetchRunning(Replay(s, events, guarded))
    decreases |events|
  {
    if events != [] {
      BurstStartsAtMostOne(Next(s, events[0], guarded), events[1..], guarded);
    }
  }

  // ---------------------------------------------------------------- the stale callback

  /**
   * As written, two fetches can run at once: thread 0's `run` returns before
   * its callback is handled, so an update starts thread 1; thread 0's
   * callback then clears `fetch_thread`, and the next update starts thread 2
   * while thread 1 still runs.
   */
  lemma StaleCallbackStartsSecondFetch(a: FetchRequest, b: FetchRequest, c: FetchRequest)
    ensures var trace := [Update(a), ThreadDone(0), Update(b), DataReceived(0), Update(c)];
      && Started(Initial, trace, false) == [a, b, c]
      && Replay(Initial, trace, false).running == {1, 2}
  {
    var trace := [Update(a), ThreadDone(0), Update(b), DataReceived(0), Update(c)];
    var s1 := Next(Initial, Update(a), false);
    assert s1 == GuardState(Some(Thread(0, a)), {0}, {}, 1);
    var s2 := Next(s1, ThreadDone(0), false);
    assert s2 == GuardState(Some(Thread(0, a)), {}, {0}, 1);
    var s3 := Next(s2, Update(b), false);
    assert s3 == GuardState(Some(Thread(1, b)), {1}, {0}, 2);
    var s4 := Next(s3, DataReceived(0), false);
    assert s4 == GuardState(None, {1}, {}, 2);
    var s5 := Next(s4, Update(c), false);
    assert s5 == GuardState(Some(Thread(2, c)), {1, 2}, {}, 3);
    var t4 := trace[4..];
    assert Replay(s4, t4, false) == s5 by { assert t4[1..] == []; }
    assert Started(s4, t4, false) == [c] by { assert t4[1..] == []; }
    assert trace[3..][1..] == t4 && trace[2..][1..] == trace[3..];
    assert trace[1..][1..] == trace[2..];
    assert Started(s3, trace[3..], false) == [c];
    assert Started(s2, trace[2..], false) == [b, c];
    assert Started(s1, trace[1..], false) == [b, c];
    assert Replay(s3, trace[3..], false) == s5;
    assert Replay(s2, trace[2..], false) == s5;
    assert Replay(s1, trace[1..], false) == s5;
  }

  /** The intended guard's invariant: only the tracked thread may be running. */
  predicate OneTracked(s: GuardState) {
    && Valid(s)
    && (s.fetchThread.None? ==> s.running == {})
    && (s.fetchThread.Some? ==> s.running <= {s.fetchThread.value.id})
  }

  lemma GuardedNextKeepsOneTracked(s: GuardState, e: Event)
    requires OneTracked(s)
    ensures OneTracked(Next(s, e, true))
  {
  }

  /** With the intended callback, at most one fetch thread is ever running, over every event sequence. */
  lemma {:induction false} GuardedKeepsOneRunning(s: GuardState, events: seq<Event>)
    requires OneTracked(s)
    ensures OneTracked(Replay(s, events, true))
    ensures |Replay(s, events, true).running| <= 1
    decreases |events|
  {
    if events != [] {
      GuardedNextKeepsOneTracked(s, events[0]);
      GuardedKeepsOneRunning(Next(s, events[0], true), events[1..]);
    } else if s.fetchThread.Some? {
      var id := s.fetchThread.value.id;
      assert s.running <= {id};
      assert s.running == {} || s.running == {id};
    }
  }

  /** From the widget's initial state the intended guard never runs two fetches. */
  lemma GuardedSingleFlight(events: seq<Event>)
    ensures |Replay(Initial, events, true).running| <= 1
  {
    GuardedKeepsOneRunning(Initial, events);
  }

  /** The intended guard differs from the written one only on a callback from a thread it no longer tracks. */
  lemma GuardedDiffersOnlyOnStaleCallback(s: GuardState, e: Event)
    ensures Next(s, e, true) != Next(s, e, false) ==>
      (e.DataReceived? || e.DataError?) && e.sender in s.pending
      && s.fetchThread.Some? && s.fetchThread.value.id != e.sender
  {
  }

  // ---------------------------------------------------------------- the widget

  /** What the panel's text browser shows. */
  datatype Page = Message(text: string) | ErrorPanel(message: string) | WeatherPage(view: WeatherView)

  const InitialMessage := "Loading weather data..."

  /** The message shown when a fetch starts; `fixed4` is `f"{x:.4f}"`. */
  function LoadingMessage(latitude: real, longitude: real, fixed4: real -> string): string {
    "Loading weather data for coordinates: " + fixed4(latitude) + ", " + fixed4(longitude) + "..."
  }

  class WeatherDockWidget {
    var fetchThread: Option<Thread>
    var page: Page
    // the threads' own state, which Qt keeps
    var running: set<nat>
    var pending: set<nat>
    var nextId: nat

    function State(): GuardState
      reads this
    {
      GuardState(fetchThread, running, pending, nextId)
    }

    constructor ()
      ensures State() == Initial && page == Message(InitialMessage)
    {
      page := Message(InitialMessage);
      fetchThread := None;
      running, pending, nextId := {}, {}, 0;
    }

    /**
     * `update_weather`: does nothing while the tracked thread runs; otherwise
     * shows the loading message and starts a thread for the map centre
     * (already in WGS84) and the forecast-days setting.
     */
    method UpdateWeather(latitude: real, longitude: real, forecastDays: int, fixed4: real -> string)
      modifies this
      ensures State() == Next(old(State()), Update(FetchRequest(latitude, longitude, forecastDays)), false)
      ensures FetchRunning(old(State())) ==> page == old(page)
      ensures !FetchRunning(old(State())) ==>
        fetchThread == Some(Thread(old(nextId), FetchRequest(latitude, longitude, forecastDays)))
        && page == Message(LoadingMessage(latitude, longitude, fixed4))
    {
      if fetchThread.Some? && fetchThread.value.id in running {
        return;
      }
      page := Message(LoadingMessage(latitude, longitude, fixed4));
      fetchThread := Some(Thread(nextId, FetchRequest(latitude, longitude, forecastDays)));
      running := running + {nextId};
      nextId := nextId + 1;
    }

    /** Thread `sender`'s `run` emits its signal and returns: `isRunning()` turns false for it. */
    method ThreadFinished(sender: nat)
      modifies this
      ensures State() == Next(old(State()), ThreadDone(sender), false)
      ensures page == old(page)
    {
      if sender in running {
        running := running - {sender};
        pending := pending + {sender};
      }
    }

    /** `on_weather_data_received` for thread `sender`'s signal: draw the forecast, then allow a new fetch. */
    method OnWeatherDataReceived(sender: nat, data: WeatherData, f: Formatters, now: Option<string>, forecastDays: int)
      requires sender in pending
      modifies this
      ensures page == WeatherPage(RenderWeather(data, f, now, forecastDays))
      ensures State() == Next(old(State()), DataReceived(sender), false)
      ensures fetchThread == None
    {
      var view := DisplayWeatherHtml(data, f, now, forecastDays);
      page := WeatherPage(view);
      fetchThread := None;
      pending := pending - {sender};
    }

    /** `on_weather_data_error` for thread `sender`'s signal: show the message, then allow a new fetch. */
    method OnWeatherDataError(sender: nat, message: string)
      requires sender in pending
      modifies this
      ensures page == ErrorPanel(message)
      ensures State() == Next(old(State()), DataError(sender), false)
      ensures fetchThread == None
    {
      page := ErrorPanel(message);
      fetchThread := None;
      pending := pending - {sender};
    }

    /** Thread `sender`'s queued signal reaching the slot it is connected to: exactly one callback runs. */
    method Deliver(sender: nat, signal: Signal, f: Formatters, now: Option<string>, forecastDays: int)
      requires sender in pending
      modifies this
      ensures State() == Next(old(State()),
        if signal.WeatherDataReceived? then DataReceived(sender) else DataError(sender), false)
      ensures fetchThread == None && pending == old(pending) - {sender}
      ensures signal.WeatherDataReceived? ==> page == WeatherPage(RenderWeather(signal.data, f, now, forecastDays))
      ensures signal.WeatherDataError? ==> page == ErrorPanel(signal.message)
    {
      match signal
      case WeatherDataReceived(data) => OnWeatherDataReceived(sender, data, f, now, forecastDays);
      case WeatherDataError(message) => OnWeatherDataError(sender, message);
    }
  }

  // ---------------------------------------------------------------- the title's day count

  /**
   * As written, the forecast-days setting is read twice: when the fetch
   * starts (the request's `forecast_days`, line 84) and again when the page
   * is drawn (the title, line 171). Changing it to 3 while a 1-day fetch runs
   * drops the update, and the page then titles 1 day of rows "3 Days".
   */
  lemma TitleCanNameOtherDays(latitude: real, longitude: real, d: WeatherData, f: Formatters, now: Option<string>)
    ensures var s := Replay(Initial, [Update(FetchRequest(latitude, longitude, 1)),
                                      Update(FetchRequest(latitude, longitude, 3))], false);
      && s.fetchThread == Some(Thread(0, FetchRequest(latitude, longitude, 1)))
      && RenderWeather(d, f, now, 3).forecastTitle != ForecastTitle(s.fetchThread.value.request.forecastDays)
  {
    var r1 := FetchRequest(latitude, longitude, 1);
    var s1 := Next(Initial, Update(r1), false);
    assert s1 == GuardState(Some(Thread(0, r1)), {0}, {}, 1);
    var events := [Update(r1), Update(FetchRequest(latitude, longitude, 3))];
    assert FetchRunning(s1);
    assert Replay(s1, events[1..], false) == s1 by { assert events[1..][1..] == []; }
    TitlePluralIffSeveralDays(3);
    TitlePluralIffSeveralDays(1);
  }

  /** The evidently intended drawing: the title uses the day count of the thread whose data is shown. */
  function RenderForThread(d: WeatherData, f: Formatters, now: Option<string>, t: Thread): WeatherView {
    RenderWeather(d, f, now, t.request.forecastDays)
  }

  /** Drawn that way, the title names exactly the day count that thread's URL asked for. */
  lemma TitleMatchesFetchedDays(d: WeatherData, f: Formatters, now: Option<string>, t: Thread, floatText: real -> string)
    requires '&' !in floatText(t.request.latitude) && '&' !in floatText(t.request.longitude)
    ensures var days := Lookup(ParseUrl(RequestUrl(t.request, floatText)).value.1, "forecast_days");
      && days.Some? && ParseInt(days.value).Some?
      && RenderForThread(d, f, now, t).forecastTitle == ForecastTitle(ParseInt(days.value).value)
  {
    RequestUrlCarriesDays(t.request, floatText);
  }
}
