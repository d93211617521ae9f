/**
 * The dashboard controller as a state machine over values: how a key press,
 * a resize, a drained batch of terminal events, one receive from the metrics
 * channel, one iteration of the main loop and a whole run change the
 * controller's state. The classes in module Ui are proved to follow these
 * definitions; the lemmas here state what the controller guarantees.
 */
module Dashboard {
  import opened Window
  import opened Selection

  /** The key codes the controller distinguishes; every other key is `OtherKey`. */
  datatype Key = Char(c: char) | Left | Right | Up | Down | OtherKey

  /** A terminal event as read from the event queue. */
  datatype Event = KeyPress(key: Key) | Resize(width: nat, height: nat) | OtherEvent

  /** What one receive-with-timeout on the metrics channel produces. */
  datatype Received = Timeout | Disconnected | Got(sample: Sample)

  datatype Error = ProducerTerminated

  /** Whether the main loop goes on, was asked to quit, or stops with an error. */
  datatype Ending = Running | Quit | Failed(error: Error)

  /**
   * The controller's state: the history window, the pause flag, the metrics
   * table's cursor, and how many frames have been drawn so far.
   */
  datatype State = State(history: seq<Sample>, pause: bool, selected: Option<nat>, draws: nat)

  datatype Step = Step(state: State, ending: Ending)

  /** One iteration's input: the events pending in the terminal's queue and the channel's answer. */
  datatype Batch = Batch(events: seq<Event>, received: Received)

  const Initial: State := State([], false, None, 0)

  function Last(h: seq<Sample>): Sample
    requires h != []
  {
    h[|h| - 1]
  }

  const QuitKey: Event := KeyPress(Char('q'))
  const PauseKey: Event := KeyPress(Char('p'))

  /** Draws one frame. */
  function Draw(st: State): State {
    st.(draws := st.draws + 1)
  }

  /** Draws a frame only when there is history to show. */
  function RenderUi(st: State): (r: State)
    ensures r.history == st.history && r.pause == st.pause && r.selected == st.selected
    ensures r.draws == if st.history == [] then st.draws else st.draws + 1
  {
    if st.history != [] then Draw(st) else st
  }

  /** The keys that are acted upon: quit, pause and the four arrows. */
  predicate Recognised(k: Key) {
    k == Char('q') || k == Char('p') || k == Left || k == Right || k == Up || k == Down
  }

  /**
   * Handles one key press: 'q' asks to quit without drawing, 'p' toggles the
   * pause flag, the arrows change nothing; these last two then redraw
   * (if there is history). Every other key is ignored and draws nothing.
   */
  function HandleKey(st: State, k: Key): (r: Step)
    ensures r.ending == Quit <==> k == Char('q')
    ensures r.ending != Quit ==> r.ending == Running
    ensures r.state.history == st.history && r.state.selected == st.selected
    ensures r.state.pause == (st.pause != (k == Char('p')))
    ensures !Recognised(k) || k == Char('q') ==> r.state == st
    ensures Recognised(k) && k != Char('q') ==> r.state.draws == st.draws + (if st.history == [] then 0 else 1)
  {
    match k
    case Char(c) =>
      if c == 'q' then Step(st, Quit)
      else if c == 'p' then Step(RenderUi(st.(pause := !st.pause)), Running)
      else Step(st, Running)
    case Left => Step(RenderUi(st), Running)
    case Right => Step(RenderUi(st), Running)
    case Up => Step(RenderUi(st), Running)
    case Down => Step(RenderUi(st), Running)
    case OtherKey => Step(st, Running)
  }

  /** Handles one terminal event; a resize always draws, even with no history yet. */
  function Dispatch(st: State, e: Event): (r: Step)
    ensures r.ending == Quit <==> e == QuitKey
    ensures r.ending != Quit ==> r.ending == Running
    ensures r.state.history == st.history && r.state.selected == st.selected
    ensures e != PauseKey ==> r.state.pause == st.pause
    ensures e.KeyPress? ==> r == HandleKey(st, e.key)
    ensures e.Resize? ==> r.state == Draw(st)
    ensures e.OtherEvent? ==> r.state == st
  {
    match e
    case KeyPress(k) => HandleKey(st, k)
    case Resize(_, _) => Step(Draw(st), Running)
    case OtherEvent => Step(st, Running)
  }

  /**
   * Handles the pending events in order, stopping at the first quit request;
   * the events after it are never handled.
   */
  function Drain(st: State, es: seq<Event>): (r: Step)
    ensures r.ending == Quit <==> QuitKey in es
    ensures r.ending != Quit ==> r.ending == Running
    ensures r.state.history == st.history && r.state.selected == st.selected
    ensures PauseKey !in es ==> r.state.pause == st.pause
    decreases |es|
  {
    if es == [] then Step(st, Running)
    else
      var p := Drain(st, es[..|es| - 1]);
      assert es == es[..|es| - 1] + [es[|es| - 1]];
      if p.ending == Quit then p else Dispatch(p.state, es[|es| - 1])
  }

  /**
   * Handles the answer of the metrics channel. A closed channel is an error
   * and changes nothing; a timeout changes nothing; a new sample is appended
   * to the history, stale samples are evicted, the cursor is clamped to the
   * new sample's root metrics and a frame is drawn.
   */
  function Poll(st: State, rcv: Received): (r: Step)
    ensures r.ending.Failed? <==> rcv == Disconnected
    ensures !r.ending.Failed? ==> r.ending == Running
    ensures !rcv.Got? ==> r.state == st
    ensures rcv.Got? ==>
      && r.state.history == Insert(st.history, rcv.sample)
      && r.state.selected == Clamp(st.selected, rcv.sample.rootCount)
      && r.state.pause == st.pause
      && r.state.draws == st.draws + 1
  {
    match rcv
    case Disconnected => Step(st, Failed(ProducerTerminated))
    case Timeout => Step(st, Running)
    case Got(s) =>
      var h := Insert(st.history, s);
      Step(RenderUi(st.(history := h, selected := Clamp(st.selected, Last(h).rootCount))), Running)
  }

  /** Proof aid for Ui.App.HandlePoll: the `Got` branch of `Poll` as a closed formula. */
  lemma PollGot(st: State, s: Sample)
    ensures Poll(st, Got(s)) == Step(Draw(st.(history := Insert(st.history, s), selected := Clamp(st.selected, s.rootCount))), Running)
  {
  }

  /**
   * One iteration of the main loop: drain the pending events; unless asked to
   * quit, either sleep (when paused, without looking at the channel) or
   * handle the channel's answer.
   */
  function Iterate(st: State, b: Batch): (r: Step)
    ensures r.ending == Quit <==> QuitKey in b.events
    ensures r.ending.Failed? ==> b.received == Disconnected
  {
    var d := Drain(st, b.events);
    if d.ending == Quit || d.state.pause then d
    else Poll(d.state, b.received)
  }

  /**
   * The main loop over a finite sequence of iterations, stopping at the first
   * quit request or error; `Running` means the input ran out first.
   */
  function Run(st: State, bs: seq<Batch>): (r: Step)
    ensures r.ending.Failed? ==> exists b :: b in bs && b.received == Disconnected
    ensures r.ending == Quit ==> exists b :: b in bs && QuitKey in b.events
    decreases |bs|
  {
    if bs == [] then Step(st, Running)
    else
      var p := Run(st, bs[..|bs| - 1]);
      assert bs[|bs| - 1] in bs;
      assert forall b :: b in bs[..|bs| - 1] ==> b in bs;
      if p.ending != Running then p else Iterate(p.state, bs[|bs| - 1])
  }

  /** Proof aid for Ui.App.Run: one more iteration at the end of a run. */
  lemma RunSnoc(st: State, bs: seq<Batch>, b: Batch)
    ensures var p := Run(st, bs);
      Run(st, bs + [b]) == if p.ending != Running then p else Iterate(p.state, b)
  {
    assert (bs + [b])[..|bs|] == bs;
  }

  /** Proof aid for Ui.App.Tick: one iteration in terms of the drain's outcome. */
  lemma IterateAfterDrain(st: State, b: Batch)
    ensures var d := Drain(st, b.events);
      Iterate(st, b) == if d.ending == Quit || d.state.pause then d else Poll(d.state, b.received)
  {
  }

  // ---------------------------------------------------------------------------
  // Properties of the controller
  // ---------------------------------------------------------------------------

  /**
   * An iteration fails exactly when no quit was requested, the dashboard is
   * not paused after the drain, and the metrics channel turns out closed.
   */
  lemma IterateFails(st: State, b: Batch)
    ensures Iterate(st, b).ending.Failed? <==>
      QuitKey !in b.events && !Drain(st, b.events).state.pause && b.received == Disconnected
  {
  }

  /**
   * A quit request ends the drain: handling the events after it would change
   * nothing, and neither the quit key itself nor anything before it is undone.
   */
  lemma {:induction false} DrainStopsAtQuit(st: State, es: seq<Event>, i: nat)
    requires i < |es| && es[i] == QuitKey
    ensures Drain(st, es) == Drain(st, es[..i + 1])
    ensures Drain(st, es) == Step(Drain(st, es[..i]).state, Quit)
    decreases |es|
  {
    assert es[..i + 1][..i] == es[..i];
    if |es| > i + 1 {
      assert es[..|es| - 1][..i + 1] == es[..i + 1];
      DrainStopsAtQuit(st, es[..|es| - 1], i);
    }
  }

  /** 'q' quits at once whether or not the dashboard is paused, leaving the state as it was. */
  lemma QuitFirst(st: State, rest: seq<Event>, rcv: Received)
    ensures Iterate(st, Batch([QuitKey] + rest, rcv)) == Step(st, Quit)
  {
    var es := [QuitKey] + rest;
    DrainStopsAtQuit(st, es, 0);
    assert es[..0] == [];
  }

  /**
   * Before the first sample arrives, handled keys do not draw: only resizes
   * do, one frame each.
   */
  lemma {:induction false} DrawsWithoutHistory(st: State, es: seq<Event>)
    requires st.history == []
    requires QuitKey !in es
    ensures Drain(st, es).state.draws == st.draws + Resizes(es)
    decreases |es|
  {
    if es != [] {
      var init := es[..|es| - 1];
      assert es == init + [es[|es| - 1]];
      assert QuitKey !in init;
      DrawsWithoutHistory(st, init);
      ResizesAppend(init, es[|es| - 1]);
    }
  }

  /** The number of resize events in `es`. */
  function Resizes(es: seq<Event>): nat {
    if es == [] then 0 else (if es[0].Resize? then 1 else 0) + Resizes(es[1..])
  }

  lemma {:induction false} ResizesAppend(es: seq<Event>, e: Event)
    ensures Resizes(es + [e]) == Resizes(es) + (if e.Resize? then 1 else 0)
    decreases |es|
  {
    if es != [] {
      assert (es + [e])[1..] == es[1..] + [e];
      ResizesAppend(es[1..], e);
    }
  }

  /**
   * While the dashboard stays paused, an iteration never consults the
   * metrics channel: whatever the channel would answer, the outcome is the
   * same, and the history and cursor do not change.
   */
  lemma PausedIgnoresChannel(st: State, es: seq<Event>, r1: Received, r2: Received)
    requires Drain(st, es).state.pause
    ensures Iterate(st, Batch(es, r1)) == Iterate(st, Batch(es, r2))
    ensures Iterate(st, Batch(es, r1)).state.history == st.history
    ensures Iterate(st, Batch(es, r1)).state.selected == st.selected
  {
  }

  /**
   * A paused dashboard whose user never presses 'p' keeps its history and its
   * cursor for the whole run and never fails, whatever the producer sends.
   */
  lemma {:induction false} PausedRunFrozen(st: State, bs: seq<Batch>)
    requires st.pause
    requires forall b :: b in bs ==> PauseKey !in b.events
    ensures Run(st, bs).state.history == st.history
    ensures Run(st, bs).state.selected == st.selected
    ensures Run(st, bs).state.pause
    ensures !Run(st, bs).ending.Failed?
    decreases |bs|
  {
    if bs != [] {
      var init := bs[..|bs| - 1];
      assert forall b :: b in init ==> b in bs;
      PausedRunFrozen(st, init);
      assert bs[|bs| - 1] in bs;
    }
  }

  /** Once the loop has quit or failed, further input is never looked at. */
  lemma {:induction false} RunStopsAtEnding(st: State, bs: seq<Batch>, more: seq<Batch>)
    requires Run(st, bs).ending != Running
    ensures Run(st, bs + more) == Run(st, bs)
    decreases |more|
  {
    if more == [] {
      assert bs + more == bs;
    } else {
      var init := more[..|more| - 1];
      assert (bs + more)[..|bs + more| - 1] == bs + init;
      RunStopsAtEnding(st, bs, init);
    }
  }

  /**
   * The controller's invariant: with no history there is no selection; with
   * history, the cursor is in range for the newest sample's root metrics and
   * the oldest sample kept is at most the chart duration older than the newest.
   */
  ghost predicate Consistent(st: State) {
    if st.history == [] then st.selected == None
    else InRange(st.selected, Last(st.history).rootCount) && Retained(Last(st.history).ts, st.history[0])
  }

  /** Every run from a consistent state, the initial one included, ends in a consistent state. */
  lemma {:induction false} RunConsistent(st: State, bs: seq<Batch>)
    requires Consistent(st)
    ensures Consistent(Run(st, bs).state)
    decreases |bs|
  {
    if bs != [] {
      RunConsistent(st, bs[..|bs| - 1]);
    }
  }

  lemma InitialConsistent()
    ensures Consistent(Initial) && Initial.history == [] && !Initial.pause
  {
  }

  /** The channel delivers samples in timestamp order, none older than the newest one of `h`. */
  ghost predicate OrderedFeed(h: seq<Sample>, bs: seq<Batch>) {
    && (forall j, k :: 0 <= j < k < |bs| && bs[j].received.Got? && bs[k].received.Got? ==>
          bs[j].received.sample.ts <= bs[k].received.sample.ts)
    && (forall k :: 0 <= k < |bs| && bs[k].received.Got? ==> CanFollow(h, bs[k].received.sample))
  }

  /** Every sample of `h` is at most the chart duration older than the newest one. */
  ghost predicate WithinWindow(h: seq<Sample>) {
    forall x :: x in h ==> Retained(Last(h).ts, x)
  }

  /**
   * One iteration keeps the window sorted and within the chart duration when
   * the channel's sample, if any, is no older than the newest one kept; the
   * newest sample afterwards is the old newest one or the sample received.
   */
  lemma IterateKeepsWindow(st: State, b: Batch)
    requires Sorted(st.history) && (st.history != [] ==> WithinWindow(st.history))
    requires b.received.Got? ==> CanFollow(st.history, b.received.sample)
    ensures var h := Iterate(st, b).state.history;
      && Sorted(h)
      && (h != [] ==> WithinWindow(h))
      && (h != [] ==> (st.history != [] && Last(h) == Last(st.history)) || b.received == Got(Last(h)))
  {
    var d := Drain(st, b.events);
    if d.ending != Quit && !d.state.pause && b.received.Got? {
      InsertSorted(st.history, b.received.sample);
      InsertSortedKeepsFreshOnly(st.history, b.received.sample);
    }
  }

  /**
   * With the producer's ordering, a run keeps the history sorted and every
   * sample in it within the chart duration of the newest; the newest sample
   * is either the one the run started with or one the channel delivered.
   */
  lemma {:induction false} RunKeepsWindow(st: State, bs: seq<Batch>)
    requires Sorted(st.history) && (st.history != [] ==> WithinWindow(st.history))
    requires OrderedFeed(st.history, bs)
    ensures var h := Run(st, bs).state.history;
      && Sorted(h)
      && (h != [] ==> WithinWindow(h))
      && (h != [] ==> (st.history != [] && Last(h) == Last(st.history))
                      || exists k :: 0 <= k < |bs| && bs[k].received == Got(Last(h)))
    decreases |bs|
  {
    if bs != [] {
      var n := |bs| - 1;
      var init := bs[..n];
      assert OrderedFeed(st.history, init) by {
        forall k | 0 <= k < |init| ensures init[k] == bs[k] { }
      }
      RunKeepsWindow(st, init);
      var p := Run(st, init);
      if p.ending == Running {
        var h := p.state.history;
        assert bs[n].received.Got? ==> CanFollow(h, bs[n].received.sample) by {
          if bs[n].received.Got? && h != [] && !(st.history != [] && Last(h) == Last(st.history)) {
            var k :| 0 <= k < |init| && init[k].received == Got(Last(h));
            assert bs[k] == init[k];
          }
        }
        IterateKeepsWindow(p.state, bs[n]);
        var h' := Iterate(p.state, bs[n]).state.history;
        if h' != [] {
          if h != [] && Last(h') == Last(h) {
            if !(st.history != [] && Last(h) == Last(st.history)) {
              var k :| 0 <= k < |init| && init[k].received == Got(Last(h));
              assert bs[k] == init[k];
            }
          } else {
            assert bs[n].received == Got(Last(h'));
          }
        }
      }
    }
  }
}
