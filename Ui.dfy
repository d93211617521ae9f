/**
 * The dashboard's controller objects: `UiState`, which owns the history
 * window, the pause flag and the metrics table's cursor, and `App`, which owns
 * the terminal (seen here only through the number of frames drawn on it) and
 * runs the main loop. Each method is proved to change the state exactly as
 * a definition says: `PushAndEvict` as `Window.Insert`,
 * `EnsureTableIndicesAreInRanges` as `Selection.Clamp`, and the methods of
 * `App` as the matching definitions in module Dashboard.
 */
module Ui {
  import opened Window
  import opened Selection
  import opened Dashboard

  class UiState {
    var pause: bool
    var history: seq<Sample>
    /** The selected row of the metrics table, if any. */
    var selected: Option<nat>

    /** Not paused, no history, no selection. */
    constructor ()
      ensures !pause && history == [] && selected == None
    {
      pause := false;
      history := [];
      selected := None;
    }

    /** The newest sample; only ever asked for once a sample has arrived. */
    function LatestMetrics(): (s: Sample)
      reads this`history
      requires history != []
      ensures s == history[|history| - 1]
      ensures s in history
      ensures Sorted(history) ==> forall x :: x in history ==> x.ts <= s.ts
    {
      history[|history| - 1]
    }

    /**
     * Appends a new sample at the back, then pops samples from the front until
     * one is at most the chart duration older than the new sample; that one is
     * pushed back to the front.
     */
    method PushAndEvict(metrics: Sample)
      modifies this`history
      ensures history == Insert(old(history), metrics)
    {
      var timestamp := metrics.ts;
      history := history + [metrics];
      while history != []
        invariant Evict(history, timestamp) == Insert(old(history), metrics)
        decreases |history|
      {
        var item := history[0];
        history := history[1..];
        if Age(timestamp, item.ts) <= ChartDuration {
          history := [item] + history;
          break;
        }
      }
    }

    /**
     * Re-validates the metrics table's cursor against the newest sample's
     * number of root metrics.
     */
    method EnsureTableIndicesAreInRanges()
      requires history != []
      modifies this`selected
      ensures selected == Clamp(old(selected), LatestMetrics().rootCount)
      ensures InRange(selected, LatestMetrics().rootCount)
    {
      var n := LatestMetrics().rootCount;
      match CheckedPred(n)
      case Some(max) =>
        selected := Some(Min(selected.UnwrapOr(0), max));
      case None =>
        selected := None;
    }
  }

  class App {
    const ui: UiState
    /** Frames drawn on the terminal so far. */
    ghost var draws: nat

    ghost function View(): State
      reads this, ui
    {
      State(ui.history, ui.pause, ui.selected, draws)
    }

    constructor ()
      ensures fresh(ui)
      ensures View() == Initial
    {
      ui := new UiState();
      draws := 0;
    }

    /** Draws a frame, unless no sample has arrived yet. */
    method RenderUi()
      modifies this`draws
      ensures View() == Dashboard.RenderUi(old(View()))
    {
      if ui.history != [] {
        draws := draws + 1;
      }
    }

    /** Handles one key press; `quit` is true when the user asked to quit. */
    method HandleKeyEvent(k: Key) returns (quit: bool)
      modifies this, ui
      ensures HandleKey(old(View()), k) == Step(View(), if quit then Quit else Running)
    {
      match k {
        case Char(c) =>
          if c == 'q' {
            return true;
          } else if c == 'p' {
            ui.pause := !ui.pause;
          } else {
            return false;
          }
        case Left =>
        case Right =>
        case Up =>
        case Down =>
        case OtherKey =>
          return false;
      }
      RenderUi();
      return false;
    }

    /**
     * Handles the terminal events pending right now, in order, returning as
     * soon as one of them asks to quit.
     */
    method HandleEvent(events: seq<Event>) returns (quit: bool)
      modifies this, ui
      ensures Drain(old(View()), events) == Step(View(), if quit then Quit else Running)
    {
      var i := 0;
      while i < |events|
        invariant i <= |events|
        invariant Drain(old(View()), events[..i]) == Step(View(), Running)
      {
        assert events[..i + 1][..i] == events[..i];
        match events[i] {
          case KeyPress(k) =>
            quit := HandleKeyEvent(k);
            if quit {
              DrainStopsAtQuit(old(View()), events, i);
              return;
            }
          case Resize(_, _) =>
            draws := draws + 1;
          case OtherEvent =>
        }
        i := i + 1;
      }
      assert events[..i] == events;
      return false;
    }

    /**
     * Takes the channel's answer: an error if the producer is gone, nothing on
     * a timeout, otherwise appends the sample, evicts from the front every
     * sample more than the chart duration older than it, re-validates the
     * cursor and draws.
     */
    method HandlePoll(rcv: Received) returns (ending: Ending)
      modifies this, ui
      ensures Poll(old(View()), rcv) == Step(View(), ending)
    {
      match rcv {
        case Disconnected =>
          return Failed(ProducerTerminated);
        case Timeout =>
          return Running;
        case Got(metrics) =>
          PollGot(View(), metrics);
          ghost var st := View();
          ui.PushAndEvict(metrics);
          assert ui.history == Insert(st.history, metrics);
          assert ui.pause == st.pause && ui.selected == st.selected && draws == st.draws;
          assert ui.LatestMetrics() == metrics;
          ui.EnsureTableIndicesAreInRanges();
          // Restating the whole state after each call keeps this proof cheap.
          assert ui.selected == Clamp(st.selected, metrics.rootCount);
          assert ui.history == Insert(st.history, metrics);
          assert ui.pause == st.pause && draws == st.draws;
          RenderUi();
          assert draws == st.draws + 1;
          return Running;
      }
    }

    /**
     * One pass of the main loop: drain the terminal's events, then, unless a
     * quit was requested, sleep if paused or take the channel's answer.
     */
    method Tick(b: Batch) returns (ending: Ending)
      modifies this, ui
      ensures Iterate(old(View()), b) == Step(View(), ending)
    {
      IterateAfterDrain(View(), b);
      var quit := HandleEvent(b.events);
      if quit {
        return Quit;
      }
      if ui.pause {
        return Running;
      }
      ending := HandlePoll(b.received);
    }

    /**
     * The main loop over the given iterations; stops at the first quit request
     * or error.
     */
    method Run(batches: seq<Batch>) returns (ending: Ending)
      modifies this, ui
      ensures Dashboard.Run(old(View()), batches) == Step(View(), ending)
    {
      ghost var st := View();
      var i := 0;
      while i < |batches|
        invariant i <= |batches|
        invariant Dashboard.Run(st, batches[..i]) == Step(View(), Running)
      {
        assert batches[..i + 1] == batches[..i] + [batches[i]];
        RunSnoc(st, batches[..i], batches[i]);
        ending := Tick(batches[i]);
        if ending != Running {
          assert batches[..i + 1] + batches[i + 1..] == batches;
          RunStopsAtEnding(st, batches[..i + 1], batches[i + 1..]);
          return;
        }
        i := i + 1;
      }
      assert batches[..i] == batches;
      return Running;
    }
  }
}
