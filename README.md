# erldash dashboard controller, modelled in Dafny

erldash is a terminal dashboard for the runtime metrics of an Erlang node. This
project models its controller, `src/ui.rs`. The controller handles the main loop, the
sliding history of metrics samples, the pause flag, the metrics table's cursor,
and the rule for when a frame is drawn. The proofs state what the controller
guarantees about that state.

- `Window.dfy` (module `Window`): a `Sample` has a timestamp in milliseconds and a
  root-metrics count. The chart duration is `60` seconds. A sample's age is counted
  in whole, truncated seconds against the newest sample. `Evict` and `Insert`
  define the window. The lemmas prove that eviction drops only a prefix of stale
  samples. When samples arrive in timestamp order, every kept sample is within
  the chart duration of the newest, and eviction is the same as filtering.
- `Selection.dfy` (module `Selection`): the cursor is an `Option<nat>`. `Clamp`
  re-validates it against a row count, using an explicit unsigned `checked_sub(1)`.
- `Dashboard.dfy` (module `Dashboard`): the controller as a state machine over a
  `State` value. The state holds the history, the pause flag, the cursor and the
  number of frames drawn. The module defines one key press, one terminal event,
  a drain of the pending events, one receive from the metrics channel, one loop
  iteration and a run. Its lemmas cover:
  - quitting;
  - pausing, and the fact that a paused iteration never consults the channel;
  - the redraw guard and its asymmetry: a resize always draws, but keys draw only
    once there is history;
  - the controller invariant over whole runs.
- `Ui.dfy` (module `Ui`): the classes `UiState` and `App`. Their fields are updated
  in place, as in the source. The eviction loop pops from the front and pushes
  the first young-enough sample back. `PushAndEvict` is proved equal to
  `Window.Insert` and `EnsureTableIndicesAreInRanges` to `Selection.Clamp`. Each
  method of `App` is proved to leave exactly the state that the matching
  `Dashboard` definition gives.

Inputs from outside the program are parameters:
- the terminal events pending at a moment are a `seq<Event>`;
- the channel's answer is a `Received` (`Timeout`, `Disconnected` or
  `Got(sample)`);
- a run is a finite sequence of iterations (`Batch`).

The terminal is seen only through the ghost count of frames drawn.

## Notes on the code

- A cursor with no selection becomes row 0 once the newest sample has rows,
  because the clamp starts from `unwrap_or(0)` (src/ui.rs:269).
- Ages are truncated to whole seconds before they are compared with 60. So the
  front of the window can be less than 61 seconds older than the newest sample
  (up to 60.999 s at the model's millisecond resolution).
- The eviction loop bounds only the gap between the newest sample and the front
  of the window. With ordered timestamps, that bound covers every sample in the
  window (`Window.InsertSortedKeepsFreshOnly`).

## Model

| member | source | states |
|---|---|---|
| Window.Age | src/ui.rs:64 | the age is the elapsed time truncated to whole seconds (`secs*1000 <= now-ts < (secs+1)*1000`); a sample newer than `now` has age 0 (saturating subtraction) |
| Window.Evict | src/ui.rs:63-70 | the result is a suffix of the history; every sample dropped from the front is older than 60 s; the first sample kept is at most 60 s old |
| Window.Insert | src/ui.rs:61-70 | after a sample arrives the history is non-empty and ends with that sample; its front is at most 60 s older than it; the result is a suffix of the old history followed by the sample, in order |
| Window.SortedRetainedFrom | src/ui.rs:63-68 | in time order, once one sample passes the 60 s test, every later sample does too, which is why stopping at the first kept sample is enough |
| Window.EvictSortedIsFresh | src/ui.rs:63-70 | on a sorted history, popping from the front agrees with an independent definition: keep exactly the samples at most 60 s old |
| Window.AllRetainedFresh | src/ui.rs:63-70 | helper for `Window.EvictSortedIsFresh`: filtering a history whose samples are all young enough changes nothing |
| Window.AppendSorted | src/ui.rs:62 | helper for `Window.InsertSorted`: appending a sample no older than the newest keeps the history sorted |
| Window.SuffixSorted | src/ui.rs:63-70 | helper for `Window.InsertSorted`: dropping a prefix keeps the history sorted |
| Window.InsertSorted | src/ui.rs:61-70 | with in-order arrival, the window stays sorted by timestamp |
| Window.InsertSortedKeepsFreshOnly | src/ui.rs:61-70 | with in-order arrival, every sample left in the window is at most 60 s older than the new one, and no sample that young is evicted |
| Window.BoundaryScenario | src/ui.rs:64-65 | inserting samples at 0, 10, 20 and 70 s leaves 10, 20 and 70 s; the 60 s boundary is kept |
| Selection.CheckedPred | src/ui.rs:268 | `checked_sub(1)` is absent exactly for 0 and otherwise the predecessor |
| Selection.Clamp | src/ui.rs:266-273 | the cursor is absent exactly when the row count is 0, and otherwise below the row count; an in-range cursor is unchanged; an out-of-range one moves to the last row; a missing one becomes row 0 |
| Selection.ClampIdempotent | src/ui.rs:269-270 | clamping an in-range cursor changes nothing, so clamping twice is clamping once |
| Selection.ShrinkScenario | src/ui.rs:269 | row 4 selected and a new count of 2 gives row 1 |
| Dashboard.RenderUi | src/ui.rs:115-120 | a frame is drawn exactly when there is history; nothing else changes |
| Dashboard.HandleKey | src/ui.rs:95-113 | quit is requested exactly for 'q'; 'p' and only 'p' flips the pause flag; no key touches history or cursor; 'q' and unrecognised keys change nothing and draw nothing; 'p' and the arrows draw one frame exactly when there is history |
| Dashboard.Dispatch | src/ui.rs:80-90 | a resize always draws one frame, with or without history; no event changes history or cursor; every event other than the 'p' key leaves the pause flag alone; only the 'q' key asks to quit; a key press is handled exactly as `HandleKey` handles it; any other event changes nothing and draws nothing |
| Dashboard.Drain | src/ui.rs:78-93 | draining pending events asks to quit exactly when a 'q' key is among them; it never changes history or cursor; without a 'p' key the pause flag is kept |
| Dashboard.Poll | src/ui.rs:53-76 | a closed channel is exactly the error case and changes nothing; a timeout changes nothing; a sample is inserted into the window, the cursor is clamped against that sample's root count, and one frame is drawn |
| Dashboard.Iterate | src/ui.rs:36-45 | an iteration ends in quit exactly when a 'q' key was pending, and fails only on a closed channel |
| Dashboard.IterateFails | src/ui.rs:37-58 | an iteration fails exactly when no 'q' was pending, the dashboard is not paused after the drain, and the channel is closed |
| Dashboard.Run | src/ui.rs:35-47 | a run fails only if some iteration met a closed channel, and quits only if some iteration had a 'q' key |
| Dashboard.DrainStopsAtQuit | src/ui.rs:79-84 | events after the first 'q' are never handled: draining all events equals draining up to the 'q', and the 'q' itself changes no state |
| Dashboard.QuitFirst | src/ui.rs:36-41 | a leading 'q' key (the first pending event) quits at once, paused or not, leaving the state as it was |
| Dashboard.DrawsWithoutHistory | src/ui.rs:86-118 | in a drain with no 'q' key, before any sample has arrived, keys draw nothing and each resize draws exactly one frame |
| Dashboard.ResizesAppend | src/ui.rs:86-87 | helper for `Dashboard.DrawsWithoutHistory`: counting resizes distributes over appending one event |
| Dashboard.PausedIgnoresChannel | src/ui.rs:40-44 | when the drain leaves the dashboard paused, the iteration's outcome does not depend on the channel's answer, and history and cursor are unchanged |
| Dashboard.PausedRunFrozen | src/ui.rs:36-45 | a paused run with no 'p' key keeps history and cursor for its whole length, stays paused and never fails, whatever the producer sends |
| Dashboard.RunStopsAtEnding | src/ui.rs:37-43 | once the loop has quit or failed, later input is never looked at |
| Dashboard.RunConsistent | src/ui.rs:62-72 | every run keeps the invariant: no history means no selection; otherwise the cursor is in range for the newest sample and the front is within 60 s of it |
| Dashboard.InitialConsistent | src/ui.rs:162-170 | the initial state (empty history, not paused, no selection) satisfies the invariant |
| Dashboard.IterateKeepsWindow | src/ui.rs:40-44 | one loop iteration keeps the window sorted and within 60 s of the newest sample, provided the received sample is no older than the newest one kept; the newest sample afterwards is the old newest one or the sample received |
| Dashboard.RunKeepsWindow | src/ui.rs:61-70 | with samples delivered in timestamp order, a whole run keeps the window sorted and every sample within 60 s of the newest |
| Ui.UiState.constructor | src/ui.rs:162-170 | a new state is not paused, has no history and no selection |
| Ui.UiState.LatestMetrics | src/ui.rs:262-264 | the latest sample is the back of the history, so in a sorted history it has the largest timestamp; it is only asked for once history is non-empty |
| Ui.UiState.PushAndEvict | src/ui.rs:61-70 | the in-place push-back and pop-front/push-front loop leaves exactly `Insert(old history, sample)` |
| Ui.UiState.EnsureTableIndicesAreInRanges | src/ui.rs:266-273 | the cursor becomes `Clamp` of its old value against the newest sample's root count, so it is in range |
| Ui.App.constructor | src/ui.rs:25-33 | a new controller starts in the initial state with nothing drawn |
| Ui.App.RenderUi | src/ui.rs:115-120 | a frame is drawn exactly when history is non-empty |
| Ui.App.HandleKeyEvent | src/ui.rs:95-113 | the new state and the quit answer are those of `HandleKey` |
| Ui.App.HandleEvent | src/ui.rs:78-93 | the new state and the quit answer are those of `Drain` over the pending events |
| Ui.App.HandlePoll | src/ui.rs:53-76 | the new state and the result are those of `Poll` |
| Ui.App.Tick | src/ui.rs:37-44 | the new state and how one loop pass ended are those of `Iterate` |
| Ui.App.Run | src/ui.rs:35-47 | the final state and how the loop ended are those of `Run` over the iterations |

## Left out

- Terminal setup and teardown (`setup_terminal`, `teardown_terminal`, `Drop for App`, src/ui.rs:122-150) are raw-mode and alternate-screen I/O. In the code, a failed teardown is logged as a warning and never propagated.
- Rendering and layout (`render`, `render_*`, `make_block`, src/ui.rs:172-260) are calls into the widget library. A draw is modelled only as one more frame in the ghost `draws` count.
- The system version shown in the header (`system_version`) is used only by rendering.
- Time: `poll_timeout`, the 10 ms sleep while paused and the blocking receive are not modelled. A paused iteration simply does nothing, and the channel's answer is an input.
- I/O errors of `crossterm::event::poll`/`read` and of `terminal.draw` are not modelled. The `?` on those calls can end the loop, but in the model reading events and drawing never fail.
- Logging calls are left out.
- `Metrics` and its `root_metrics_count()` are not part of this model. A sample is a timestamp in milliseconds and an opaque count; the code's `Duration` has nanosecond resolution, which the model does not capture. Timestamp subtraction is modelled as saturating at zero, which is what Rust's `Instant` does today; the type of the field is not visible here.
- Ui.UiState.LatestMetrics: requires a non-empty history instead of modelling the `expect` panic (src/ui.rs:263). Its only caller, `EnsureTableIndicesAreInRanges`, is proved to run only right after a sample has been inserted.
- Dashboard.Run: models a finite run. `Running` means the given iterations ran out, whereas the real loop goes on until a quit or an error.
- Ui.App.Run: takes the same finite sequence of iterations as `Dashboard.Run`.
- The commented-out second table cursor (src/ui.rs:275-282) does not exist in the code and is not modelled.
