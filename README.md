# Key dispatch and learn-session state of lsf_tui

This project models in Dafny the event dispatchers of lsf_tui, a terminal application for browsing a vocabulary and practising it.

- **`MainLoop`** (`src/main.rs`) models the dictionary-only program. `refresh` takes at most one event. It maps `q` to `Stop`, `j`/`k`/`h`/`l` to calls on the selection, and `1`/`2` to a tab index. The `main` loop repeats this until `Stop`.
- **`TuiMode`** (`src/tui_mode.rs`) models the two-tab program. `update` routes a key press by tab index: tab 0 goes to `input_tab_one` (the dictionary) and tab 1 to `input_tab_two` (learning). Any other tab index reaches the `panic!`. The loop of `tui_routine` keeps a `swap` flag. It starts a new learn session (timer, drawn words, word index, help flag) whenever tab 1 is drawn right after tab 0.

Each handler that works through `&mut` references is a method of a class with those fields:
- `MainLoop.App` holds the locals of `main`.
- `TuiMode.Tui` holds the locals of `tui_routine`.

Each method is proved against a pure function that says what one call does:
- `RefreshEffect` for `App.Refresh`;
- `BrowseKey` for `Tui.InputTabOne`;
- `LearnKey` for `Tui.InputTabTwo`;
- `UpdateStep` for `Tui.Update`;
- `Redrawn` for the loop body after `Continue` (`Tui.Redraw`);
- `Iteration` for one pass of the loop body (`Tui.Iterate`), and its fold `RoutineAfter` for the whole loop (`Tui.TuiRoutine`);
- `UpdateMethod` for the selection method one event calls, and its fold `RoutineMethods` for the methods the whole loop calls. The fold asks `RoutineAfter` which tab each event meets.

The properties are lemmas and `ensures` over those functions. The loops carry the invariants: the tab index stays 0 or 1, the word index stays below `WORDS_LEARN_SIZE`, and the drawn words are a sample of the vocabulary.

A Rust panic is an `Outcome` value, `Panicked(message)`. There are two panics:
- the `panic!` of `update` on an invalid tab index;
- the slice-index panic of `categories[get_categorie_index()]` on key `l`.

The model proves that the tab panic cannot happen in the loop. The index panic cannot be ruled out: it depends on the selection, which this model does not describe.

The module `selection` (type `Selection`) is not part of this model. Its class keeps the cursor's category index, word index and focus, of which the dispatchers read only the category index, and a ghost log of the calls made on it (`calls`). Each of its methods changes that object only and appends itself to the log. Its new position is left unspecified, so nothing is said about clamping. `WORDS_LEARN_SIZE` comes from module `draw`, which is not part of this model either. It is a constant of unknown value of at least one, and every proof holds for all such values.

A few facts about the code shape what the model contains:
- In `input_tab_two`, `h` only toggles `help`. `src/main.rs` and `src/tui_mode.rs` have no `v` key, no per-word Next/Current/Valided/Failed tags, no `done` flag and no frozen elapsed time.
- `n` stops at the last index. It does not complete a session.
- Switching tabs does not reset the selection.
- `input_tab_one` ignores `1`, and `input_tab_two` ignores `2`, `j`, `k` and `l`.
- The loop's `swap` always equals the tab drawn last, which is an invariant of `TuiMode.Tui.Valid`. So every entry into tab 1 from tab 0 starts a fresh session.

## Model

| member | source | states |
|---|---|---|
| `MainLoop.RefreshTab` | src/main.rs:81-86 | `1` selects tab 0 and `2` selects tab 1. No other event changes the tab. A tab in {0,1} stays in {0,1}. |
| `MainLoop.RefreshMethod` | src/main.rs:67-79 | Each selection method has exactly one key: `j` down, `k` up, `h` focus_left, `l` focus_right. Every other event calls none. |
| `MainLoop.RefreshEffect` | src/main.rs:55-89 | Panics exactly on `l` with an out-of-range category index. Answers `Stop` exactly on `q`. Calls on the selection exactly the method bound to the key, and `l` passes the word count of the selected category. A tick or no event gives `Continue` with the state unchanged. |
| `MainLoop.RefreshIgnoresTab` | src/main.rs:62-88 | Which selection method is called, and the answer, are the same whatever the current tab. |
| `MainLoop.TabAfterInRange` | src/main.rs:81-86 | Over any sequence of events, a tab index that starts in {0,1} stays in {0,1}. |
| `MainLoop.TicksChangeNothing` | src/main.rs:61 | A sequence of ticks and empty receives changes neither the tab index nor the selection. |
| `MainLoop.App.constructor` | src/main.rs:37-38 | Starts on tab 0 with a fresh selection that has not been called. |
| `MainLoop.App.Refresh` | src/main.rs:55-158 | The new tab index, the answer or panic, and the selection call log are exactly those given by `RefreshEffect`. Nothing else changes, and a panic leaves everything unchanged. |
| `MainLoop.App.Run` | src/main.rs:40-46 | Returns how many events were handled. The loop ends only on `q` (`Stop`) or on the `l` index panic, at the event right after the handled ones, and otherwise runs through every event. No handled event was `q`. The final tab is that of the handled events, which is 0 or 1. The selection was called with exactly the methods of the handled keys, in order. |
| `Selection.Selection.constructor` | src/main.rs:37 | A new selection for the given category count has an empty call log. |
| `Selection.Selection.CategoryIndex` | src/tui_mode.rs:135 | `get_categorie_index()` returns the selection's current category index, which decides whether `l` panics. |
| `Selection.Selection.Down` | src/main.rs:68-70 | Changes only the selection and logs one `down` call. |
| `Selection.Selection.Up` | src/main.rs:71-73 | Changes only the selection and logs one `up` call. |
| `Selection.Selection.FocusLeft` | src/main.rs:74-76 | Changes only the selection and logs one `focus_left` call. |
| `Selection.Selection.FocusRight` | src/main.rs:77-79 | Changes only the selection and logs one `focus_right` call with its word count. |
| `TuiMode.LearnKey` | src/tui_mode.rs:144-167 | Answers `Stop` exactly on `q`. The tab changes only on `1`, to 0. The word index changes only on `n`, by exactly one, and then `help` is cleared. `n` at the last index changes nothing. `h` negates `help` and nothing else. A valid tab and an index below `WORDS_LEARN_SIZE` stay valid. |
| `TuiMode.HelpTwiceRestores` | src/tui_mode.rs:160-162 | Pressing `h` twice in the learn tab restores the learn state. |
| `TuiMode.NextPressesReachLast` | src/tui_mode.rs:153-158 | After `k` presses of `n`, the word index is min(start + k, `WORDS_LEARN_SIZE` - 1) and the tab is unchanged. `help` is cleared if the index moved at all. |
| `TuiMode.BrowseKey` | src/tui_mode.rs:116-142 | Panics exactly on `l` with an out-of-range category index. Answers `Stop` exactly on `q`. Only `2` changes the tab, to 1. `j`/`k`/`h` call exactly down/up/focus_left, `l` calls focus_right with the selected category's word count, and no other key calls the selection. |
| `TuiMode.UpdateMethod` | src/tui_mode.rs:103-104 | Only tab 0 calls a selection method. On tab 0, each selection method has exactly one key: `j` down, `k` up, `h` focus_left, `l` focus_right. |
| `TuiMode.UpdateStep` | src/tui_mode.rs:91-114 | Panics with "Tab index is invalid !" exactly when a key arrives with a tab index other than 0 or 1. With a valid tab, the only panic is `l` in tab 0 with an out-of-range category. Answers `Stop` exactly on `q`. Preserves a valid tab and the word index bound. Tab 0 leaves the word index and `help` unchanged, and tab 1 never calls the selection. It calls a selection method exactly when `UpdateMethod` names one, and that method. A tick or failed receive changes nothing. Whenever it does not panic, the learn state it leaves is `LearnAfter`, whatever the selection. |
| `TuiMode.Redrawn` | src/tui_mode.rs:57-78 | Keeps the tab. Drawing tab 0 sets `swap` to 0. Drawing tab 1 sets `swap` to 1. Entering tab 1 with `swap == 0` restarts the timer, takes the new sample, and sets the word index to 0 and `help` to false. With `swap == 1` nothing else changes. Validity is preserved. |
| `TuiMode.LearnAfter` | src/tui_mode.rs:100-113 | Is the learn state `update` leaves whenever it does not panic. Preserves a valid tab and the word index bound. A tab other than 1 keeps the word index and `help`. `q`, a tick or a failed receive changes nothing. |
| `TuiMode.Iteration` | src/tui_mode.rs:47-79 | One loop iteration answered `Continue`. The tab is the one `update` leaves, and validity is preserved. Afterwards `swap` equals the tab. From a state whose `swap` equals its tab, entering tab 1 from tab 0 starts a fresh session (index 0, help off, this iteration's timer and words). Staying on tab 1 keeps the timer and words and never lowers the word index. |
| `TuiMode.RoutineAfterValid` | src/tui_mode.rs:45-81 | Over any sequence of iterations, a valid loop state whose `swap` equals its tab stays valid with `swap` equal to its tab. |
| `TuiMode.StayingInLearnKeepsSession` | src/tui_mode.rs:62-77 | Loop iterations on tab 1 with `swap == 1`, driven by any events (keys, ticks, failed receives) except `1`, keep tab 1 and `swap == 1`. The timer and the drawn words are kept, the word index never decreases, and no selection method is called. |
| `TuiMode.ReentryStartsFreshSession` | src/tui_mode.rs:58-70 | From tab 1 with `swap == 1`, an iteration on `1` followed by one on `2` passes through tab 0 with `swap == 0`. It then starts a new session: index 0, help off, timer and words from the second iteration. |
| `TuiMode.IndexCanPassDrawnWords` | src/tui_mode.rs:64-69 | If the vocabulary has fewer than `WORDS_LEARN_SIZE` words, `n` presses after a fresh entry move the word index to `WORDS_LEARN_SIZE` - 1, which is at or past the number of drawn words. |
| `TuiMode.Tui.constructor` | src/tui_mode.rs:33-43 | Starts on tab 0 with `swap` 0, no drawn words, word index 0, help off, and a fresh selection that has not been called. |
| `TuiMode.Tui.InputTabOne` | src/tui_mode.rs:116-142 | Changes the tab index and the selection only, exactly as `BrowseKey` says. |
| `TuiMode.Tui.InputTabTwo` | src/tui_mode.rs:144-167 | Changes the tab index, word index and help flag only, exactly as `LearnKey` says. |
| `TuiMode.Tui.Update` | src/tui_mode.rs:91-114 | Changes the learn state and the selection exactly as `UpdateStep` says. A panic leaves everything unchanged, and so does `q` apart from the answer. The methods called on the selection are those `UpdateMethod` names for the tab before the event. |
| `TuiMode.Tui.Redraw` | src/tui_mode.rs:57-78 | The loop state afterwards is exactly `Redrawn` of the state before. |
| `TuiMode.Tui.Iterate` | src/tui_mode.rs:47-79 | One pass of the loop body keeps the loop state valid. It stops exactly on `q` and panics only on `l` with the index panic. After `Continue` the loop state is `Iteration` of the state before, and after a stop or a panic it is unchanged. The selection is called exactly as `UpdateStep` says, so a stop or a panic leaves it unchanged. The methods called are those `UpdateMethod` names for the tab before the event. |
| `TuiMode.Tui.IterateAt` | src/tui_mode.rs:47-79 | Pass `k` of the loop body, when the loop state and the methods called so far are those of the events before `k`. After `Continue`, both are those of the events up to and including `k`. After a stop or a panic, nothing has changed. |
| `TuiMode.Tui.TuiRoutine` | src/tui_mode.rs:45-81 | Keeps the tab in {0,1}, `swap` equal to the tab, the word index below `WORDS_LEARN_SIZE` and the drawn words a sample of the vocabulary. The final loop state is `RoutineAfter` of the initial one over the handled events and their clock readings and draws. The selection was called with exactly the methods `RoutineMethods` gives for those events, in order. Returns how many events were handled. Ends only on `q` or on the `l` index panic (the event right after the handled ones), never on the tab panic, and otherwise runs through every event. No handled event was `q`. |

## Left out

- Terminal setup and teardown (raw mode, clearing, hiding the cursor) is I/O and is not modelled. The `?` error paths of these calls are left out with it.
- Rendering is UI and is not modelled: the commented-out drawing block of `refresh`, `draw_dictionary` and `draw_learn`. `draw_learn` receives `help`, and `draw_dictionary` the selection, by mutable reference. The model assumes neither changes them, because module `draw` is not part of this model.
- The `Events` producer thread and its channel are concurrency. A run takes a finite list of received events instead, each an `Option<Event>`. `None` stands for a failed `try_recv` (empty or disconnected) in `src/main.rs`, and for a disconnected `recv` in `src/tui_mode.rs`. The real loops never run out of events. `main`'s loop keeps polling. `tui_routine`'s loop blocks in `recv` while the channel is connected; once it is disconnected, `recv` fails at once and the loop keeps answering `Continue` and redrawing without waiting (src/tui_mode.rs:100, src/tui_mode.rs:113). The model's `OutOfEvents` end stands for that unbounded continuation.
- Random sampling with `choose_multiple` is a parameter. Each iteration gets a draw that `IsSample` constrains: min(`WORDS_LEARN_SIZE`, vocabulary size) entries taken from the vocabulary.
- `Instant` timing is a clock reading passed to each iteration. The session's start time is stored, and the elapsed time shown by drawing is not computed.
- `load_file` and YAML loading are not modelled, and neither are the internals of `Selection`. `Selection.Selection.constructor` and its movement methods state nothing about the position, because module `selection` is not part of this model.
- The usize width is not modelled: indices are unbounded naturals. No wrap-around can happen, because the tab index is only set to 0 or 1 and the word index is incremented only while below `WORDS_LEARN_SIZE` - 1. `WORDS_LEARN_SIZE` is at least one, so the usize subtraction `WORDS_LEARN_SIZE - 1` cannot underflow.

## Notes

`TuiMode.IndexCanPassDrawnWords` shows how the word index relates to the drawn words. `input_tab_two` bounds the word index by `WORDS_LEARN_SIZE`, not by how many words were drawn. With a vocabulary smaller than `WORDS_LEARN_SIZE`, the index can therefore reach a position past the last drawn word. Whether that matters depends on how `draw_learn` uses the index, and module `draw` is not part of this model, so this is not claimed as a defect.
