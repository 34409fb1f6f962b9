# Experiment control panel: live telemetry and console dispatch

This project models the two parts of the experiment control panel (a Dash web app) that have
behaviour.

- **Live telemetry.** Three parallel bounded deques, `data_x`, `data_y1` and `data_y2`, each
  with `maxlen` 1000 and seeded with 100 samples. Every interval tick appends one sample to each
  deque: x is the newest x plus 0.1, and the two readings are the sine-like and cosine-like
  signals at that x. The three charts are then drawn from snapshots of the deques.
- **Console dispatch.** The console callback gets the id of the button that fired and the old
  console text, and returns the new text. Buttons 1 to 11 append a message. Buttons 12 to 15
  replace the text with a banner holding the current time. Any other trigger returns `None`.

Modules:

- `Deque` (deque.dfy) gives the meaning of a Python deque with a `maxlen`, working on the
  sequence of its elements: `Append`, `Extend`, and `Keep` (the newest `maxLen` elements).
- `Telemetry` (telemetry.dfy) holds the class `LiveData`, which has the three deques as `seq`
  fields. Its constructor does the seeding. `UpdateLivePlots` is the tick and `Figures` builds the
  charts. Pure functions (`Ticks`, `Ramp`) and lemmas describe the state after any number of
  ticks. A ghost tick counter ties the fields to them through `Valid()`.
- `Console` (console.dfy) holds the callback as the pure function `UpdateConsole`. It is built
  from `Dispatch` (the chain of id tests) and `TransitionOf` (append these lines, or reset). A
  `Run` fold models Dash feeding each result back as the next callback's console state.
- `Wrappers` (wrappers.dfy) holds `Option`, which stands for Python's `None`.

Where the code does something other than what one might expect, the model follows the code:

- An unmatched id returns `None`, which Dash writes to the console; it does not leave the log
  unchanged.
- "SM Home" (button-3) appends a message, although its label suggests a reset like "SM OFF".
- "Start APD TTL Count" (button-12) resets the console, although its label suggests a
  measurement step.
- Several messages do not match their button labels (for example, button-4 "Set Voltage CH1"
  reports channel 2, and button-6 "SM Set Position CH1" prints "Voltage Grid Sweep").
  `Console.LabelMismatches` and `Console.MessageMismatches` record each of them.
- A reset text need not share nothing with the old text (the old text may itself contain the
  banner). The model proves instead that a reset result does not depend on the old text.

## Model

| member | source | states |
|---|---|---|
| Deque.Append | app.py:111-113 | `deque.append` with `maxlen`: the result is never longer than `maxlen`, and the appended element is the newest one |
| Deque.Extend | app.py:43-45 | `deque.extend` with `maxlen`: starting within the bound the result stays within it, and the last element of the input is the newest one |
| Deque.KeepSuffix | app.py:38-40 | a bounded deque holds the newest `min(len, maxlen)` elements, as a suffix in insertion order |
| Deque.AppendShape | app.py:111-113 | append to a bounded deque: below capacity the element is added last; at capacity the oldest is dropped and the element added last; length is `min(old + 1, maxlen)` |
| Deque.KeepKeep | app.py:38-45 | trimming to the newest `maxlen` before adding more elements and trimming again keeps the same elements as trimming once at the end |
| Deque.ExtendKeepsNewest | app.py:43-45 | FIFO law: extending a deque element by element leaves exactly the newest `maxlen` of all elements, in order |
| Deque.OverflowByOne | app.py:38-40 | appending 0..1000 to an empty deque bounded by 1000 leaves 1000 elements, the oldest being 1 and the newest 1000 |
| Telemetry.Linspace | app.py:43 | `num` values, first `start`, last `stop`, consecutive values equally far apart, strictly increasing when `start < stop` |
| Telemetry.Seed | app.py:43 | `np.linspace(0, 10, 100)`: 100 values, first 0, last 10, strictly increasing |
| Telemetry.MapSeries | app.py:44-45 | `np.sin(data_x)` / `np.cos(data_x)`: one value per x, each the signal at that x |
| Telemetry.NextX | app.py:110 | the new x is larger than the newest x, and so larger than every x of an increasing deque |
| Telemetry.TickX | app.py:110-111 | one tick of the x-deque: the new x is newest; below 1000 it is appended, at 1000 the oldest is dropped first; length `min(old + 1, 1000)` |
| Telemetry.Ticks | app.py:110-111 | the x-deque after n ticks is never empty, so each tick has a newest x to step from |
| Telemetry.TicksLength | app.py:110-111 | after n ticks the deque length is `min(initial length + n, 1000)` |
| Telemetry.TicksNewest | app.py:110 | after n ticks the newest x is the initial newest x plus `n * 0.1` |
| Telemetry.RampAt | app.py:110 | the k-th tick (from 0) appends the initial newest x plus `(k + 1) * 0.1` |
| Telemetry.TicksContents | app.py:110-111 | after n ticks the x-deque is the newest 1000 of the initial values followed by the n stepped values |
| Telemetry.RampIncreasing | app.py:110 | the stepped values extend a strictly increasing series strictly increasingly |
| Telemetry.TicksIncreasing | app.py:110-111 | ticks keep the x-deque strictly increasing |
| Telemetry.OldestSurvivor | app.py:38-40 | once eviction has started, the oldest x is the value at position `initial length + n - 1000` of everything appended; after at least 1000 ticks it is the value of tick `n - 1000 + 1` |
| Telemetry.AppendPointwise | app.py:111-113 | appending x to the x-deque and f(x) to a reading deque that matches it keeps every reading equal to f of its x, with equal lengths |
| Telemetry.SeedConsistent | app.py:42-45 | extending empty deques with 100 strictly increasing x-values and their two signals stores exactly those series, and they satisfy the invariant |
| Telemetry.TickConsistent | app.py:107-113 | one tick keeps the invariant (x-deque = ticks from the seed, strictly increasing, at most 1000, readings in step) and gives length `min(100 + ticks, 1000)` |
| Telemetry.LiveData.constructor | app.py:37-45 | start-up, given the value of `np.linspace(0, 10, 100)`: the x-deque is the 100 seed values and each reading deque is its signal applied to the x-deque; the invariant holds |
| Telemetry.LiveData.Figures | app.py:115-123 | the charts are snapshots of the deques and change nothing; chart 1 pairs x with `data_y1`; charts 2 and 3 are the same `data_y2` series; x strictly increasing; each y is its signal at its x |
| Telemetry.LiveData.UpdateLivePlots | app.py:107-125 | one tick: each of the three deques gets exactly one append (x = newest x + 0.1, readings at that x) with FIFO eviction; the invariant is kept; length is `min(100 + ticks, 1000)`; the charts are drawn from the new contents |
| Console.OldText | app.py:153 | Python's truthiness test `args[-1] if args[-1] else ""`: the console value when it is present and non-empty, otherwise "" |
| Console.ButtonId | app.py:78-92 | each button's component id starts with `button-` |
| Console.TransitionOf | app.py:146-289 | when a branch appends, button-1 appends two lines and every other button one, and every appended line ends with a newline |
| Console.Banner | app.py:261-289 | the banner of the four reset branches is the fixed head "- Experiment Control Program \n Time : " followed by exactly the time text |
| Console.Dispatch | app.py:146-285 | an id selects a branch only if it is that button's id |
| Console.DispatchButtonId | app.py:146-285 | each button's id selects that button's branch, and no other id does |
| Console.TransitionClasses | app.py:146-289 | buttons 1 to 11 append and buttons 12 to 15 reset, in both directions |
| Console.UpdateConsole | app.py:139-290 | a text is returned exactly when a trigger is present and matches a branch |
| Console.AppendClick | app.py:160-257 | an append-class click returns the old text (missing or empty as "") as a prefix, followed by exactly the button's message; so its length is old length plus message length |
| Console.AppendStep | app.py:160-257 | an append-class click returns `old text + message` |
| Console.UpdatePositionClick | app.py:146-158 | button-1 appends "Channel 1 at 1 mrad\n" and then "Channel 2 at 1 mrad\n\n", in that order, after the old text |
| Console.ResetClick | app.py:261-289 | a reset-class click returns the banner "- Experiment Control Program \n Time : <now>" (the format of the start-up placeholder, app.py:63) whatever the old text was |
| Console.UnmatchedTrigger | app.py:139-290 | a trigger that is no button's id, or no trigger at all, returns `None` |
| Console.EmptyReadsAsNothing | app.py:153 | a missing console value and an empty one give the same result |
| Console.LabelMismatches | app.py:183-265 | "SM Home" appends and "Start APD TTL Count" resets |
| Console.MessageMismatches | app.py:192-257 | "SM Set Voltage CH1" reports channel 2 like CH2, buttons 10 and 11 both say "button 2", "SM Set Position CH1" prints "Voltage Grid Sweep\n", "SM Set Position CH2" prints "Position Grid Scan initialized \n", and "Voltage Grid Sweep (Open Loop)" prints "Initialize Measurement Sequence \n" |
| Console.Run | app.py:129-136 | Dash feeds each result back as the next `console.value`: with no clicks the value is unchanged; otherwise a text is shown exactly when the last click matched a button |
| Console.RunSnoc | app.py:129-136 | one more click applies the callback once more to the current console value |
| Console.AppendOnlyRun | app.py:129-136 | between resets the console only grows: after append-class clicks its text is the old text followed by each message in turn, and it is no longer `None` |
| Console.BannerThenAppends | app.py:129-136 | after a reset-class click and then append-class clicks, the console is the banner of that click followed by the messages |

## Left out

- Page layout, Bootstrap components, dropdown, progress bar and the input fields
  (app.py:17-95): declarations with no behaviour.
- Plotly figure construction, titles, trace names, line colours and `mode`: a library call.
  Only the x and y series fed to each chart are modelled (`Telemetry.Trace`).
- The signal values: `np.sin` and `np.cos` are abstract total functions `real -> real`, given to
  the constructor.
- Floating point: x is a `real`. The Python floats of `np.linspace` and of the repeated `+ 0.1`
  only approximate these exact values. Strict increase over the floats is not modelled.
- `time.sleep(.3)` between the two lines of button-1: a delay with no effect on the result.
- The clock: `datetime.datetime.now()` is the `now` parameter. So "a second reset carries a
  later timestamp" is not modelled.
- `dash.callback_context`, the `n_clicks` inputs and the `n_intervals` tick counter: framework
  plumbing. Only the resulting triggered id is modelled, as `Option<string>`.
- The commented-out hardware driver calls and `app.run_server`: device I/O and server start-up.
  The code has no device error handling and never reads the input fields, so neither is
  modelled.
- Serialisation of the two callbacks by the host: they only share the process, not state,
  and the model treats each callback as one atomic step.
- A tick on an empty x-deque would raise an index error in the code. This cannot happen: the
  deque starts with 100 values and never shrinks, and `Valid()` keeps it non-empty.
