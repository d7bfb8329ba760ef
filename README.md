# autocursor: a Dafny model of the cursorline/cursorcolumn toggler

autocursor is a Vim/Neovim plugin that turns `cursorline` and `cursorcolumn`
on and off in response to autocmd events: on when the cursor rests or a
window is entered, off when the cursor moves. This project models its core
in Dafny and proves properties of that model:

- **Events** (`events.dfy`): `uniqueEvent`. It expands each configured rule
  (one event name or a list) into one `(name, set, wait)` record per name.
  It then keeps each key only at its first occurrence.
- **Timers** (`timers.dfy`): the host's `setTimeout` / `clearTimeout` table.
  Time is an explicit `now` argument, and a timer runs when the host fires it
  at or after its due time.
- **Throttle** (`throttle.dfy`): `throttle` and its `throttles` table, as the
  class `Gate`, keyed by option name.
- **Toggler** (`toggler.dfy`): the dispatcher of `main.ts`. It holds the two
  channel records `cfgLine`/`cfgColumn` (classes with `enable` and `state`
  fields) and the handlers `setOption` (through the gate), `changeCursor` and
  one tick of `fixState`. The pure functions `Gated`, `ChangeEnable` and
  `FixTick` specify the handlers on the abstract `View` of both channels.
  `Replay` runs a sequence of such actions for the trace lemmas.
- **Legacy** (`legacy.dfy`): the older revision in `mod.ts`. Its guards run
  when `setOption` is called, before a plain `setTimeout`. The callback sends
  `set <o>` / `set no<o>` and then records the state, without checking again.

The host is represented by inputs and outputs. Inputs are the current
filetype, the live option values and the current time. Outputs are the list
of option writes (`Write(option, value)` in `main.ts`, the Ex command string
in `mod.ts`). Dafny reserves `set` as a keyword, so the rule and request
field the source calls `set` is named `value` here.

Three points about `throttle` (main.ts:107-122) shape every trace:

- An immediate run stamps the slot with `now` (main.ts:111, 121); a deferral
  keeps the old stamp (main.ts:119).
- A deferred action is due `delay + wait` ms after the call that deferred it
  (main.ts:118), not after the last immediate run. A second call 50 ms after
  an immediate one is therefore due at +350 ms with a 300 ms window
  (`Throttle.LeadingEdgeScenario`).
- A missing slot reads as `[0, 0]` (main.ts:108). Against a wall clock
  (`new Date().getTime()`, main.ts:111) the first request for an option is
  far more than `delay + wait` ms past the stamp 0, so it always runs at
  once; only later requests inside the window are deferred. The scenarios in
  `toggler.dfy` therefore start each option with a request that runs at once.

## Model

| member | source | states |
|---|---|---|
| Events.ExpandNames | denops/autocursor/main.ts:94-95 | a list-named rule becomes one record per name, in list order, each with the rule's `set` and `wait` |
| Events.Expand | denops/autocursor/main.ts:93-97 | every expanded record names a single event |
| Events.ExpandAll | denops/autocursor/main.ts:92-98 | the flattened list holds only single-named records |
| Events.ExpandAllAppend | denops/autocursor/main.ts:92-98 | flattening distributes over concatenation: each rule's expansion appears in rule order |
| Events.ExpandAllOfSingles | denops/autocursor/main.ts:94-96 | rules that already name one event pass through expansion unchanged |
| Events.Dedup | denops/autocursor/main.ts:99-102 | the filter keeps exactly the records not seen before, each once, ordered by first occurrence, and is never longer than its input |
| Events.UniqueEvent | denops/autocursor/main.ts:90-103 | output has no two equal `(name, set, wait)` keys, is no longer than the expansion, contains every expanded key and nothing else, and lists keys in order of first occurrence |
| Events.DedupOfDistinct | denops/autocursor/main.ts:99-102 | a duplicate-free list with no seen key passes the filter whole |
| Events.DedupAppendSeen | denops/autocursor/main.ts:99-102 | appending an already-seen key adds nothing to the output |
| Events.UniqueEventIdempotent | denops/autocursor/main.ts:90-103 | applying uniqueEvent to its own output changes nothing |
| Events.FirstOccurrenceOrderUnique | denops/autocursor/main.ts:99-102 | two duplicate-free lists with the same keys, both in first-occurrence order, are equal |
| Events.UniqueEventCharacterized | denops/autocursor/main.ts:90-103 | uniqueEvent is the only duplicate-free, complete, first-occurrence-ordered list of the expanded keys |
| Events.DefaultEvents | denops/autocursor/main.ts:38-54 | whatever the hold wait, the default rules expand to six distinct records, and every "off" record has wait 0 |
| Events.RedeclaredRuleDropped | denops/autocursor/main.ts:38-54 | the default rules give six records after uniqueEvent, and a merged rule list whose later rule repeats a default key subscribes to nothing new |
| Timers.Clamp | denops/autocursor/main.ts:118 | the delay actually waited is never negative: a negative delay is waited as 0, a non-negative one as itself |
| Timers.Host.SetTimeout | denops/autocursor/main.ts:118 | a fresh handle, never live before, due `now + delay`; the next handle moves on by one; all other timers are unchanged |
| Timers.Host.ClearTimeout | denops/autocursor/main.ts:114 | the handle is no longer pending; all other timers are unchanged |
| Timers.Host.Fire | denops/autocursor/main.ts:118 | only a live, due timer runs, once, and is then removed |
| Throttle.Gate.constructor | denops/autocursor/main.ts:105 | the table starts empty |
| Throttle.Gate.Call | denops/autocursor/main.ts:107-122 | the id's slot (missing reads as [0,0]) has its timer cancelled. If `now - lastTime > delay + wait`, it runs now and stamps `now`. Otherwise it schedules the action `delay + wait` ms ahead and keeps `lastTime`. Only `throttles[id]` changes, only a deferral takes a host handle, and other ids' slots and pending timers are untouched |
| Throttle.Step | denops/autocursor/main.ts:108-121 | the action runs at once exactly when more than `delay + wait` ms have passed since the slot's stamp; a run stamps `now` and keeps the old handle, a deferral keeps the stamp and records the new handle |
| Throttle.Outcomes | denops/autocursor/main.ts:107-122 | one outcome per call in a sequence of calls on one id, each call with its own `delay + wait`; only a deferral takes a handle |
| Throttle.RunsAfterStamp | denops/autocursor/main.ts:111-121 | the first immediate run after a stamp comes more than its own `delay + wait` after that stamp, whatever deferrals come before it |
| Throttle.ImmediateRunsSpaced | denops/autocursor/main.ts:107-122 | on one id, with a clock that does not run backwards, an immediate run comes more than its own `delay + wait` ms after every earlier immediate run, even when the calls mix waits |
| Throttle.LeadingEdgeScenario | denops/autocursor/main.ts:107-122 | first call runs at once, a call 50 ms later is deferred to 300 ms after itself, another id runs at once meanwhile; the gate's outcomes on one id agree with `Outcomes` |
| Toggler.Gated | denops/autocursor/main.ts:180-218 | the gated action writes nothing and changes nothing when `set` equals the channel's `state`, the channel is disabled, or the filetype is ignored. Otherwise it sets only that channel's `state` and writes exactly that option with `set`. The other channel and both `enable` flags never change |
| Toggler.ChangeEnable | denops/autocursor/main.ts:227-240 | disabling writes the option off at once; only that channel's `enable` changes |
| Toggler.FixTick | denops/autocursor/main.ts:245-251 | both `state` flags become the live option values regardless of `enable` |
| Toggler.DisabledNeverTurnsOn | denops/autocursor/main.ts:180-240 | from a disabled channel, until `changeCursor(true)`, every write to that option turns it off, in any order of gated actions, disables and resyncs |
| Toggler.IgnoredFileTypeInert | denops/autocursor/main.ts:198-202 | gated actions run in an ignored filetype leave the flags unchanged and write nothing |
| Toggler.Cursor.constructor | denops/autocursor/main.ts:27-32 | a channel record with its option, enable and state |
| Toggler.Dispatcher.constructor | denops/autocursor/main.ts:133-166 | start-up state from the merged configuration, with an empty throttle table and no timers |
| Toggler.Dispatcher.RunAction | denops/autocursor/main.ts:180-218 | the closure body updates the cursor records and writes exactly as `Gated` says |
| Toggler.Dispatcher.SetOption | denops/autocursor/main.ts:170-225 | passes the action through the gate keyed by option name with `throttleTime + wait`, always cancelling the option's previous pending action. If it runs now, the effect is `Gated` and no timer is added. If deferred, nothing changes yet and exactly this action is added, pending at `now + threshold`. The other option's slot and timer are untouched |
| Toggler.Dispatcher.TimerFired | denops/autocursor/main.ts:178-221 | a live, due deferred action runs `Gated` against the state at firing time; a cancelled or unknown timer does nothing |
| Toggler.Dispatcher.ChangeCursor | denops/autocursor/main.ts:227-240 | updates the records and writes as `ChangeEnable` says |
| Toggler.Dispatcher.FixStateTick | denops/autocursor/main.ts:245-251 | updates both states as `FixTick` says |
| Toggler.HoldScenario | denops/autocursor/main.ts:170-221 | at a wall-clock time, a first CursorMoved request runs at once and stamps the slot; a CursorHold 200 ms later with a 300 ms throttle and 100 ms wait is deferred to 400 ms after itself, then writes cursorline on |
| Toggler.LaterRequestCancels | denops/autocursor/main.ts:107-221 | a second deferred request on the same option cancels the first: the first's timer is no longer pending and firing it writes nothing; the latest one writes |
| Toggler.DisableBeforeFire | denops/autocursor/main.ts:180-240 | a disable between scheduling and firing stops the scheduled write; only the disable's own `false` write is sent |
| Toggler.ChannelsIndependent | denops/autocursor/main.ts:178-221 | a deferred request for cursorcolumn does not cancel the pending cursorline action; both fire |
| Legacy.Command | denops/autocursor/mod.ts:153-155 | the command is a `set ` command |
| Legacy.CommandRoundTrip | denops/autocursor/mod.ts:153-155 | the editor reads the command back as setting option `o` to `s` (`set o` when true, `set noo` when false) |
| Legacy.Cursor.constructor | denops/autocursor/mod.ts:17-22 | a channel record with its option name, enable and state |
| Legacy.Plugin.Admits | denops/autocursor/mod.ts:136-151 | a request for cursorline or cursorcolumn passes exactly when that channel is enabled and the value differs from its state; any other name passes |
| Legacy.Plugin.constructor | denops/autocursor/mod.ts:24-107 | both channels start enabled and off, with no timers |
| Legacy.Plugin.SetOption | denops/autocursor/mod.ts:132-164 | schedules nothing if `s` equals the channel's `state` or the channel is disabled. Otherwise it schedules `(s, o)` after `w` ms. No flag changes, and a name other than cursorline/cursorcolumn passes both guards |
| Legacy.Plugin.TimerFired | denops/autocursor/mod.ts:152-162 | a due callback sends `set <o>` / `set no<o>` and then sets only the matching channel's `state` to `s`; an unknown name changes no state; `enable` is never read or changed |
| Legacy.Plugin.ChangeCursor | denops/autocursor/mod.ts:165-178 | disabling sends `set no<o>`; only the matching `enable` changes; `state` and scheduled callbacks are untouched |
| Legacy.DisableAfterScheduleStillWrites | denops/autocursor/mod.ts:136-176 | an accepted request followed by a disable still sends `set cursorline` and records the state as on, with the channel disabled |
| Legacy.RepeatedRequestWritesTwice | denops/autocursor/mod.ts:136-162 | two equal requests before the first callback runs both pass the guards and send the command twice |

## Findings

| source | as written | input that shows it | evidently intended | confidence | as-written member | corrected member |
|---|---|---|---|---|---|---|
| denops/autocursor/mod.ts:136-162 | the guards run only when setOption is called; the scheduled callback writes the option and records the state unconditionally | `setOption(true, 900, "cursorline")`, then a direct `changeCursor(false, "cursorline")` notification before 900 ms: `set cursorline` is still sent (the revision's DisableAutoCursorLine command notifies the unregistered `changeCursorLine`, so only a direct notification reaches `changeCursor`) | a disabled channel never turns its option on. main.ts re-checks `enable` inside the gated action (main.ts:183); this narrows the window to the `op.filetype.get` await (main.ts:198) and to the `false` write that `changeCursor` awaits before clearing `enable` (main.ts:232-239), rather than closing it | not executed; medium | Legacy.DisableAfterScheduleStillWrites | Toggler.DisabledNeverTurnsOn |

## Left out

- Host bridge calls (`op.*.get/set`, `op.filetype.get`, `vars.g.get`, `helper.execute`, `vim.execute`) are foreign I/O. Their results are parameters and their effects are returned write records.
- Autocmd group registration and user command definitions (main.ts:255-288, mod.ts:181-201) are host I/O. Note that mod.ts:197-200 has the commands notify `changeCursorLine` / `changeCursorColumn`, which that revision never registers.
- `fixState` registering its `setInterval` is not modelled. The interval argument only sets the timing, and each tick is `Dispatcher.FixStateTick`.
- Wall-clock time (`new Date()`) is an explicit `now`. setTimeout's clamp of delays above 2^31-1 ms to 1 ms is not modelled. Negative delays are clamped to 0.
- Async interleaving at the `await` points of the handlers is not modelled. Each action runs to completion, so these races are not represented:
  - a `fixState` tick landing inside a delayed action;
  - a `changeCursor(false, opt)` landing during `await op.filetype.get` (main.ts:198), after which main.ts still records the state and writes `true` (main.ts:204-211) without checking `enable` again;
  - a deferred gated action firing while `changeCursor(false, opt)` awaits its `false` write (main.ts:232). `enable` is cleared only afterwards (main.ts:234-239), so the action passes its guard (main.ts:183) and writes `true` after the `false` write, leaving the channel disabled with the option on. `Toggler.ChangeEnable` and `Toggler.Dispatcher.ChangeCursor` write and clear `enable` in one step.

  `Toggler.DisabledNeverTurnsOn` holds for atomic actions only.
- Host writes are assumed to succeed. main.ts records `state` before `await op[opt].set(...)` (main.ts:204-211), and mod.ts records it only after `await vim.execute(...)` (mod.ts:155-160); a rejected write, after which the two revisions would disagree on `state`, is not modelled.
- The lodash `merge` of user configuration (main.ts:157-158) is a third-party library. It merges arrays index by index, so a user rule list overlays the default rules position by position rather than being appended. The dispatcher is built from already-merged flags. The rule lists' deduplication is modelled by `Events.UniqueEvent`.
- `notifyMsg`, `clog` and the debug and notify flags are logging only.
- The runtime `assert(..., is.*)` checks are replaced by typed parameters, and the `try`/`catch` around them is therefore not modelled. In main.ts the option name is the two-valued `Opt`.
- The string key `${name}-${set}-${wait}` is modelled as equality of single-named records, so a name containing `-` cannot collide with another key.
- `wait` and time values are unbounded integers, not JavaScript floating-point numbers.
- denops/autocursor/deps.ts holds only re-exports and is not part of this model.
