# hyprmenu: a Dafny model of the launcher's decision logic

hyprmenu is a small always-on-top launcher window. It shows eight buttons,
each bound to a shell command and to a one-letter shortcut (`a s d f h j k l`).
Pressing a shortcut or clicking a button spawns the command and closes the window.
Escape closes the window. `?` toggles a help view.

This project models the three pieces of pure decision logic under the toolkit code:

- **Configuration loading** (`Config`, from `src/config.rs`).
  `LoadConfig` takes what reading and parsing `commands.json` produced.
  It returns the file's eight entries, or the built-in default entries.
  In the fallback case it also returns the write-back of the defaults it attempted and the warning it logged.
- **Main view layout** (`Ui`, from `src/ui.rs`).
  `CreateMainView` builds one button per entry.
  Each button shows the entry's label and the shortcut letter of its position.
  It sits at row `i / 4`, column `i % 4`, and clicking it launches the entry.
  More than eight entries make the shortcut lookup panic, and the model returns that panic.
- **Key handling** (`App`, from `src/app.rs`).
  `Step` is the key-press handler, written as a state machine over the visible view (`Main` or `Help`).
  It returns the next state, the effects issued (`Spawn(command)`, `CloseWindow`) and the propagation decision (`Stop` or `Proceed`).
  `Run` feeds a sequence of keys to the handler until the window closes.

Keys are GDK key values (`Keys`): Escape is `0xff1b`, and every graphic Latin-1 character is its own code point.
So `App.ShortcutTableAgrees`, which states that the hint shown under button `i` is the key mapped to `i`, compares the characters of `src/ui.rs` with the key constants of `src/app.rs`.

Effects are values (`Effects`). `Spawn(c)` stands for running `sh -c c` detached with the result discarded, as both handlers do.

## Model

| member | source | states |
|---|---|---|
| `Config.Default` | src/config.rs:16-55 | the default configuration holds exactly eight entries with pairwise distinct labels and commands, none of them empty |
| `Config.SaveConfig` | src/config.rs:85-96 | saving hands over exactly the given configuration; it reports success only when both serialisation and writing succeed, a serialisation failure exactly when serialisation fails, and a write failure otherwise |
| `Config.LoadConfig` | src/config.rs:57-83 | the result always has eight entries; a file that parses to exactly eight entries is returned unchanged with nothing written; in every other case (read failure, parse failure, wrong count) the defaults are returned and exactly the default configuration is written back; a parse failure and a wrong count are logged, a read failure is not; the write-back's reported status is exactly what saving the defaults in the given environment reports |
| `Config.FallBack` | src/config.rs:63-81 | each fallback branch returns the default entries and hands exactly the default configuration to the save routine, whose report in the given environment it records |
| `Config.SaveOutcomeIrrelevant` | src/config.rs:57-96 | whether the write-back succeeds never changes the entries returned or the warning logged |
| `Config.LoadIsStable` | src/config.rs:57-83 | if the file next parses to the entries a load returned, the next load returns them unchanged and writes nothing |
| `Config.FallBackThenReload` | src/config.rs:63-81 | after a fallback whose write-back succeeds, a file that parses back to what was written is used as is on the next load, with no further write |
| `Keys.OfChar` | src/app.rs:120-127 | the key of a graphic Latin-1 character is never Escape, is `?` exactly for '?', and lies below 0x100; this GDK convention links the hint characters of src/ui.rs:37 to the `Key::x` constants of the key table |
| `Ui.Placement` | src/ui.rs:72-74 | the cell of position `i` has a column below four and `row * 4 + column == i`, so the position can be read back from the cell |
| `Ui.PlacementFitsGrid` | src/ui.rs:72-74 | the eight positions of a full configuration lie in rows 0..1 and columns 0..3 |
| `Ui.PlacementInjective` | src/ui.rs:72-74 | distinct positions occupy distinct cells |
| `Ui.ShortcutsAreDistinctKeys` | src/ui.rs:37 | the eight shortcut hints are distinct graphic Latin-1 characters, each a key value of its own |
| `Ui.CreateMainView` | src/ui.rs:37-75 | the view is built exactly when there are at most eight entries; it then has one button per entry, in order, with the entry's label, the position's shortcut, the position's cell and a click that launches the entry's command; otherwise the shortcut lookup panics at index 8 of 8 |
| `Ui.ButtonsAreDistinctAndLaunch` | src/ui.rs:60-74 | in a built view no two buttons share a cell, a shortcut or the key of that shortcut, and clicking button `i` spawns exactly entry `i`'s command once and then closes the window |
| `App.CommandIndex` | src/app.rs:119-129 | the key table yields positions below eight only, and neither Escape nor `?` is mapped |
| `App.HandleCommandKey` | src/app.rs:114-143 | the event is consumed exactly when the key is mapped to a position that holds an entry, and then the entry's command is spawned once and the window closed; otherwise nothing is issued and the event proceeds |
| `App.Step` | src/app.rs:80-107 | the command list never changes; a step issues nothing, a bare close, or the launch of one configured entry, and issues anything only from the main view; a passed-on event changes nothing; Escape is consumed, returns from help to main without closing, and closes from main without spawning, leaving the state as it was; `?` is consumed, switches the view and issues nothing; other keys keep the view and are consumed exactly when the main view is shown and the key maps to an existing entry, which is then launched |
| `App.Run` | src/app.rs:80-107 | over any sequence of key presses the command list never changes, the window has closed exactly when something was issued, and a session issues nothing, a bare close, or the launch of one configured entry, so at most one command is spawned |
| `App.Start` | src/app.rs:20-64 | start-up shows the main view with exactly eight entries: the file's own when the file is usable, otherwise the defaults |
| `App.BuildUi` | src/app.rs:42-70 | building the window from any loaded configuration never panics and yields one button per entry, eight in all, showing those entries |
| `App.ShortcutTableAgrees` | src/app.rs:119-129 | the key table maps the shortcut shown at position `i` to `i`, and no other key to `i` |
| `App.CommandIndexInjective` | src/app.rs:119-129 | two keys mapped to the same position are the same key |
| `App.KeyMatchesClick` | src/app.rs:131-139 | in the main view, pressing the shortcut shown under a button has exactly the effects of clicking that button, consumes the event and leaves the state unchanged |
| `App.QuestionTwiceRestores` | src/app.rs:92-99 | pressing `?` twice returns to the starting state |
| `App.HelpSuppressesCommands` | src/app.rs:100-105 | while the help view is shown, any run of keys other than Escape and `?` leaves the state unchanged and issues nothing |
| `App.ClosedSessionIgnoresLaterKeys` | src/app.rs:84-91 | once a session has closed the window, appending further keys changes nothing |
| `App.RunExtends` | src/app.rs:80-107 | a session still open after some keys handles the next key as one handler step from where it stands: a closing step ends the session with exactly that step's effects, any other step carries on with the remaining keys |
| `App.ShortcutLaunchesInOpenSession` | src/app.rs:131-139 | in a session still open on the main view, pressing the shortcut of a position that holds an entry closes the window and launches exactly that entry, whatever keys come after |
| `App.EscapeTwiceCloses` | src/app.rs:84-91 | from either view, two Escape presses close the window and spawn nothing |

## Left out

- `src/styling.rs` (a static CSS string and a display-provider call) and `src/main.rs` (application bootstrap) hold no decision logic.
- Widget construction, markup strings, the help view's text and window sizing (`src/ui.rs:12-35`, `src/ui.rs:77-134`, `src/app.rs:42-70` apart from the two calls modelled by `App.BuildUi`) are toolkit calls; a button is modelled as the data it is built from.
- Process spawning through `sh -c` on the blocking thread pool is represented only by the `Spawn(command)` effect; the thread-pool offload is concurrency, and spawn errors are discarded by the source anyway.
- Resolving and creating the configuration directory (`src/app.rs:20-29`) is file-system I/O; its outcome shows up only as the `FileRead` and `SaveEnv` inputs.
- JSON parsing and serialisation belong to an outside library: their outcomes are the inputs `FileRead` and `SaveEnv`. A save-then-load round trip depends on that library and is not proved; `Config.LoadIsStable` and `Config.FallBackThenReload` take "the file parses to what was written" as a hypothesis instead.
- Log output: only which diagnostic `load_config` logs (`Warning`) and what `save_config` reports (`SaveStatus`) are kept, not the message text.
- The visible view is `Main` or `Help`. The stack's `visible_child_name` could in principle be absent, but `build_ui` selects "main" before any key can arrive.
- Key delivery before the handler is left to the toolkit: `App.Run` and `App.HelpSuppressesCommands` cover only the keys that reach the window's key controller, which runs in the bubble phase, so a focused button's own Enter/Space activation (a click) is not modelled as a key.
- Modifier state is ignored by the handler and by the model; a key is its key value only.
- `Ui.Placement`: the `as i32` casts of row and column are not modelled, because positions never exceed 8 before the shortcut lookup would panic.
