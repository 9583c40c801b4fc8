# Poker Time clock — a Dafny model of its round and timer core

Poker Time is a desktop clock for poker tournaments. A tournament is a list of rounds, each with
a number, a length in minutes and a small and a big blind. The game screen shows the current
round and a countdown. It has three commands: start/pause the timer, go to the next round, and
restart the game or the timer. An editor builds the list of rounds from typed entries and writes
or reads it as a flat comma-separated file.

This project models the sequential core under the GUI:

- `rounds.dfy` (module `Rounds`): the `Round` record and the `GameState` cursor. The cursor is a
  class holding the round list, an index into it, and four fields that mirror the current round.
  Its invariant `Valid()` says the index is in bounds and the mirrored fields equal
  `rounds[roundIndex]`. "Next round" stops on the last round and never wraps. Restart goes back
  to index 0. Replacing the list clamps the index.
- `timing.dfy` (module `Timing`): the timer as a value `Clock`. It holds the pause flag, the
  seconds left, the clock text shown, the button label and the end-of-round flashing flag.
  `Tick` is one call of `countdown`, `Press` is the button's `start`, and `Refresh` and `Halt`
  are the pieces the resets are made of. `FormatTime` renders `m:ss`. The lemmas cover the
  clock text reading back as minutes and seconds, a running clock losing exactly one second per
  tick until it expires and then staying expired, a paused clock never moving, every reset giving
  the same fresh clock, and the button label staying consistent with the pause flag.
- `pages.dfy` (module `Pages`): the objects that hold that state in place: `Timer`,
  `TimerButton` and `GamePage`. Each method is proved against the `Timing` functions, e.g.
  `Timer.Countdown` ensures `View() == Tick(old(View()))`. `GamePage.Valid()` keeps the cursor
  valid and the label consistent.
- `editor.dfy` (module `Editor`): how "Save Game" builds a list from the editor's entries, the
  export line format, the import parser and its loop, and the `EditorPage` commands that commit a
  list to the application or to a running game. The central lemma is `ImportExport`: importing
  an exported file gives back the same rounds.
  `Pages.TwoRoundGame` is a worked example, not a part of the program: it plays the two-round
  tournament (30 then 20 minutes) through start, next round and restart, and checks the clock
  shows "20:00" after advancing.
- `strings.dfy` (module `Strings`): the parts of Python's `str()`, `int()` and splitting on a
  separator that the above rely on. It proves `int(str(n)) == n` and that splitting undoes
  joining.

Behaviour of the code that the model keeps, though a reader might expect otherwise:

- Pressing start on a paused timer calls `countdown` at once. So one second goes off immediately,
  and a paused clock at zero, such as the fresh timer of a zero-minute round, expires straight
  away (`Timing.Press`).
- `countdown` shows the time *before* taking the second off. The text on screen lags the count by
  one second.
- After the editor commits a list to a running game, `refresh_round_values` reloads the time and
  labels the button "Start Timer", but it does not pause the timer or stop the flashing. The clock
  keeps running under a "Start Timer" label (`Timing.Refresh`, `Editor.EditorPage.Commit`).
- The editor accepts negative numbers (`int("-5")`). A round can therefore have a negative length,
  and then the seconds left start below zero. "Never below zero" is proved for clocks that start
  at zero or above. A negative round count builds no rounds.
- An import row with more than four fields is accepted, and the extra fields are ignored. A row
  with fewer fields, or a non-integer among the first four, fails the whole import before anything
  is committed. Cancelling the file dialog commits an empty list.

## Model

| member | source | states |
|---|---|---|
| `Rounds.ClampIndex` | main.py:216 | the index kept after a list of `count` rounds replaces the old one is inside the new list, equals the old index when that is still valid, and is the last index otherwise |
| `Rounds.AdvanceStopsAtLast` | main.py:182-183 | after k presses of "next round" from a valid index, the cursor is at `index + k`, or at the last round if that would run past the end; from the last round it never moves again (no wrap-around) |
| `Rounds.GameState.constructor` | main.py:164-170 | a new cursor over a non-empty list is at index 0, valid, with the first round's fields mirrored |
| `Rounds.GameState.ShowCurrent` | main.py:184-187 | copying the round under the cursor into the four display fields makes the cursor valid and moves nothing |
| `Rounds.GameState.NextRound` | main.py:172-187 | the index goes up by one exactly when a further round exists, and otherwise stays on the last round; the list is unchanged and the mirrored fields follow the index |
| `Rounds.GameState.RestartGame` | main.py:189-203 | the index becomes 0, the list is unchanged, the mirrored fields are those of the first round |
| `Rounds.GameState.UpdateRounds` | main.py:205-220 | the new non-empty list replaces the old one, the index becomes `min(old index, len - 1)` (kept when still valid), and the mirrored fields follow |
| `Strings.IntToString` | main.py:814 | `str(n)` is non-empty and consists of digits with at most a leading minus sign |
| `Strings.ParseInt` | main.py:755 | `int(s)` succeeds exactly on an optional sign followed by one or more decimal digits |
| `Strings.ParseIntOfString` | main.py:842 | `int(str(n)) == n` for every integer |
| `Strings.SplitOn` | main.py:840 | splitting at a separator gives at least one piece, no piece holds the separator, and joining the pieces with it gives the text back |
| `Strings.SplitJoin` | main.py:840 | splitting a join of separator-free pieces gives exactly those pieces |
| `Timing.FormatTimeReadsBack` | main.py:302-316 | the clock text is two parts around a colon: the minutes part is exactly `str(floor(t / 60))`, and the seconds part is exactly two decimal digits (zero-padded) reading `t mod 60`; together they make up t |
| `Timing.FormatTimeExamples` | main.py:312-316 | 1200 seconds show as "20:00", 65 as "1:05", 0 as "0:00" (the text an expired clock shows) |
| `Timing.Tick` | main.py:281-300 | one countdown step never changes the pause flag or raises the count, keeps a non-negative count non-negative, takes exactly one second off exactly when running with time left, and changes nothing while paused |
| `Timing.Press` | main.py:246-271 | the start button always toggles the pause flag; resuming with time left takes one second off at once, shows the time before it and labels the button "Pause Timer"; resuming a clock at zero (or below) expires it at once: "0:00", "Reset Timer" and flashing; pressing on a running clock at zero gives the fresh clock of the current round; pausing otherwise changes only the pause flag and the label "Resume Timer" |
| `Timing.Refresh` | main.py:535-537 | reloading sets the count to the round's minutes times 60, shows its text and labels the button "Start Timer", and leaves the pause and flashing flags as they were |
| `Timing.ResetForgetsHistory` | main.py:572-577 | pausing, stopping the flashing and reloading gives the same stopped clock as a fresh timer, whatever the clock's state before |
| `Timing.ConsistentKept` | main.py:259-299 | "Pause Timer" shows only while running, "Resume Timer" only while paused, and "Reset Timer" only while running and flashing; a fresh clock, a tick, a press and a reload all keep this |
| `Timing.PausedFrozen` | main.py:295-296 | any number of ticks leave a paused clock unchanged |
| `Timing.RunningCountsDown` | main.py:291-294 | k ticks on a running clock with at least k seconds left take exactly k seconds off, showing the value before the last one |
| `Timing.RunningExpires` | main.py:291-300 | once a running clock's seconds are used up, the next tick shows "0:00", labels the button "Reset Timer" and starts the flashing, with the count at 0; every later tick leaves that state unchanged |
| `Pages.TimerButton.constructor` | main.py:326-327 | a new button reads "Start Timer" |
| `Pages.TimerButton.SetText` | main.py:339-349 | the button now shows the given label |
| `Pages.Timer.constructor` | main.py:230-236 | a new timer is paused with the current round's minutes times 60 left and that time shown |
| `Pages.Timer.Pause` | main.py:273-275 | the timer is paused |
| `Pages.Timer.Unpause` | main.py:277-279 | the timer is running |
| `Pages.Timer.Start` | main.py:246-271 | timer, button and flashing flag change exactly as `Timing.Press` says, using the current round's minutes, and the page stays valid |
| `Pages.Timer.Countdown` | main.py:281-300 | timer, button and flashing flag change exactly as `Timing.Tick` says, and the page stays valid |
| `Pages.GamePage.constructor` | main.py:364-437 | a new page has a valid cursor at the first round and a stopped timer loaded with that round's full length |
| `Pages.GamePage.FlashScreen` | main.py:439-451 | the flashing flag is raised |
| `Pages.GamePage.StopFlashing` | main.py:453-463 | the flashing flag is cleared |
| `Pages.GamePage.RefreshRoundValues` | main.py:525-540 | the timer is reloaded with the current round's length and labelled "Start Timer", with the pause and flashing flags left alone |
| `Pages.GamePage.NextRound` | main.py:542-555 | the cursor moves as `NextIndex` says (sticky on the last round), and the timer is a stopped, non-flashing clock loaded with the new current round |
| `Pages.GamePage.RestartGame` | main.py:557-570 | the cursor is back at index 0, and the timer is a stopped, non-flashing clock loaded with the first round |
| `Pages.GamePage.RestartTimer` | main.py:572-577 | the cursor is untouched, and the timer is a stopped, non-flashing clock loaded with the current round |
| `Editor.EditorRounds` | main.py:754-774 | the saved list has as many rounds as the count entry says (none if negative, the previously shown number if it does not parse), numbered 1..N whatever they were before |
| `Editor.SaveRounds` | main.py:760-774 | the save loop builds exactly `EditorRounds`: row i is `Round(i+1, time, small, big)` when all three entries exist and parse, and `Round(i+1, 0, 0, 0)` otherwise |
| `Editor.SaveShownRounds` | main.py:754-774 | saving the entries as the editor shows a list (`str()` of each field and of the count) gives the same rounds renumbered 1..N, and a list already numbered 1..N unchanged |
| `Editor.ParseRowAccepts` | main.py:841-843 | a row parses exactly when it has at least four fields and the first four are integers |
| `Editor.ImportRounds` | main.py:836-843 | the import loop returns exactly the result `ImportText` describes, stopping at the first bad row |
| `Editor.ParseRowText` | main.py:814 | a `num,time,s_blind,b_blind` line reads back as the round it was written from |
| `Editor.ExportLines` | main.py:811-814 | the exported text has exactly one row per round, in order |
| `Editor.ImportExport` | main.py:811-843 | importing an exported file gives back an equal list of rounds |
| `Editor.ImportRefusesBadRow` | main.py:838-843 | a file with a row of fewer than four fields, or a non-integer among a row's first four fields, fails as a whole |
| `Editor.PokerTime.constructor` | main.py:45 | the application starts with no committed rounds |
| `Editor.EditorPage.constructor` | main.py:592-597 | a "New Game" editor starts with no rounds; an "Edit Game" editor starts with the game's rounds |
| `Editor.EditorPage.Commit` | main.py:775-780 | from the landing page the list becomes the application's rounds; in a game it replaces the cursor's list with the index clamped, and the timer is reloaded as `Refresh` says; the editor holds the list too |
| `Editor.EditorPage.SaveGame` | main.py:744-781 | the list built from the entries, with the previous list's length as the fallback count, is committed as `Commit` says |
| `Editor.EditorPage.ExportGame` | main.py:783-814 | the entries are saved first; if a file was chosen, the text written is `ExportText` of the committed list |
| `Editor.EditorPage.ImportGame` | main.py:816-851 | the import succeeds exactly when the file parses (no file gives an empty list); a failed import changes nothing, and a successful one commits the rounds read |

## Left out

- Widgets, layout and colours are not modelled: `LandingPage`, `MenuBar`, `GameOverview`, the
  editor grid and `refresh_editor`, and the entry widgets. The editor's entries reach the model
  as strings passed to `SaveGame`.
- The "Round: n" and blind display strings (with their `{:,}` thousands separator) are not
  modelled. They only render `GameState`'s mirrored fields.
- The colour cycling of `flash_1`/`flash_2` is not modelled. Only the `is_flashing` flag is kept.
- The `root.after(1000, countdown)` scheduling is not modelled: one `Countdown` call is one tick.
  Pausing and resuming within a second leaves two tick chains alive in the real event loop, which
  counts down twice as fast. That is event-loop behaviour, outside this sequential model.
- File dialogs, `Path.home()`, `mkdir` and file I/O are not modelled. A chosen file is an
  `Option<string>` (None when the dialog is cancelled), the export choice is a flag, and the text
  written is returned.
- Rounds.GameState.UpdateRounds: requires a non-empty list. With an empty list `update_rounds`
  (main.py:215-217) first stores the empty list and the index `min(i, -1) = -1`, then fails reading
  `rounds[-1]`. The game is left half-updated: "next round" and "restart" keep failing, and the next
  good commit computes `min(-1, n - 1) = -1` and lands on the last round through Python's negative
  indexing. The model does not capture this broken state.
- Editor.EditorPage.Commit: requires a non-empty list in a running game, for the reason above; the
  half-updated game after an empty commit is not modelled.
- Editor.EditorPage.SaveGame: in a running game requires a count that builds at least one round;
  saving zero rounds (count "0" or a negative count) leaves the game half-updated as above, and is
  not modelled.
- Editor.EditorPage.ExportGame: saves first, so it has the same requirement as `SaveGame` in a
  running game.
- Editor.EditorPage.ImportGame: in a running game requires a file that yields at least one round.
  Cancelling the file dialog during a game, or importing an empty file, commits an empty list and
  leaves the game half-updated as above; that case is not modelled.
- `csv.reader`'s quoting, dialects and line-ending translation are not modelled. Rows are the
  text split at newlines, dropping the empty piece after a final newline, and fields are rows
  split at commas.
- Strings.ParseInt: accepts only an optional `+`/`-` sign and ASCII digits. Python's `int()`
  also accepts surrounding whitespace, underscores between digits and other Unicode digits, so a
  few entries the program would read as numbers are refused here.
- Timing.FormatTime: the program computes the minutes as `math.floor(t / 60)` in floating point.
  The model uses exact integer division, which gives the same result for any count a clock can
  reach (below 2^53 seconds).
- `GamePage.__init__`'s landing-page teardown (`is_landing_page`, building nothing when no rounds
  were committed) and the "Start Game" button are not modelled. The page constructor takes the
  committed rounds.
- Rounds.GameState.constructor: requires a non-empty list, and so does Pages.GamePage.constructor.
  Pressing "Start Game" after saving an empty list tears the landing page down (main.py:361-363)
  and then fails in `GameState([])` (main.py:366) reading `rounds[0]` (main.py:167); that failure
  is not modelled.
- `EditorPage`'s `from_landing_page` flag is read from which context the editor was opened on
  (the application before a game, the game page after). Both ways of opening the editor in the
  program pair them this way.
- `resource_path`, image loading, `sys.exit` and `Round.__str__` are not modelled. They are
  foreign calls or unused text.
