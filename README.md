# Labyrinth command interpreter

A model of the command interpreter of the console's labyrinth minigame,
`commands_handler` and `display_help` in `src/games/laby/commands.rs`.

Each frame, the interpreter drains the queue of commands typed into the
console. It handles each command in turn:

1. It trims the command and splits it on single spaces.
2. It echoes the command as `> <command>`, unless the verb is `clear`.
3. It dispatches on the first word to one of nine verbs: `clear`, `help`,
   `ragequit`, `tutorial`, `infos`, `continue`, `skip`, `go` and `attack`.
   Any other word gets a "didn't understand" message.

Each verb changes the labyrinth record, asks the turn generator for a new
room, or sends fixed messages to the console writer.

The model has five modules:

- `RustStr` (`rust_str.dfy`): the parts of Rust's string library the
  interpreter relies on, written out. These are `trim` (Unicode
  White_Space), `split(' ')` (empty pieces kept), `parse::<usize>()` (an
  optional `+`, at least one digit, refusal above 2^64 - 1 on a 64-bit
  target) and decimal
  formatting.
- `LabyData` (`laby_data.dfy`): the state.
  - The labyrinth record, the console history, the console-games data and
    the turn generator are classes whose fields are updated in place.
  - The `Laby` and `Session` values are their snapshots.
  - `Env` holds the collaborators the interpreter calls but does not
    define: `new_turn`, `Movement::from_string` and `LabyrinthData::reset`.
- `LabyHelp` (`laby_help.dfy`): `display_help` as a function of the page
  number, built from its two lists of entries.
- `LabyCommands` (`laby_commands.dfy`): the interpreter in two forms.
  - As values: `Step` handles one command and `Run` a batch.
  - In place: `HandleCommand`, `RunVerb` and `CommandsHandler` update the
    resources.

  The methods are proved to produce exactly the state and messages of
  `Step` and `Run`. The batch loop itself is `Drain`, stated for any
  per-command step.
- `LabyProperties` (`laby_properties.dfy`): what every verb does, what the
  help pages document, and how batches stop.

Messages sent to the console writer are `Message` values, one constructor
per message the interpreter can send. `LabyCommands.Text` gives each one's
exact string.

Three `return`s inside the loop end the whole batch, not only the current
command. The model keeps all three as the `StopBatch` outcome:

- an empty command;
- `go` with no argument;
- `go` with a direction that parses, whether or not there is a path that
  way.

A `help` whose argument is not a `usize` reaches an `unwrap` that panics.
The model keeps this as the `Panic` outcome, which also ends the batch.

The code does not treat an empty command as a command to skip: its
`return` leaves `commands_handler` itself, so no command queued after it is
handled in that call. The model follows the code and treats those commands
as dropped (see "Left out" for the assumption about the event reader).

## Model

| member | source | states |
|---|---|---|
| RustStr.TrimStart | src/games/laby/commands.rs:20 | the result is a suffix of the input; everything removed is whitespace; the result does not start with whitespace |
| RustStr.TrimEnd | src/games/laby/commands.rs:20 | the result is a prefix of the input; everything removed is whitespace; the result does not end with whitespace |
| RustStr.Trim | src/games/laby/commands.rs:20 | `trim()` is the infix left after removing whitespace at both ends; both of its ends are non-whitespace |
| RustStr.Split | src/games/laby/commands.rs:20 | `split(' ')` always yields at least one piece, even for an empty string |
| RustStr.SplitPieces | src/games/laby/commands.rs:20 | no piece of a split contains the separator |
| RustStr.JoinSplit | src/games/laby/commands.rs:20 | joining the pieces of a split with the separator gives back the original string |
| RustStr.SplitJoin | src/games/laby/commands.rs:20 | splitting a join of separator-free pieces gives back exactly those pieces, empty ones included |
| RustStr.NatToString | src/games/laby/commands.rs:131 | `{}` formatting of a number gives non-empty decimal digits with no leading zero, denoting that number |
| RustStr.ParseUsize | src/games/laby/commands.rs:35 | `parse::<usize>()` succeeds exactly on an optional `+` followed by at least one digit whose value fits in 64 bits, and then yields that value (leading zeros allowed) |
| RustStr.ParseDigits | src/games/laby/commands.rs:35 | any non-empty digit string, with or without a `+`, parses to its value when it fits and is refused otherwise |
| RustStr.ParsePadded | src/games/laby/commands.rs:35 | a numeral with any number of leading zeros, with or without a `+`, parses to its value when it fits in a `usize` and is refused otherwise, so `help 01` shows page 1 |
| RustStr.ParseFormatted | src/games/laby/commands.rs:35 | parsing reads back every formatted `usize`, with or without a leading `+` |
| RustStr.ParseOverflow | src/games/laby/commands.rs:35 | a canonical numeral above the 64-bit range is refused, not wrapped, with or without a leading `+` (padded numerals: `ParsePadded`) |
| LabyData.LabyrinthData.Reset | src/games/laby/commands.rs:41 | `laby_data.reset()` replaces the record by the collaborator's reset of it |
| LabyData.ConsoleGamesData.Ragequit | src/games/laby/commands.rs:42 | `cg_data.ragequit` is recorded exactly once per call |
| LabyData.TurnGenerator.NewTurn | src/games/laby/commands.rs:54 | `new_turn` replaces the record by the next room and counts the call |
| LabyHelp.DisplayHelp | src/games/laby/commands.rs:112-134 | defines `display_help(page)` as header, underline, the page's entry lines and footer; `HelpLayout` and `HelpPages` state its shape and contents |
| LabyHelp.PageEntries | src/games/laby/commands.rs:118-129 | defines the `if page_number == 1` choice between the two entry lists; `HelpPages` states which verbs each page lists |
| LabyHelp.Footer | src/games/laby/commands.rs:131 | the footer is `\n============(`, the page number, then `/2)===========\n`; the number between them reads back, through `parse::<usize>()`, as the page that was asked for |
| LabyHelp.HelpLayout | src/games/laby/commands.rs:112-134 | every help page is the header and underline, then the page's entry lines, then the footer `(n/2)` naming the requested page |
| LabyHelp.HelpPages | src/games/laby/commands.rs:118-129 | page 1 lists help, clear, tutorial, go, ragequit and infos; every other number, 0 included, lists continue, skip and attack |
| LabyCommands.Text | src/games/laby/commands.rs:24-26 | defines the exact string of every message: the echo (lines 24-26) and the texts of lines 40, 58, 65, 73-74, 84, 88-89, 94, 100-101 and 106; the properties speak of the `Message` values it renders |
| LabyCommands.ParseVerb | src/games/laby/commands.rs:29-107 | defines which arm of `match args[0]` a first word selects, the catch-all at line 105 included; `VerbRoundTrip` states it inverts `VerbWord` |
| LabyCommands.Echo | src/games/laby/commands.rs:24-25 | defines the echo as the trimmed command behind `> `; `StepFrame` states it comes first |
| LabyCommands.Dispatch | src/games/laby/commands.rs:29-108 | defines the arms of the `match`; `DispatchFrame` and the per-verb lemmas state what each does |
| LabyCommands.Step | src/games/laby/commands.rs:16-108 | defines one pass of the loop: the empty-command `return`, the echo and the dispatch; `StepFrame` and the per-verb lemmas state what it does |
| LabyCommands.Drain | src/games/laby/commands.rs:16-18 | defines the loop for any per-command step, ending at the first command that does not proceed (the `return`s of lines 18, 75 and 86); `DrainAppend`, `DrainStops` and `DrainBounds` state its properties |
| LabyCommands.Run | src/games/laby/commands.rs:7-110 | defines a batch as `Drain` of `Step`; `CommandsHandler` is proved equal to it and the batch lemmas state its properties |
| LabyCommands.ClearWord | src/games/laby/commands.rs:22 | only the exact word `clear` selects the `clear` arm, so the echo test and the dispatch agree |
| LabyCommands.Args | src/games/laby/commands.rs:20 | the argument vector of any command has at least one word, so `args[0]` exists |
| LabyCommands.DispatchFrame | src/games/laby/commands.rs:29-108 | only `clear` touches the history; only `ragequit` calls the console-games data; at most one turn is generated; the arm stops the batch iff it is `go` with no argument or a parseable direction; it panics iff it is `help` with an unparsable page |
| LabyCommands.StepFrame | src/games/laby/commands.rs:16-30 | an empty command stops the batch with no output and no change; otherwise the first message is the echo of the trimmed command, except for `clear`, which sends nothing and only empties the history |
| LabyCommands.DrainAppend | src/games/laby/commands.rs:16 | draining two queues back to back is draining their concatenation, unless the first stopped |
| LabyCommands.DrainStops | src/games/laby/commands.rs:16-18 | once a command does not proceed, nothing queued behind it is handled |
| LabyCommands.HandleCommand | src/games/laby/commands.rs:17-108 | one pass of the loop body, in place, leaves exactly the state and sends exactly the messages of `Step` |
| LabyCommands.RunVerb | src/games/laby/commands.rs:29-108 | the in-place arms of the `match` leave exactly the state and send exactly the messages of `Dispatch` |
| LabyCommands.CommandsHandler | src/games/laby/commands.rs:7-110 | draining the queue in place gives the final state and message sequence of `Run`, and panics exactly when `Run` does |
| LabyProperties.ArgsOfWords | src/games/laby/commands.rs:20 | words without whitespace, the first and last non-empty, joined by single spaces, are read back as exactly those words, empty middle words included |
| LabyProperties.ArgsOfWord | src/games/laby/commands.rs:20-26 | a single word is a command with no argument, echoed as typed |
| LabyProperties.VerbRoundTrip | src/games/laby/commands.rs:29-107 | the arm a word selects gives back that word, and each of the nine verbs is selected by its own word |
| LabyProperties.KnownVerbsDocumented | src/games/laby/commands.rs:118-128 | every verb the interpreter dispatches on is listed on one of the two help pages |
| LabyProperties.DocumentedVerbsKnown | src/games/laby/commands.rs:118-128 | every verb the help pages list is one the interpreter dispatches on |
| LabyProperties.HelpCommand | src/games/laby/commands.rs:31-38 | `help` changes no state; it shows page 1 with no argument and page n for a parsable n; an unparsable argument panics after the echo |
| LabyProperties.RagequitCommand | src/games/laby/commands.rs:39-43 | `ragequit` sends the quitting message, resets the record, and calls the console-games ragequit once |
| LabyProperties.TutorialCommand | src/games/laby/commands.rs:44-47 | `tutorial` sets the Tutorial state and clears only `has_shown_turn_infos`; `wait_for_continue`, the room and the rest are kept |
| LabyProperties.InfosCommand | src/games/laby/commands.rs:48-50 | `infos` clears `has_shown_turn_infos` and nothing else |
| LabyProperties.ContinueCommand | src/games/laby/commands.rs:51-60 | in the tutorial, `continue` switches to Exploring, generates one turn and clears both flags; otherwise it only says there is nothing to continue |
| LabyProperties.SkipCommand | src/games/laby/commands.rs:61-70 | while exploring an enemy or item room, `skip` announces it, generates one turn and clears both flags; otherwise it does nothing |
| LabyProperties.GoCommand | src/games/laby/commands.rs:71-91 | `go`: with no argument, the two usage messages and a stopped batch; with a direction that has a path, one turn, cleared flags, no message and a stopped batch; with a direction that has no path, the no-path message and a stopped batch; with an unparsable direction, two messages and the batch goes on; in every case except the path, nothing changes |
| LabyProperties.AttackCommand | src/games/laby/commands.rs:92-103 | in an enemy room, whatever the game state, `attack` sends one message, takes exactly 1 from the enemy's health and clears both flags; elsewhere it sends the two wall messages and changes nothing |
| LabyProperties.UnknownCommand | src/games/laby/commands.rs:105-107 | any other first word gets exactly one message naming it, and changes nothing |
| LabyProperties.HelpPageCommand | src/games/laby/commands.rs:35 | `help n`, with n written in decimal, shows page n and the batch goes on |
| LabyProperties.HelpDefaultsToFirstPage | src/games/laby/commands.rs:32-33 | `help` alone echoes itself and shows page 1, the page `help 1` shows, and changes nothing |
| LabyProperties.DrainBounds | src/games/laby/commands.rs:16-18 | for any step that never proceeds on an empty command, never lowers ragequits and generates at most one turn, a drained queue held no empty command, and turns grow by at most one per command |
| LabyProperties.RunBounds | src/games/laby/commands.rs:16-108 | a batch that runs to its end held no empty command; turns grow by at most one per command; ragequits never decrease |
| LabyProperties.HistoryKeptWithoutClear | src/games/laby/commands.rs:30 | a batch with no `clear` leaves the console history as it was |
| LabyProperties.RunAppend | src/games/laby/commands.rs:16 | running two batches back to back is running their concatenation, unless the first stopped |
| LabyProperties.StoppedBatchIgnoresRest | src/games/laby/commands.rs:18 | after a command that stops the batch, no later command has any effect |
| LabyProperties.EmptyCommandEndsBatch | src/games/laby/commands.rs:18 | an empty command sends nothing, changes nothing, and drops every command after it |
| LabyProperties.GoEndsBatch | src/games/laby/commands.rs:72-86 | `go` with no argument, or with any parseable direction, drops every command after it |
| LabyProperties.RepeatedAttacks | src/games/laby/commands.rs:92-98 | n copies of an `attack` command in an enemy room take exactly n from the enemy's health, with nothing stopping at zero; they send n echo/attack pairs and leave the room, state, directions, history and turns as they were |

## Left out

- The Bevy plumbing is not modelled: the event reader and writer, and `Res`/`ResMut`. The queue is a sequence of strings. The messages sent are a returned sequence of `Message` values.
- `new_turn`, `Movement::from_string` and `LabyrinthData::reset` are defined outside this file and are not part of this model. They are function values in `Env`.
  - `new_turn` also receives how many turns were generated before. That count stands for the randomness and resource file it reads.
- `can_go_direction` is modelled as membership in the set `nextDirections`.
- `ConsoleGamesData::ragequit` and `VulnerabilityResource` are not part of this model. Only the fact that `ragequit` was called is recorded, as a counter.
- The enemy's health is an `f32` in the source. It is an unbounded integer here, decremented by exactly 1. Float rounding and infinities are not modelled.
- The room types other than `Enemy` and `Item` are merged into one, `Narrative`, because the interpreter only ever tests for those two.
- A `panic!` does not return; here it is an outcome that ends the batch with the messages sent so far.
- The exact strings of the messages are given by `LabyCommands.Text`. The properties speak of `Message` values, not of their text.
- LabyHelp.HelpLayout: states the header, body and footer of a page. The character-level layout is stated only by the definitions of `Header`, `Underline`, `EntryLine` and `Footer`.
- RustStr.ParseUsize: `usize` is taken to be 64 bits wide. On a 32-bit target such as wasm32, `parse::<usize>()` refuses numbers from 2^32 on, so `help` with such a page panics in the source where the model shows a page.
- The console's own rendering of its message history is not modelled.
- The model assumes that creating the event reader's iterator marks every pending command as read, so that commands after an early `return` are lost rather than delivered in the next frame. The Bevy version is not part of this model; in releases whose reader advances one event at a time, those commands would come back in the next call.
