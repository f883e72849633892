/** The labyrinth's command interpreter, `commands_handler`.

    `Step` and `Run` say, as values, what one command and a whole batch of
    commands do; `HandleCommand` and `CommandsHandler` do it in place on the
    game's resources and are proved to agree with them. */
module LabyCommands {
  import opened RustStr
  import opened LabyData
  import opened LabyHelp

  // ---------------------------------------------------------------------
  // Messages sent to the console writer

  /** Each `PrintConsoleEvent` the interpreter can send; `Text` gives the
      exact string it carries. */
  datatype Message =
    | Typed(command: string)
    | HelpText(page: usize)
    | Quitting
    | NothingToContinue
    | SkippingRoom
    | NoDirection
    | GoUsage
    | NoPath
    | InvalidDirection
    | Attacking
    | PunchWall
    | NothingToPunch
    | NotUnderstood(verb: string)

  function Text(m: Message): string {
    match m
    case Typed(command) => "> " + command
    case HelpText(page) => DisplayHelp(page)
    case Quitting => "Quitting Labyrinth..."
    case NothingToContinue => "There is nothing to continue..."
    case SkippingRoom => "Skipping room..."
    case NoDirection => "You specified no direction..."
    case GoUsage => "Usage: go <direction>, valid: (FORWARD, LEFT, RIGHT)"
    case NoPath => "There is no path in this direction..."
    case InvalidDirection => "Please enter a valid direction..."
    case Attacking => "Attacking the enemy for 1 (one) damage"
    case PunchWall => "You punch... uh... the wall!"
    case NothingToPunch => "In fustration, you see there is nothing else to punch here!"
    case NotUnderstood(verb) => "I didn't understand the command: \"" + verb + "\""
  }

  // ---------------------------------------------------------------------
  // Verbs

  /** The arms of `match args[0]`: the nine verbs the interpreter knows, and
      the catch-all for any other first word. */
  datatype Verb = Clear | Help | Ragequit | TutorialVerb | Infos | Continue | Skip | Go | Attack
                | Unknown(word: string)

  /** The text that selects each arm. */
  function VerbWord(v: Verb): string {
    match v
    case Clear => "clear"
    case Help => "help"
    case Ragequit => "ragequit"
    case TutorialVerb => "tutorial"
    case Infos => "infos"
    case Continue => "continue"
    case Skip => "skip"
    case Go => "go"
    case Attack => "attack"
    case Unknown(w) => w
  }

  /** Which arm of `match args[0]` a first word selects (exact, case-sensitive). */
  function ParseVerb(w: string): Verb {
    if w == "clear" then Clear
    else if w == "help" then Help
    else if w == "ragequit" then Ragequit
    else if w == "tutorial" then TutorialVerb
    else if w == "infos" then Infos
    else if w == "continue" then Continue
    else if w == "skip" then Skip
    else if w == "go" then Go
    else if w == "attack" then Attack
    else Unknown(w)
  }

  /** Only the word `clear` selects `Clear`. */
  lemma ClearWord(w: string)
    ensures ParseVerb(w) == Clear <==> w == "clear"
  {
  }

  // ---------------------------------------------------------------------
  // One command, as a value

  /** Whether the batch goes on after a command, stops early (the `return`s
      of the source), or dies on the `unwrap` of an unparsable help page. */
  datatype Outcome = Proceed | StopBatch | Panic

  /** The session after a command or a batch, what it sent to the console
      writer, and how it ended. */
  datatype Handled = Handled(session: Session, out: seq<Message>, outcome: Outcome)

  /** `cmd.trim().split(' ')`: never empty; the first word is the verb. */
  function Args(cmd: string): (args: seq<string>)
    ensures |args| >= 1
  {
    Split(Trim(cmd), ' ')
  }

  /** The verb of a command. */
  function VerbOf(cmd: string): Verb {
    ParseVerb(Args(cmd)[0])
  }

  /** The echo of what the user typed. */
  function Echo(cmd: string): Message {
    Typed(Trim(cmd))
  }

  function ClearFlags(l: Laby): Laby {
    l.(hasShownTurnInfos := false, waitForContinue := false)
  }

  /** `new_turn` followed by clearing both display flags, as every handler
      that advances a turn does. */
  function Advance(env: Env, s: Session): Session {
    s.(laby := ClearFlags(env.newTurn(s.laby, s.turns)), turns := s.turns + 1)
  }

  /** The `match args[0]` of `commands_handler`, without the echo. */
  function Dispatch(env: Env, s: Session, args: seq<string>): Handled
    requires |args| >= 1
  {
    var l := s.laby;
    match ParseVerb(args[0])
    case Clear =>
      Handled(s.(messages := []), [], Proceed)
    case Help =>
      if |args| == 1 then Handled(s, [HelpText(1)], Proceed)
      else (
        match ParseUsize(args[1])
        case None => Handled(s, [], Panic)
        case Some(page) => Handled(s, [HelpText(page)], Proceed))
    case Ragequit =>
      Handled(s.(laby := env.reset(l), ragequits := s.ragequits + 1), [Quitting], Proceed)
    case TutorialVerb =>
      Handled(s.(laby := l.(gameState := Tutorial, hasShownTurnInfos := false)), [], Proceed)
    case Infos =>
      Handled(s.(laby := l.(hasShownTurnInfos := false)), [], Proceed)
    case Continue =>
      if l.gameState == Tutorial then
        Handled(Advance(env, s.(laby := l.(gameState := Exploring))), [], Proceed)
      else Handled(s, [NothingToContinue], Proceed)
    case Skip =>
      if l.gameState == Exploring && (l.roomType == Enemy || l.roomType == Item) then
        Handled(Advance(env, s), [SkippingRoom], Proceed)
      else Handled(s, [], Proceed)
    case Go =>
      if |args| == 1 then Handled(s, [NoDirection, GoUsage], StopBatch)
      else (
        match env.parseMovement(args[1])
        case Some(m) =>
          if m in l.nextDirections then Handled(Advance(env, s), [], StopBatch)
          else Handled(s, [NoPath], StopBatch)
        case None => Handled(s, [InvalidDirection, GoUsage], Proceed))
    case Attack =>
      if l.roomType == Enemy then
        Handled(s.(laby := ClearFlags(l.(enemyHealth := l.enemyHealth - 1))), [Attacking], Proceed)
      else Handled(s, [PunchWall, NothingToPunch], Proceed)
    case Unknown(verb) =>
      Handled(s, [NotUnderstood(verb)], Proceed)
  }

  /** One queued command: an empty one stops the batch silently; any other
      is echoed (unless its verb is `clear`) and dispatched. */
  function Step(env: Env, s: Session, cmd: string): Handled {
    if cmd == "" then Handled(s, [], StopBatch)
    else
      var args := Args(cmd);
      var d := Dispatch(env, s, args);
      Handled(d.session, (if ParseVerb(args[0]) != Clear then [Echo(cmd)] else []) + d.out, d.outcome)
  }

  /** Only `clear` touches the history, only `ragequit` the console-games
      data, at most one turn is generated, and only `go` and an unparsable
      help page end the batch. */
  lemma DispatchFrame(env: Env, s: Session, args: seq<string>)
    requires |args| >= 1
    ensures var r := Dispatch(env, s, args);
      (ParseVerb(args[0]) == Clear ==> r == Handled(s.(messages := []), [], Proceed)) &&
      r.session.messages == (if ParseVerb(args[0]) == Clear then [] else s.messages) &&
      r.session.ragequits == s.ragequits + (if ParseVerb(args[0]) == Ragequit then 1 else 0) &&
      (r.session.turns == s.turns || r.session.turns == s.turns + 1) &&
      (r.outcome == StopBatch <==>
        ParseVerb(args[0]) == Go && (|args| == 1 || env.parseMovement(args[1]).Some?)) &&
      (r.outcome == Panic <==>
        ParseVerb(args[0]) == Help && |args| > 1 && ParseUsize(args[1]).None?)
  {
  }

  /** What every command does, whatever its verb: an empty command stops the
      batch with no output and no change; any other command's first message
      is its echo, except for `clear`, which only empties the history. */
  lemma StepFrame(env: Env, s: Session, cmd: string)
    ensures var r := Step(env, s, cmd);
      (cmd == "" ==> r == Handled(s, [], StopBatch)) &&
      (cmd != "" && VerbOf(cmd) != Clear ==> r.out != [] && r.out[0] == Echo(cmd)) &&
      (cmd != "" && VerbOf(cmd) == Clear ==> r == Handled(s.(messages := []), [], Proceed)) &&
      (r.session.messages == s.messages || (cmd != "" && VerbOf(cmd) == Clear)) &&
      r.session.ragequits == s.ragequits + (if cmd != "" && VerbOf(cmd) == Ragequit then 1 else 0) &&
      (r.session.turns == s.turns || r.session.turns == s.turns + 1) &&
      (r.outcome == StopBatch <==>
        cmd == "" || (VerbOf(cmd) == Go && (|Args(cmd)| == 1 || env.parseMovement(Args(cmd)[1]).Some?))) &&
      (r.outcome == Panic <==>
        cmd != "" && VerbOf(cmd) == Help && |Args(cmd)| > 1 && ParseUsize(Args(cmd)[1]).None?)
  {
    if cmd != "" {
      DispatchFrame(env, s, Args(cmd));
    }
  }

  /** The loop of `commands_handler`, whatever each command does: commands
      are handled in queue order until the queue is empty or one of them
      does not proceed, and their messages are sent in that order. */
  function Drain(step: (Session, string) -> Handled, s: Session, cmds: seq<string>): Handled
    decreases |cmds|
  {
    if cmds == [] then Handled(s, [], Proceed)
    else
      var first := step(s, cmds[0]);
      if first.outcome != Proceed then first
      else
        var rest := Drain(step, first.session, cmds[1..]);
        Handled(rest.session, first.out + rest.out, rest.outcome)
  }

  /** Draining a queue that is the concatenation of two is draining the
      first, then, if it did not stop, the second. */
  lemma {:induction false} DrainAppend(step: (Session, string) -> Handled, s: Session,
                                       xs: seq<string>, ys: seq<string>)
    ensures var a := Drain(step, s, xs);
      Drain(step, s, xs + ys) ==
        if a.outcome != Proceed then a
        else
          var b := Drain(step, a.session, ys);
          Handled(b.session, a.out + b.out, b.outcome)
    decreases |xs|
  {
    if xs == [] {
      assert xs + ys == ys;
    } else {
      assert (xs + ys)[0] == xs[0];
      assert (xs + ys)[1..] == xs[1..] + ys;
      var first := step(s, xs[0]);
      if first.outcome == Proceed {
        DrainAppend(step, first.session, xs[1..], ys);
        var a := Drain(step, first.session, xs[1..]);
        if a.outcome == Proceed {
          var b := Drain(step, a.session, ys);
          assert first.out + (a.out + b.out) == (first.out + a.out) + b.out;
        }
      }
    }
  }

  /** Once a command does not proceed, whatever is queued behind it is
      never handled. */
  lemma DrainStops(step: (Session, string) -> Handled, s: Session,
                   xs: seq<string>, cmd: string, ys: seq<string>)
    requires Drain(step, s, xs).outcome == Proceed
    requires step(Drain(step, s, xs).session, cmd).outcome != Proceed
    ensures Drain(step, s, xs + [cmd] + ys) == Drain(step, s, xs + [cmd])
    ensures Drain(step, s, xs + [cmd]).outcome != Proceed
  {
    DrainAppend(step, s, xs, [cmd] + ys);
    DrainAppend(step, s, xs, [cmd]);
    assert xs + [cmd] + ys == xs + ([cmd] + ys);
    assert ([cmd] + ys)[0] == cmd;
  }

  /** A batch of commands, as `commands_handler` runs it. */
  function Run(env: Env, s: Session, cmds: seq<string>): Handled {
    Drain((t, cmd) => Step(env, t, cmd), s, cmds)
  }

  /** One unfolding of `Run`. */
  lemma RunUnfold(env: Env, s: Session, cmds: seq<string>)
    requires cmds != []
    ensures var first := Step(env, s, cmds[0]);
      Run(env, s, cmds) ==
        if first.outcome != Proceed then first
        else
          var rest := Run(env, first.session, cmds[1..]);
          Handled(rest.session, first.out + rest.out, rest.outcome)
  {
  }

  // ---------------------------------------------------------------------
  // The same, in place on the game's resources

  /** The body of `commands_handler`'s loop, for one command. */
  method HandleCommand(env: Env, cmd: string, laby: LabyrinthData, console: ConsoleData,
                       games: ConsoleGamesData, gen: TurnGenerator)
    returns (out: seq<Message>, outcome: Outcome)
    modifies laby, console, games, gen
    ensures Handled(Snapshot(laby, console, games, gen), out, outcome) ==
      Step(env, old(Snapshot(laby, console, games, gen)), cmd)
  {
    if cmd == "" {
      return [], StopBatch;
    }
    var args := Args(cmd);
    ClearWord(args[0]);
    out := [];
    if args[0] != "clear" {
      out := [Typed(Trim(cmd))];
    }
    ghost var before := Snapshot(laby, console, games, gen);
    var sent;
    sent, outcome := RunVerb(env, args, laby, console, games, gen);
    assert Step(env, before, cmd) == Handled(Snapshot(laby, console, games, gen), out + sent, outcome);
    out := out + sent;
  }

  /** The arms of `match args[0]`: each changes the resources in place and
      sends its messages. */
  method RunVerb(env: Env, args: seq<string>, laby: LabyrinthData, console: ConsoleData,
                 games: ConsoleGamesData, gen: TurnGenerator)
    returns (out: seq<Message>, outcome: Outcome)
    requires |args| >= 1
    modifies laby, console, games, gen
    ensures Handled(Snapshot(laby, console, games, gen), out, outcome) ==
      Dispatch(env, old(Snapshot(laby, console, games, gen)), args)
  {
    out, outcome := [], Proceed;
    match ParseVerb(args[0])
    case Clear =>
      console.messages := [];
    case Help =>
      if |args| == 1 {
        out := [HelpText(1)];
      } else {
        var page := ParseUsize(args[1]);
        if page.None? {
          return [], Panic;
        }
        out := [HelpText(page.value)];
      }
    case Ragequit =>
      out := [Quitting];
      laby.Reset(env);
      games.Ragequit();
    case TutorialVerb =>
      laby.gameState := Tutorial;
      laby.hasShownTurnInfos := false;
    case Infos =>
      laby.hasShownTurnInfos := false;
    case Continue =>
      if laby.gameState == Tutorial {
        laby.gameState := Exploring;
        gen.NewTurn(env, laby);
        laby.hasShownTurnInfos := false;
        laby.waitForContinue := false;
      } else {
        out := [NothingToContinue];
      }
    case Skip =>
      if laby.gameState == Exploring && (laby.roomType == Enemy || laby.roomType == Item) {
        out := [SkippingRoom];
        gen.NewTurn(env, laby);
        laby.hasShownTurnInfos := false;
        laby.waitForContinue := false;
      }
    case Go =>
      if |args| == 1 {
        return [NoDirection, GoUsage], StopBatch;
      }
      var movement := env.parseMovement(args[1]);
      if movement.Some? {
        if movement.value in laby.nextDirections {
          gen.NewTurn(env, laby);
          laby.hasShownTurnInfos := false;
          laby.waitForContinue := false;
        } else {
          out := [NoPath];
        }
        return out, StopBatch;
      } else {
        out := [InvalidDirection, GoUsage];
      }
    case Attack =>
      if laby.roomType == Enemy {
        out := [Attacking];
        laby.enemyHealth := laby.enemyHealth - 1;
        laby.hasShownTurnInfos := false;
        laby.waitForContinue := false;
      } else {
        out := [PunchWall, NothingToPunch];
      }
    case Unknown(verb) =>
      out := [NotUnderstood(verb)];
  }

  /** `commands_handler`: drains the queue in order, sending every message to
      the console writer, and returns early where the source does. */
  method CommandsHandler(env: Env, cmds: seq<string>, laby: LabyrinthData, console: ConsoleData,
                         games: ConsoleGamesData, gen: TurnGenerator)
    returns (out: seq<Message>, panicked: bool)
    modifies laby, console, games, gen
    ensures var r := Run(env, old(Snapshot(laby, console, games, gen)), cmds);
      Snapshot(laby, console, games, gen) == r.session && out == r.out && panicked == (r.outcome == Panic)
  {
    out, panicked := [], false;
    ghost var start := Snapshot(laby, console, games, gen);
    var i := 0;
    while i < |cmds|
      invariant 0 <= i <= |cmds|
      invariant var rest := Run(env, Snapshot(laby, console, games, gen), cmds[i..]);
        Run(env, start, cmds) == Handled(rest.session, out + rest.out, rest.outcome)
    {
      ghost var before, done := Snapshot(laby, console, games, gen), out;
      RunUnfold(env, before, cmds[i..]);
      var sent, outcome := HandleCommand(env, cmds[i], laby, console, games, gen);
      out := out + sent;
      if outcome == StopBatch {
        return;
      } else if outcome == Panic {
        panicked := true;
        return;
      }
      assert cmds[i..][1..] == cmds[i + 1..];
      assert done + (sent + Run(env, Snapshot(laby, console, games, gen), cmds[i + 1..]).out) ==
             out + Run(env, Snapshot(laby, console, games, gen), cmds[i + 1..]).out;
      i := i + 1;
    }
  }
}
