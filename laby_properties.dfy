/** What the labyrinth's command interpreter promises, command by command
    and over whole batches. */
module LabyProperties {
  import opened RustStr
  import opened LabyData
  import opened LabyHelp
  import opened LabyCommands

  // ---------------------------------------------------------------------
  // How a command line is cut into words

  /** A string that starts and ends with a non-whitespace character (or is
      empty) is its own `trim()`. */
  lemma TrimmedIsTrim(s: string)
    requires s != [] ==> !IsWhitespace(s[0]) && !IsWhitespace(s[|s| - 1])
    ensures Trim(s) == s
  {
    if s != [] {
      assert TrimStart(s) == s;
      assert TrimEnd(s) == s;
    }
  }

  /** A join ends with the last character of its last piece. */
  lemma {:induction false} JoinLast(words: seq<string>, sep: char)
    requires |words| >= 1 && words[|words| - 1] != []
    ensures var j, w := Join(words, sep), words[|words| - 1];
      j != [] && j[|j| - 1] == w[|w| - 1]
    decreases |words|
  {
    if |words| > 1 {
      JoinLast(words[1..], sep);
      assert words[1..][|words| - 2] == words[|words| - 1];
    }
  }

  predicate NoWhitespace(w: string) {
    forall i :: 0 <= i < |w| ==> !IsWhitespace(w[i])
  }

  /** A join whose outer words are non-empty and free of whitespace is its
      own `trim()`. */
  lemma JoinTrimmed(words: seq<string>)
    requires |words| >= 1 && words[0] != [] && words[|words| - 1] != []
    requires NoWhitespace(words[0]) && NoWhitespace(words[|words| - 1])
    ensures Trim(Join(words, ' ')) == Join(words, ' ')
  {
    var j, first, last := Join(words, ' '), words[0], words[|words| - 1];
    JoinLast(words, ' ');
    if |words| == 1 {
      assert j == first;
    } else {
      assert j == first + ([' '] + Join(words[1..], ' '));
    }
    assert j[0] == first[0];
    assert j[|j| - 1] == last[|last| - 1];
    TrimmedIsTrim(j);
  }

  /** Words without whitespace, the outer two non-empty, joined by single
      spaces, are read back as exactly those words. */
  lemma ArgsOfWords(words: seq<string>)
    requires |words| >= 1 && words[0] != [] && words[|words| - 1] != []
    requires forall i :: 0 <= i < |words| ==> NoWhitespace(words[i])
    ensures Args(Join(words, ' ')) == words
  {
    JoinTrimmed(words);
    forall i | 0 <= i < |words|
      ensures ' ' !in words[i]
    {
      assert NoWhitespace(words[i]);
    }
    SplitJoin(words, ' ');
  }

  /** A single word without whitespace is a command with no arguments, and
      is echoed as typed. */
  lemma ArgsOfWord(w: string)
    requires w != [] && NoWhitespace(w)
    ensures Args(w) == [w] && Echo(w) == Typed(w)
  {
    ArgsOfWords([w]);
    TrimmedIsTrim(w);
  }

  // ---------------------------------------------------------------------
  // Verbs

  /** Every first word selects the arm named by it, and every known verb is
      selected by its own word. */
  lemma VerbRoundTrip(w: string, v: Verb)
    ensures VerbWord(ParseVerb(w)) == w
    ensures !v.Unknown? ==> ParseVerb(VerbWord(v)) == v
  {
  }

  /** Every verb the interpreter dispatches on is documented on one of the
      two help pages. */
  lemma KnownVerbsDocumented(v: Verb)
    requires !v.Unknown?
    ensures VerbWord(v) in EntryVerbs(PageEntries(1)) || VerbWord(v) in EntryVerbs(PageEntries(2))
  {
    HelpPages(1);
    HelpPages(2);
    var first, second := EntryVerbs(PageEntries(1)), EntryVerbs(PageEntries(2));
    match v
    case Help => assert first[0] == "help";
    case Clear => assert first[1] == "clear";
    case TutorialVerb => assert first[2] == "tutorial";
    case Go => assert first[3] == "go";
    case Ragequit => assert first[4] == "ragequit";
    case Infos => assert first[5] == "infos";
    case Continue => assert second[0] == "continue";
    case Skip => assert second[1] == "skip";
    case Attack => assert second[2] == "attack";
  }

  /** Every word the help pages document is a verb the interpreter
      dispatches on. */
  lemma DocumentedVerbsKnown(page: usize, i: nat)
    requires i < |EntryVerbs(PageEntries(page))|
    ensures !ParseVerb(EntryVerbs(PageEntries(page))[i]).Unknown?
  {
    HelpPages(page);
    var words := EntryVerbs(PageEntries(page));
    if page == 1 {
      if i == 0 { assert words[i] == "help"; }
      else if i == 1 { assert words[i] == "clear"; }
      else if i == 2 { assert words[i] == "tutorial"; }
      else if i == 3 { assert words[i] == "go"; }
      else if i == 4 { assert words[i] == "ragequit"; }
      else { assert words[i] == "infos"; }
    } else {
      if i == 0 { assert words[i] == "continue"; }
      else if i == 1 { assert words[i] == "skip"; }
      else { assert words[i] == "attack"; }
    }
  }

  // ---------------------------------------------------------------------
  // One command, verb by verb

  lemma HelpCommand(env: Env, s: Session, cmd: string)
    requires cmd != "" && VerbOf(cmd) == Help
    ensures var r, args := Step(env, s, cmd), Args(cmd);
      r.session == s &&
      (|args| == 1 ==> r.out == [Echo(cmd), HelpText(1)] && r.outcome == Proceed) &&
      (|args| > 1 && ParseUsize(args[1]).Some? ==>
        r.out == [Echo(cmd), HelpText(ParseUsize(args[1]).value)] && r.outcome == Proceed) &&
      (|args| > 1 && ParseUsize(args[1]).None? ==> r.out == [Echo(cmd)] && r.outcome == Panic)
  {
  }

  lemma RagequitCommand(env: Env, s: Session, cmd: string)
    requires cmd != "" && VerbOf(cmd) == Ragequit
    ensures Step(env, s, cmd) ==
      Handled(s.(laby := env.reset(s.laby), ragequits := s.ragequits + 1), [Echo(cmd), Quitting], Proceed)
  {
  }

  lemma TutorialCommand(env: Env, s: Session, cmd: string)
    requires cmd != "" && VerbOf(cmd) == TutorialVerb
    ensures Step(env, s, cmd) ==
      Handled(s.(laby := s.laby.(gameState := Tutorial, hasShownTurnInfos := false)), [Echo(cmd)], Proceed)
  {
  }

  lemma InfosCommand(env: Env, s: Session, cmd: string)
    requires cmd != "" && VerbOf(cmd) == Infos
    ensures Step(env, s, cmd) ==
      Handled(s.(laby := s.laby.(hasShownTurnInfos := false)), [Echo(cmd)], Proceed)
  {
  }

  lemma ContinueCommand(env: Env, s: Session, cmd: string)
    requires cmd != "" && VerbOf(cmd) == Continue
    ensures var r := Step(env, s, cmd);
      r.outcome == Proceed &&
      (s.laby.gameState == Tutorial ==>
        r.out == [Echo(cmd)] &&
        r.session == s.(laby := ClearFlags(env.newTurn(s.laby.(gameState := Exploring), s.turns)),
                        turns := s.turns + 1)) &&
      (s.laby.gameState != Tutorial ==> r.out == [Echo(cmd), NothingToContinue] && r.session == s)
  {
  }

  lemma SkipCommand(env: Env, s: Session, cmd: string)
    requires cmd != "" && VerbOf(cmd) == Skip
    ensures var r, skippable := Step(env, s, cmd),
                s.laby.gameState == Exploring && (s.laby.roomType == Enemy || s.laby.roomType == Item);
      r.outcome == Proceed &&
      (skippable ==>
        r.out == [Echo(cmd), SkippingRoom] &&
        r.session == s.(laby := ClearFlags(env.newTurn(s.laby, s.turns)), turns := s.turns + 1)) &&
      (!skippable ==> r.out == [Echo(cmd)] && r.session == s)
  {
  }

  lemma GoCommand(env: Env, s: Session, cmd: string)
    requires cmd != "" && VerbOf(cmd) == Go
    ensures var r, args := Step(env, s, cmd), Args(cmd);
      (|args| == 1 ==>
        r == Handled(s, [Echo(cmd), NoDirection, GoUsage], StopBatch)) &&
      (|args| > 1 && env.parseMovement(args[1]).Some? &&
       env.parseMovement(args[1]).value in s.laby.nextDirections ==>
        r == Handled(s.(laby := ClearFlags(env.newTurn(s.laby, s.turns)), turns := s.turns + 1),
                     [Echo(cmd)], StopBatch)) &&
      (|args| > 1 && env.parseMovement(args[1]).Some? &&
       env.parseMovement(args[1]).value !in s.laby.nextDirections ==>
        r == Handled(s, [Echo(cmd), NoPath], StopBatch)) &&
      (|args| > 1 && env.parseMovement(args[1]).None? ==>
        r == Handled(s, [Echo(cmd), InvalidDirection, GoUsage], Proceed))
  {
  }

  /** `attack` does not look at the game state, and nothing checks the
      enemy's health afterwards. */
  lemma AttackCommand(env: Env, s: Session, cmd: string)
    requires cmd != "" && VerbOf(cmd) == Attack
    ensures var r := Step(env, s, cmd);
      r.outcome == Proceed &&
      (s.laby.roomType == Enemy ==>
        r.out == [Echo(cmd), Attacking] &&
        r.session == s.(laby := ClearFlags(s.laby.(enemyHealth := s.laby.enemyHealth - 1)))) &&
      (s.laby.roomType != Enemy ==> r.out == [Echo(cmd), PunchWall, NothingToPunch] && r.session == s)
  {
  }

  lemma UnknownCommand(env: Env, s: Session, cmd: string)
    requires cmd != "" && VerbOf(cmd).Unknown?
    ensures Step(env, s, cmd) == Handled(s, [Echo(cmd), NotUnderstood(Args(cmd)[0])], Proceed)
  {
    var args := Args(cmd);
    VerbRoundTrip(args[0], Clear);
    assert ParseVerb(args[0]) == Unknown(args[0]);
  }

  // ---------------------------------------------------------------------
  // Help

  /** `help <n>`, with `n` written in decimal, shows page `n` and keeps going. */
  lemma HelpPageCommand(env: Env, s: Session, page: usize)
    ensures Step(env, s, "help " + NatToString(page)) ==
      Handled(s, [Typed("help " + NatToString(page)), HelpText(page)], Proceed)
  {
    var n := NatToString(page);
    var cmd := "help " + n;
    assert NoWhitespace("help");
    assert NoWhitespace(n);
    assert Join(["help", n], ' ') == cmd;
    ArgsOfWords(["help", n]);
    TrimmedIsTrim(cmd);
    ParseFormatted(page);
    assert ParseVerb("help") == Help;
    HelpCommand(env, s, cmd);
  }

  /** `help` on its own shows the first page, the page `help 1` shows. */
  lemma HelpDefaultsToFirstPage(env: Env, s: Session)
    ensures Step(env, s, "help") == Handled(s, [Typed("help"), HelpText(1)], Proceed)
  {
    assert NoWhitespace("help");
    ArgsOfWord("help");
    HelpCommand(env, s, "help");
  }

  // ---------------------------------------------------------------------
  // Batches

  /** What one step may do to the counters: an empty command never
      proceeds, ragequits never go down, and at most one turn is generated. */
  predicate Bounded(t: Session, cmd: string, r: Handled) {
    (cmd == "" ==> r.outcome != Proceed) &&
    r.session.ragequits >= t.ragequits &&
    t.turns <= r.session.turns <= t.turns + 1
  }

  /** Draining with a bounded step: a queue drained to its end held no empty
      command, ragequits never go down, and turns grow by at most one per
      command. */
  lemma {:induction false} DrainBounds(step: (Session, string) -> Handled, s: Session, cmds: seq<string>)
    requires forall t, cmd :: Bounded(t, cmd, step(t, cmd))
    ensures var r := Drain(step, s, cmds);
      (r.outcome == Proceed ==> "" !in cmds) &&
      r.session.ragequits >= s.ragequits &&
      s.turns <= r.session.turns <= s.turns + |cmds|
    decreases |cmds|
  {
    if cmds != [] {
      var first := step(s, cmds[0]);
      assert Bounded(s, cmds[0], first);
      if first.outcome == Proceed {
        DrainBounds(step, first.session, cmds[1..]);
        assert cmds == [cmds[0]] + cmds[1..];
      }
    }
  }

  /** A batch that runs to its end contained no empty command; turns grow by
      at most one per command; ragequits never go down. */
  lemma RunBounds(env: Env, s: Session, cmds: seq<string>)
    ensures var r := Run(env, s, cmds);
      (r.outcome == Proceed ==> "" !in cmds) &&
      r.session.ragequits >= s.ragequits &&
      s.turns <= r.session.turns <= s.turns + |cmds|
  {
    var step := (t, cmd) => Step(env, t, cmd);
    forall t, cmd
      ensures Bounded(t, cmd, step(t, cmd))
    {
      StepFrame(env, t, cmd);
    }
    DrainBounds(step, s, cmds);
  }

  /** Only `clear` touches the console history: a batch with no `clear` in it
      leaves the history as it was. */
  lemma {:induction false} HistoryKeptWithoutClear(env: Env, s: Session, cmds: seq<string>)
    requires forall i :: 0 <= i < |cmds| && cmds[i] != "" ==> VerbOf(cmds[i]) != Clear
    ensures Run(env, s, cmds).session.messages == s.messages
    decreases |cmds|
  {
    if cmds != [] {
      var first := Step(env, s, cmds[0]);
      StepFrame(env, s, cmds[0]);
      if first.outcome == Proceed {
        forall i | 0 <= i < |cmds[1..]| && cmds[1..][i] != ""
          ensures VerbOf(cmds[1..][i]) != Clear
        {
          assert cmds[1..][i] == cmds[i + 1];
        }
        HistoryKeptWithoutClear(env, first.session, cmds[1..]);
      }
    }
  }

  /** Running two batches back to back is running their concatenation,
      unless the first one stopped. */
  lemma RunAppend(env: Env, s: Session, xs: seq<string>, ys: seq<string>)
    ensures var a := Run(env, s, xs);
      Run(env, s, xs + ys) ==
        if a.outcome != Proceed then a
        else
          var b := Run(env, a.session, ys);
          Handled(b.session, a.out + b.out, b.outcome)
  {
    DrainAppend((t, cmd) => Step(env, t, cmd), s, xs, ys);
  }

  /** A command that stops the batch makes every later command irrelevant. */
  lemma StoppedBatchIgnoresRest(env: Env, s: Session, xs: seq<string>, cmd: string, ys: seq<string>)
    requires Run(env, s, xs).outcome == Proceed
    requires Step(env, Run(env, s, xs).session, cmd).outcome != Proceed
    ensures Run(env, s, xs + [cmd] + ys) == Run(env, s, xs + [cmd])
    ensures Run(env, s, xs + [cmd]).outcome != Proceed
  {
    DrainStops((t, c) => Step(env, t, c), s, xs, cmd, ys);
  }

  /** An empty command ends the batch: it emits nothing, changes nothing, and
      no later command is looked at. */
  lemma EmptyCommandEndsBatch(env: Env, s: Session, xs: seq<string>, ys: seq<string>)
    requires Run(env, s, xs).outcome == Proceed
    ensures var a := Run(env, s, xs);
      Run(env, s, xs + [""] + ys) == Handled(a.session, a.out, StopBatch)
  {
    var a := Run(env, s, xs);
    StepFrame(env, a.session, "");
    StoppedBatchIgnoresRest(env, s, xs, "", ys);
    RunAppend(env, s, xs, [""]);
    RunUnfold(env, a.session, [""]);
    assert a.out + [] == a.out;
  }

  /** `go` with no argument, or with any direction `Movement::from_string`
      accepts (whether or not there is a path), ends the batch. */
  lemma GoEndsBatch(env: Env, s: Session, xs: seq<string>, cmd: string, ys: seq<string>)
    requires Run(env, s, xs).outcome == Proceed
    requires cmd != "" && VerbOf(cmd) == Go
    requires |Args(cmd)| == 1 || env.parseMovement(Args(cmd)[1]).Some?
    ensures Run(env, s, xs + [cmd] + ys) == Run(env, s, xs + [cmd])
    ensures Run(env, s, xs + [cmd]).outcome == StopBatch
  {
    var a := Run(env, s, xs);
    StepFrame(env, a.session, cmd);
    StoppedBatchIgnoresRest(env, s, xs, cmd, ys);
    RunAppend(env, s, xs, [cmd]);
    RunUnfold(env, a.session, [cmd]);
  }

  /** `n` copies of a list of messages, one after the other. */
  function Repeat(msgs: seq<Message>, n: nat): (r: seq<Message>)
    ensures |r| == n * |msgs|
  {
    if n == 0 then [] else msgs + Repeat(msgs, n - 1)
  }

  /** `n` copies of one command. */
  function Copies(cmd: string, n: nat): (r: seq<string>)
    ensures |r| == n && forall i :: 0 <= i < n ==> r[i] == cmd
  {
    if n == 0 then [] else [cmd] + Copies(cmd, n - 1)
  }

  /** In an enemy room, `n` attacks in a row take exactly `n` from the
      enemy's health, whatever it was (nothing stops at zero), and leave
      the room, the game state and the history as they were. */
  lemma {:induction false} RepeatedAttacks(env: Env, s: Session, cmd: string, n: nat)
    requires cmd != "" && VerbOf(cmd) == Attack
    requires s.laby.roomType == Enemy
    ensures var r := Run(env, s, Copies(cmd, n));
      r.outcome == Proceed &&
      r.out == Repeat([Echo(cmd), Attacking], n) &&
      r.session.laby.enemyHealth == s.laby.enemyHealth - n &&
      r.session.laby.roomType == Enemy && r.session.laby.gameState == s.laby.gameState &&
      r.session.laby.nextDirections == s.laby.nextDirections &&
      r.session.messages == s.messages && r.session.turns == s.turns &&
      (n > 0 ==> !r.session.laby.hasShownTurnInfos && !r.session.laby.waitForContinue)
    decreases n
  {
    if n > 0 {
      var cmds := Copies(cmd, n);
      assert cmds[0] == cmd && cmds[1..] == Copies(cmd, n - 1);
      AttackCommand(env, s, cmd);
      var first := Step(env, s, cmd);
      RunUnfold(env, s, cmds);
      RepeatedAttacks(env, first.session, cmd, n - 1);
      var rest := Run(env, first.session, cmds[1..]);
      assert Run(env, s, cmds) == Handled(rest.session, first.out + rest.out, rest.outcome);
    }
  }
}
