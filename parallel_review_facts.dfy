/** What the review runner's command line promises: how `parseArgs` fails,
    and what the runtime reads back from the arguments `buildRuntimeArgs`
    forwards to it. */
module ParallelReviewFacts {
  import opened Wrappers
  import opened Text
  import opened JsonValue
  import opened ParallelReview
  import RuntimeMain

  // ---------------------------------------------------------------------------
  // The argument loop
  // ---------------------------------------------------------------------------

  /** An iteration that goes on reads nothing past the words it uses. */
  lemma ConsumePrefix(ctx: Context, a: seq<string>, b: seq<string>, o: Options)
    requires |a| > 0 && Consume(ctx, a, o).Go?
    ensures Consume(ctx, a + b, o) == Consume(ctx, a, o)
  {
    assert (a + b)[0] == a[0];
    if !IsSwitch(a[0]) {
      assert (a + b)[1] == a[1];
    }
  }

  /** A prefix the loop reads to its end without stopping leaves the rest
      of the loop to the words after it, from the options it produced. */
  lemma {:induction false} ScanAppend(ctx: Context, pre: seq<string>, post: seq<string>, o: Options)
    requires ScanArgs(ctx, pre, o).Parsed?
    ensures ScanArgs(ctx, pre + post, o) == ScanArgs(ctx, post, ScanArgs(ctx, pre, o).options)
    decreases |pre|
  {
    if |pre| == 0 {
      assert pre + post == post;
    } else {
      var m := Consume(ctx, pre, o);
      ScanStep(ctx, pre, post, o);
      ScanAppend(ctx, pre[m.used..], post, m.next);
    }
  }

  /** One iteration that goes on, on a prefix and on the prefix followed by
      more words. */
  lemma ScanStep(ctx: Context, pre: seq<string>, post: seq<string>, o: Options)
    requires |pre| > 0 && Consume(ctx, pre, o).Go?
    ensures var m := Consume(ctx, pre, o);
      && ScanArgs(ctx, pre, o) == ScanArgs(ctx, pre[m.used..], m.next)
      && ScanArgs(ctx, pre + post, o) == ScanArgs(ctx, pre[m.used..] + post, m.next)
  {
    var m := Consume(ctx, pre, o);
    ScanGo(ctx, pre, o);
    var q := pre + post;
    ConsumePrefix(ctx, pre, post, o);
    assert Consume(ctx, q, o) == m;
    ScanGo(ctx, q, o);
    DropAppend(pre, post, m.used);
    assert ScanArgs(ctx, q, o) == ScanArgs(ctx, q[m.used..], m.next);
  }

  /** An iteration that goes on leaves the loop to the words it did not use. */
  lemma ScanGo(ctx: Context, args: seq<string>, o: Options)
    requires |args| > 0 && Consume(ctx, args, o).Go?
    ensures ScanArgs(ctx, args, o) == ScanArgs(ctx, args[Consume(ctx, args, o).used..], Consume(ctx, args, o).next)
  {
  }

  /** The defaults load and the loop reads `pre` without stopping. */
  predicate ReadsThrough(ctx: Context, pre: seq<string>) {
    DefaultOptions(ctx).Success? && ScanArgs(ctx, pre, DefaultOptions(ctx).value).Parsed?
  }

  /** The options the loop holds after `pre`. */
  function After(ctx: Context, pre: seq<string>): Options
    requires ReadsThrough(ctx, pre)
  {
    ScanArgs(ctx, pre, DefaultOptions(ctx).value).options
  }

  /** `parseArgs` on `pre + rest` is the loop on `rest` from where `pre` left it. */
  lemma ParseAfter(ctx: Context, pre: seq<string>, rest: seq<string>)
    requires ReadsThrough(ctx, pre)
    ensures ParseArgsOf(ctx, pre + rest) == AfterScan(ScanArgs(ctx, rest, After(ctx, pre)))
  {
    ScanAppend(ctx, pre, rest, DefaultOptions(ctx).value);
  }

  /** `--help` ends the parse with the help text, whatever follows it. */
  lemma HelpWins(ctx: Context, pre: seq<string>, post: seq<string>)
    requires ReadsThrough(ctx, pre)
    ensures ParseArgsOf(ctx, pre + ["--help"] + post) == Help
  {
    AppendAssoc(pre, ["--help"], post);
    ParseAfter(ctx, pre, ["--help"] + post);
  }

  /** A word that is not an option is neither `--help` nor a switch. */
  lemma PlainIsNoOption(arg: string)
    requires Plain(arg)
    ensures arg != "--help" && !IsSwitch(arg)
  {
    assert StartsWith("--help", "--");
    assert StartsWith("--include-full-git-diff", "--");
    assert StartsWith("--skip-preflight", "--");
    assert StartsWith("--allow-preflight-failure", "--");
  }

  /** A word that is not an option fails the parse. */
  lemma StrayWordFails(ctx: Context, pre: seq<string>, arg: string, post: seq<string>)
    requires ReadsThrough(ctx, pre)
    requires !StartsWith(arg, "--")
    ensures ParseArgsOf(ctx, pre + [arg] + post) == Failed("Unknown argument: " + arg)
  {
    AppendAssoc(pre, [arg], post);
    ParseAfter(ctx, pre, [arg] + post);
    PlainIsNoOption(arg);
    var rest := [arg] + post;
    assert rest[0] == arg;
    assert Consume(ctx, rest, After(ctx, pre)) == Stop(Failed("Unknown argument: " + arg));
  }

  /** An option that takes a value fails the parse when it ends the
      arguments or the next word is itself an option. */
  lemma MissingValueFails(ctx: Context, pre: seq<string>, arg: string, post: seq<string>)
    requires ReadsThrough(ctx, pre)
    requires StartsWith(arg, "--") && arg != "--help" && !IsSwitch(arg)
    requires post == [] || StartsWith(post[0], "--")
    ensures ParseArgsOf(ctx, pre + [arg] + post) == Failed("Missing value for " + arg)
  {
    AppendAssoc(pre, [arg], post);
    ParseAfter(ctx, pre, [arg] + post);
    assert ([arg] + post)[0] == arg;
    if post != [] {
      assert ([arg] + post)[1] == post[0];
    }
  }

  /** An option with a value that none of the branches recognises fails
      the parse. */
  lemma UnknownOptionFails(ctx: Context, pre: seq<string>, arg: string, value: string, post: seq<string>)
    requires ReadsThrough(ctx, pre)
    requires StartsWith(arg, "--") && arg != "--help" && !IsSwitch(arg) && FlagOf(arg).None?
    requires Plain(value)
    ensures ParseArgsOf(ctx, pre + [arg, value] + post) == Failed("Unknown option: " + arg)
  {
    var rest := [arg, value] + post;
    AppendAssoc(pre, [arg, value], post);
    ParseAfter(ctx, pre, rest);
    assert rest[0] == arg && rest[1] == value;
  }

  /** The option names that take a value are neither `--help` nor switches. */
  lemma FlagNameShape(f: Flag)
    ensures StartsWith(FlagName(f), "--") && FlagName(f) != "--help" && !IsSwitch(FlagName(f))
  {
  }

  /** A recognised option with a value that is not itself an option updates
      the options as its branch says, or fails the parse with that
      branch's message. */
  lemma OptionApplies(ctx: Context, pre: seq<string>, f: Flag, value: string)
    requires ReadsThrough(ctx, pre)
    requires Plain(value)
    ensures var r := SetFlag(ctx, After(ctx, pre), f, value);
      ParseArgsOf(ctx, pre + [FlagName(f), value]) ==
        if r.Success? then FinalCheck(r.value) else Failed(r.error)
  {
    var rest := [FlagName(f), value];
    ParseAfter(ctx, pre, rest);
    FlagNameShape(f);
    FlagOfName(f);
    assert rest[2..] == [];
  }

  /** A numeric option whose value is not a positive number fails the
      parse with the `toInt` message. */
  lemma InvalidNumberFails(ctx: Context, pre: seq<string>, f: Flag, value: string)
    requires ReadsThrough(ctx, pre)
    requires f.Numeric() && Plain(value) && !StringToNumber(value).Positive()
    ensures ParseArgsOf(ctx, pre + [FlagName(f), value]) == Failed("Invalid " + NumberName(f) + ": " + value)
  {
    OptionApplies(ctx, pre, f, value);
  }

  /** A later value of an option replaces an earlier one. */
  lemma LaterTaskIdWins(ctx: Context, pre: seq<string>, value: string)
    requires ReadsThrough(ctx, pre)
    requires Plain(value)
    ensures ParseArgsOf(ctx, pre + [FlagName(TaskId), value]) == FinalCheck(After(ctx, pre).(taskId := value))
  {
    OptionApplies(ctx, pre, TaskId, value);
  }

  /** A reviewer mode other than `cli` and `deterministic` fails the parse. */
  lemma InvalidReviewerModeFails(ctx: Context, pre: seq<string>, mode: string)
    requires ReadsThrough(ctx, pre)
    requires Plain(mode) && mode != "cli" && mode != "deterministic"
    ensures ParseArgsOf(ctx, pre + [FlagName(ReviewerModeFlag), mode]) == Failed("Invalid --reviewer-mode: " + mode)
  {
    OptionApplies(ctx, pre, ReviewerModeFlag, mode);
    ReviewerModeChecked(ctx, After(ctx, pre), mode);
  }

  /** A CLI home mode other than `host` and `isolated` fails the parse once
      the reviewer mode is valid. */
  lemma InvalidCliHomeModeFails(ctx: Context, pre: seq<string>, mode: string)
    requires ReadsThrough(ctx, pre)
    requires KnownReviewerMode(After(ctx, pre).reviewerMode)
    requires Plain(mode) && mode != "host" && mode != "isolated"
    ensures ParseArgsOf(ctx, pre + [FlagName(CliHomeModeFlag), mode]) == Failed("Invalid --cli-home-mode: " + mode)
  {
    OptionApplies(ctx, pre, CliHomeModeFlag, mode);
    CliHomeModeChecked(ctx, After(ctx, pre), mode);
  }

  /** Naming both configuration files fails the parse once the modes are
      valid. */
  lemma BothConfigsFail(ctx: Context, pre: seq<string>, path: string)
    requires ReadsThrough(ctx, pre)
    requires var o := After(ctx, pre);
      KnownReviewerMode(o.reviewerMode) && KnownCliHomeMode(o.cliHomeMode) && o.agentsConfigJson != ""
    requires Plain(path) && ctx.resolve(path) != ""
    ensures ParseArgsOf(ctx, pre + [FlagName(AgentProfilesJson), path]) == Failed(BothConfigsMessage)
  {
    OptionApplies(ctx, pre, AgentProfilesJson, path);
    ProfilesChecked(ctx, After(ctx, pre), path);
  }

  /** The final check on a reviewer mode set from the command line. */
  lemma ReviewerModeChecked(ctx: Context, o: Options, mode: string)
    requires mode != "cli" && mode != "deterministic"
    ensures SetFlag(ctx, o, ReviewerModeFlag, mode) == Success(o.(reviewerMode := mode))
    ensures FinalCheck(o.(reviewerMode := mode)) == Failed("Invalid --reviewer-mode: " + mode)
  {
  }

  /** The final check on a CLI home mode set from the command line. */
  lemma CliHomeModeChecked(ctx: Context, o: Options, mode: string)
    requires KnownReviewerMode(o.reviewerMode) && mode != "host" && mode != "isolated"
    ensures SetFlag(ctx, o, CliHomeModeFlag, mode) == Success(o.(cliHomeMode := mode))
    ensures FinalCheck(o.(cliHomeMode := mode)) == Failed("Invalid --cli-home-mode: " + mode)
  {
  }

  /** The final check on a reviewer-profiles file set after an agent-definition file. */
  lemma ProfilesChecked(ctx: Context, o: Options, path: string)
    requires KnownReviewerMode(o.reviewerMode) && KnownCliHomeMode(o.cliHomeMode)
    requires o.agentsConfigJson != "" && ctx.resolve(path) != ""
    ensures SetFlag(ctx, o, AgentProfilesJson, path) == Success(o.(agentProfilesJson := ctx.resolve(path)))
    ensures FinalCheck(o.(agentProfilesJson := ctx.resolve(path))) == Failed(BothConfigsMessage)
  {
  }

  // ---------------------------------------------------------------------------
  // Plain values
  // ---------------------------------------------------------------------------

  /** The options' text fields that `buildRuntimeArgs` forwards as values. */
  predicate PlainOptions(o: Options) {
    && Plain(o.taskId) && Plain(o.instruction) && Plain(o.cliHomeMode)
    && Plain(o.agentsConfigJson) && Plain(o.agentProfilesJson)
    && Plain(o.codexModel) && Plain(o.claudeModel)
  }

  /** `path.resolve` returns an absolute path, which never starts with `--`. */
  ghost predicate PlainPaths(ctx: Context) {
    forall p :: Plain(ctx.resolve(p))
  }

  /** The printed integers are never options. */
  lemma PrintedPlain(n: int)
    ensures Plain(IntToString(n))
  {
    if n < 0 {
      var r := IntToString(n);
      assert r[1..] == NatToString(-n);
      assert IsDigit(r[1]);
    }
  }

  /** A text that starts with a letter is no option. */
  lemma LetterPlain(s: string)
    requires |s| > 0 && s[0] != '-'
    ensures Plain(s)
  {
  }

  /** Every value the loop stores was checked not to start with `--`, so
      the options it produces are plain. */
  lemma ConsumePlain(ctx: Context, args: seq<string>, o: Options)
    requires PlainPaths(ctx) && |args| > 0 && PlainOptions(o) && Consume(ctx, args, o).Go?
    ensures PlainOptions(Consume(ctx, args, o).next)
  {
    var m := Consume(ctx, args, o);
    if m.used == 2 {
      SetFlagPlain(ctx, o, FlagOf(args[0]).value, args[1]);
    } else {
      var a := args[0];
      assert a == "--include-full-git-diff" || a == "--skip-preflight" || a == "--allow-preflight-failure";
    }
  }

  /** An option stores its plain value, a resolved path or a number. */
  lemma SetFlagPlain(ctx: Context, o: Options, f: Flag, value: string)
    requires PlainPaths(ctx) && PlainOptions(o) && Plain(value) && SetFlag(ctx, o, f, value).Success?
    ensures PlainOptions(SetFlag(ctx, o, f, value).value)
  {
    assert Plain(ctx.resolve(value));
    match f
    case RepoRoot =>
    case TaskId =>
    case Instruction =>
    case ReviewerModeFlag =>
    case CliHomeModeFlag =>
    case AgentsConfigJson =>
    case AgentProfilesJson =>
    case CodexModel =>
    case ClaudeModel =>
    case OutputJson =>
    case _ =>
  }

  lemma {:induction false} ScanPlain(ctx: Context, args: seq<string>, o: Options)
    requires PlainPaths(ctx) && PlainOptions(o) && ScanArgs(ctx, args, o).Parsed?
    ensures PlainOptions(ScanArgs(ctx, args, o).options)
    decreases |args|
  {
    if |args| > 0 {
      var m := Consume(ctx, args, o);
      ConsumePlain(ctx, args, o);
      ScanPlain(ctx, args[m.used..], m.next);
    }
  }

  /** The defaults are plain. */
  lemma DefaultsPlain(ctx: Context)
    requires DefaultOptions(ctx).Success?
    ensures PlainOptions(DefaultOptions(ctx).value)
  {
    var d := DefaultOptions(ctx).value;
    LetterPlain(d.taskId);
    LetterPlain(d.instruction);
    LetterPlain(d.cliHomeMode);
  }

  /** Whatever `parseArgs` lets through is plain. */
  lemma ParsedPlain(ctx: Context, argv: seq<string>)
    requires PlainPaths(ctx) && ParseArgsOf(ctx, argv).Parsed?
    ensures PlainOptions(ParseArgsOf(ctx, argv).options)
  {
    DefaultsPlain(ctx);
    ScanPlain(ctx, argv, DefaultOptions(ctx).value);
  }

  // ---------------------------------------------------------------------------
  // Positive numbers
  // ---------------------------------------------------------------------------

  /** Every number the options hold is positive. */
  predicate PositiveNumbers(o: Options) {
    && o.maxBufferMb > 0
    && (o.maxPasses.Some? ==> o.maxPasses.value > 0)
    && (o.cliTimeoutMs.Some? ==> o.cliTimeoutMs.value > 0)
    && (o.reviewInputMaxChars.Some? ==> o.reviewInputMaxChars.value > 0)
    && (o.reviewInputExcerptChars.Some? ==> o.reviewInputExcerptChars.value > 0)
  }

  /** A numeric option stores what `toInt` accepted, which is positive. */
  lemma SetFlagPositive(ctx: Context, o: Options, f: Flag, value: string)
    requires PositiveNumbers(o) && SetFlag(ctx, o, f, value).Success?
    ensures PositiveNumbers(SetFlag(ctx, o, f, value).value)
  {
    if f.Numeric() {
      var n := ToInt(value, NumberName(f));
      assert n.Success? && n.value > 0;
      match f
      case MaxPasses =>
      case CliTimeoutMs =>
      case ReviewInputMaxChars =>
      case ReviewInputExcerptChars =>
      case MaxBufferMb =>
    }
  }

  /** One iteration of the loop keeps the numbers positive. */
  lemma ConsumePositive(ctx: Context, args: seq<string>, o: Options)
    requires |args| > 0 && PositiveNumbers(o) && Consume(ctx, args, o).Go?
    ensures PositiveNumbers(Consume(ctx, args, o).next)
  {
    var m := Consume(ctx, args, o);
    if m.used == 2 {
      SetFlagPositive(ctx, o, FlagOf(args[0]).value, args[1]);
    } else {
      SwitchKeepsNumbers(ctx, args, o);
    }
  }

  /** A switch changes no number. */
  lemma SwitchKeepsNumbers(ctx: Context, args: seq<string>, o: Options)
    requires |args| > 0 && IsSwitch(args[0])
    ensures Consume(ctx, args, o).Go?
    ensures var o' := Consume(ctx, args, o).next;
      o'.maxBufferMb == o.maxBufferMb && o'.maxPasses == o.maxPasses && o'.cliTimeoutMs == o.cliTimeoutMs
      && o'.reviewInputMaxChars == o.reviewInputMaxChars && o'.reviewInputExcerptChars == o.reviewInputExcerptChars
  {
  }

  lemma {:induction false} ScanPositive(ctx: Context, args: seq<string>, o: Options)
    requires PositiveNumbers(o) && ScanArgs(ctx, args, o).Parsed?
    ensures PositiveNumbers(ScanArgs(ctx, args, o).options)
    decreases |args|
  {
    if |args| > 0 {
      var m := Consume(ctx, args, o);
      ConsumePositive(ctx, args, o);
      ScanPositive(ctx, args[m.used..], m.next);
    }
  }

  /** Whatever `parseArgs` lets through holds positive numbers only, so the
      child process buffer is at least one megabyte. */
  lemma ParsedPositive(ctx: Context, argv: seq<string>)
    requires ParseArgsOf(ctx, argv).Parsed?
    ensures PositiveNumbers(ParseArgsOf(ctx, argv).options)
    ensures ToBufferBytes(ParseArgsOf(ctx, argv).options.maxBufferMb) >= 1048576
  {
    ScanPositive(ctx, argv, DefaultOptions(ctx).value);
  }

  // ---------------------------------------------------------------------------
  // Reading the forwarded arguments back
  // ---------------------------------------------------------------------------

  /** Slots whose values are not options. */
  predicate WellFormed(slots: seq<Slot>) {
    forall j :: 0 <= j < |slots| && slots[j].Some? ==> Plain(slots[j].value.1)
  }

  /** The value of the last slot for `flag`, if any. */
  function SlotValue(slots: seq<Slot>, flag: Flag): Option<string>
    decreases |slots|
  {
    if |slots| == 0 then None
    else
      var last := slots[|slots| - 1];
      if last.Some? && last.value.0 == flag then Some(last.value.1)
      else SlotValue(slots[..|slots| - 1], flag)
  }

  /** Distinct options have distinct names. */
  lemma FlagNameInjective(f: Flag, g: Flag)
    requires FlagName(f) == FlagName(g)
    ensures f == g
  {
    FlagOfName(f);
    FlagOfName(g);
  }

  /** `readArg` on the forwarded words finds the last slot for the option,
      whatever precedes them, and the default when no slot has the option
      and nothing before mentions it. */
  lemma {:induction false} ReadSlots(pre: seq<string>, slots: seq<Slot>, post: seq<string>, flag: Flag, d: string)
    requires WellFormed(slots) && FlagName(flag) !in post
    requires SlotValue(slots, flag).None? ==> FlagName(flag) !in pre
    ensures RuntimeMain.ArgValue(pre + Flatten(slots) + post, FlagName(flag), d) ==
              if SlotValue(slots, flag).Some? then SlotValue(slots, flag).value else d
    decreases |slots|
  {
    var name := FlagName(flag);
    FlagNameShape(flag);
    if |slots| == 0 {
      Regroup(pre, [], [], post);
      RuntimeMain.ReadArgAbsent(pre + post, name, d);
    } else {
      var init, last := slots[..|slots| - 1], slots[|slots| - 1];
      assert Flatten(slots) == Flatten(init) + Piece(last);
      Regroup(pre, Flatten(init), Piece(last), post);
      if last.Some? && last.value.0 == flag {
        assert Plain(last.value.1);
        assert Piece(last) == [name, last.value.1];
        RuntimeMain.ReadArgPair(pre + Flatten(init), name, last.value.1, post, d);
      } else {
        assert WellFormed(init) by {
          forall j | 0 <= j < |init| && init[j].Some?
            ensures Plain(init[j].value.1)
          {
            assert init[j] == slots[j];
          }
        }
        if last.Some? {
          assert Plain(last.value.1);
          if FlagName(last.value.0) == name {
            FlagNameInjective(last.value.0, flag);
          }
        }
        assert name !in Piece(last) + post;
        ReadSlots(pre, init, Piece(last) + post, flag, d);
      }
    }
  }

  /** No slot pushes a switch. */
  lemma {:induction false} NoSwitchInSlots(slots: seq<Slot>, s: string)
    requires WellFormed(slots) && IsSwitch(s)
    ensures s !in Flatten(slots)
    decreases |slots|
  {
    if |slots| > 0 {
      var init, last := slots[..|slots| - 1], slots[|slots| - 1];
      assert WellFormed(init) by {
        forall j | 0 <= j < |init| && init[j].Some?
          ensures Plain(init[j].value.1)
        {
          assert init[j] == slots[j];
        }
      }
      NoSwitchInSlots(init, s);
      if last.Some? {
        FlagNameShape(last.value.0);
        assert Plain(last.value.1);
        assert StartsWith("--include-full-git-diff", "--");
        assert StartsWith("--skip-preflight", "--");
        assert StartsWith("--allow-preflight-failure", "--");
      }
    }
  }

  /** The values `buildRuntimeArgs` pushes are not options. */
  lemma SlotsWellFormed(o: Options)
    requires PlainOptions(o)
    ensures WellFormed(Slots(o))
  {
    if o.maxPasses.Some? { PrintedPlain(o.maxPasses.value); }
    if o.cliTimeoutMs.Some? { PrintedPlain(o.cliTimeoutMs.value); }
    if o.reviewInputMaxChars.Some? { PrintedPlain(o.reviewInputMaxChars.value); }
    if o.reviewInputExcerptChars.Some? { PrintedPlain(o.reviewInputExcerptChars.value); }
  }

  /** What the runtime reads for a forwarded option, after whatever words
      precede the forwarded ones. */
  lemma ReadForwarded(o: Options, pre: seq<string>, flag: Flag, d: string)
    requires PlainOptions(o)
    requires SlotValue(Slots(o), flag).None? ==> FlagName(flag) !in pre
    ensures RuntimeMain.ArgValue(pre + Forwarded(o), FlagName(flag), d) ==
              if SlotValue(Slots(o), flag).Some? then SlotValue(Slots(o), flag).value else d
  {
    SlotsWellFormed(o);
    FlagNameShape(flag);
    AppendAssoc(pre, Flatten(Slots(o)), Trailing(o));
    ReadSlots(pre, Slots(o), Trailing(o), flag, d);
  }

  /** Which value `buildRuntimeArgs` forwards for each option: task id and
      instruction always; the agent-definition file when given, else the
      reviewer-profiles file when given; `--max-passes` when set; and only
      in cli mode the CLI home mode, the models when not empty and the
      three remaining limits when set. */
  function ForwardedValue(o: Options, f: Flag): Option<string> {
    var cli := o.reviewerMode == "cli";
    match f
    case TaskId => Some(o.taskId)
    case Instruction => Some(o.instruction)
    case CliHomeModeFlag => if cli then Some(o.cliHomeMode) else None
    case AgentsConfigJson => if o.agentsConfigJson != "" then Some(o.agentsConfigJson) else None
    case AgentProfilesJson =>
      if o.agentsConfigJson == "" && o.agentProfilesJson != "" then Some(o.agentProfilesJson) else None
    case CodexModel => if cli && o.codexModel != "" then Some(o.codexModel) else None
    case ClaudeModel => if cli && o.claudeModel != "" then Some(o.claudeModel) else None
    case MaxPasses => Printed(o.maxPasses)
    case CliTimeoutMs => if cli then Printed(o.cliTimeoutMs) else None
    case ReviewInputMaxChars => if cli then Printed(o.reviewInputMaxChars) else None
    case ReviewInputExcerptChars => if cli then Printed(o.reviewInputExcerptChars) else None
    case _ => None
  }

  function Printed(n: Option<int>): Option<string> {
    if n.Some? then Some(IntToString(n.value)) else None
  }

  lemma SlotValueSnoc(slots: seq<Slot>, x: Slot, flag: Flag)
    ensures SlotValue(slots + [x], flag) ==
              if x.Some? && x.value.0 == flag then Some(x.value.1) else SlotValue(slots, flag)
  {
    assert (slots + [x])[..|slots|] == slots;
  }

  /** The slots of `buildRuntimeArgs` forward exactly the reference values. */
  lemma SlotsForward(o: Options, f: Flag)
    ensures SlotValue(Slots(o), f) == ForwardedValue(o, f)
  {
    if o.reviewerMode == "cli" {
      CliSlotsForward(o, f);
    } else {
      DeterministicSlotsForward(o, f);
    }
  }

  /** The task id and instruction slots that start both lists. */
  lemma Head(o: Options, f: Flag) returns (r: seq<Slot>)
    ensures r == [Some((TaskId, o.taskId))] + [Some((Instruction, o.instruction))]
    ensures SlotValue(r, f) ==
              if f == TaskId then Some(o.taskId) else if f == Instruction then Some(o.instruction) else None
  {
    var s1: seq<Slot> := [Some((TaskId, o.taskId))];
    assert s1[..0] == [];
    r := s1 + [Some((Instruction, o.instruction))];
    SlotValueSnoc(s1, Some((Instruction, o.instruction)), f);
  }

  lemma CliSlotsForward(o: Options, f: Flag)
    requires o.reviewerMode == "cli"
    ensures SlotValue(Slots(o), f) == ForwardedValue(o, f)
  {
    var s2 := Head(o, f);
    var s3 := s2 + [Some((CliHomeModeFlag, o.cliHomeMode))];
    SlotValueSnoc(s2, Some((CliHomeModeFlag, o.cliHomeMode)), f);
    var s5 := Configs(s3, o, f);
    var s6 := s5 + [TextSlot(CodexModel, o.codexModel)];
    SlotValueSnoc(s5, TextSlot(CodexModel, o.codexModel), f);
    var s7 := s6 + [TextSlot(ClaudeModel, o.claudeModel)];
    SlotValueSnoc(s6, TextSlot(ClaudeModel, o.claudeModel), f);
    var s8 := s7 + [NumSlot(MaxPasses, o.maxPasses)];
    SlotValueSnoc(s7, NumSlot(MaxPasses, o.maxPasses), f);
    var s9 := s8 + [NumSlot(CliTimeoutMs, o.cliTimeoutMs)];
    SlotValueSnoc(s8, NumSlot(CliTimeoutMs, o.cliTimeoutMs), f);
    var s10 := s9 + [NumSlot(ReviewInputMaxChars, o.reviewInputMaxChars)];
    SlotValueSnoc(s9, NumSlot(ReviewInputMaxChars, o.reviewInputMaxChars), f);
    var s11 := s10 + [NumSlot(ReviewInputExcerptChars, o.reviewInputExcerptChars)];
    SlotValueSnoc(s10, NumSlot(ReviewInputExcerptChars, o.reviewInputExcerptChars), f);
    assert Slots(o) == s11;
  }

  lemma DeterministicSlotsForward(o: Options, f: Flag)
    requires o.reviewerMode != "cli"
    ensures SlotValue(Slots(o), f) == ForwardedValue(o, f)
  {
    var s2 := Head(o, f);
    var s4 := Configs(s2, o, f);
    var s5 := s4 + [NumSlot(MaxPasses, o.maxPasses)];
    SlotValueSnoc(s4, NumSlot(MaxPasses, o.maxPasses), f);
    assert Slots(o) == s5;
  }

  /** The two configuration slots after `s`. */
  lemma Configs(s: seq<Slot>, o: Options, f: Flag) returns (r: seq<Slot>)
    ensures r == s + [AgentsSlot(o)] + [ProfilesSlot(o)]
    ensures SlotValue(r, f) ==
              if f == AgentsConfigJson && AgentsSlot(o).Some? then Some(o.agentsConfigJson)
              else if f == AgentProfilesJson && ProfilesSlot(o).Some? then Some(o.agentProfilesJson)
              else SlotValue(s, f)
  {
    r := s + [AgentsSlot(o)] + [ProfilesSlot(o)];
    SlotValueSnoc(s, AgentsSlot(o), f);
    SlotValueSnoc(s + [AgentsSlot(o)], ProfilesSlot(o), f);
  }

  /** The words before the forwarded ones (node, the runtime's script and
      the npm script's own options) mention no option the runner forwards
      and not the diff switch. */
  ghost predicate ScriptWords(pre: seq<string>) {
    && (forall f: Flag :: f != ReviewerModeFlag ==> FlagName(f) !in pre)
    && "--include-full-git-diff" !in pre
  }

  /** The runtime reads each forwarded option as `buildRuntimeArgs` passed
      it, and its own default for an option that was not passed. */
  lemma RuntimeReadsForwarded(o: Options, pre: seq<string>, f: Flag, d: string)
    requires PlainOptions(o) && ScriptWords(pre) && f != ReviewerModeFlag
    ensures RuntimeMain.ArgValue(pre + Forwarded(o), FlagName(f), d) ==
              if ForwardedValue(o, f).Some? then ForwardedValue(o, f).value else d
  {
    SlotsForward(o, f);
    ReadForwarded(o, pre, f, d);
  }

  /** The diff switch reaches the runtime exactly in cli mode with the
      switch given. */
  lemma RuntimeSeesDiffSwitch(o: Options, pre: seq<string>)
    requires PlainOptions(o) && ScriptWords(pre)
    ensures RuntimeMain.HasFlag(pre + Forwarded(o), "--include-full-git-diff") <==>
              o.reviewerMode == "cli" && o.includeFullGitDiff
  {
    SlotsWellFormed(o);
    NoSwitchInSlots(Slots(o), "--include-full-git-diff");
  }

  /** What `parseArgs` lets through can be forwarded: its modes and its
      configuration files are valid and none of its values is an option. */
  lemma ParsedForwardable(ctx: Context, argv: seq<string>)
    requires PlainPaths(ctx) && ParseArgsOf(ctx, argv).Parsed?
    ensures ValidOptions(ParseArgsOf(ctx, argv).options) && PlainOptions(ParseArgsOf(ctx, argv).options)
  {
    ParsedPlain(ctx, argv);
  }

  /** The runtime's view of forwardable options: the task, the instruction,
      the pass limit, the CLI home mode and the configuration file, read
      with the runtime's own defaults from the script's words followed by
      the forwarded ones. */
  lemma RuntimeSeesOptions(o: Options, pre: seq<string>)
    requires ValidOptions(o) && PlainOptions(o) && ScriptWords(pre)
    ensures var run := pre + Forwarded(o);
      && RuntimeMain.ArgValue(run, FlagName(TaskId), "task-demo-001") == o.taskId
      && RuntimeMain.ArgValue(run, FlagName(Instruction), "Please review this change set.") == o.instruction
      && (o.maxPasses.Some? ==> StringToNumber(RuntimeMain.ArgValue(run, FlagName(MaxPasses), "10")) == Int(o.maxPasses.value))
      && (o.maxPasses.None? ==> RuntimeMain.ArgValue(run, FlagName(MaxPasses), "10") == "10")
      && RuntimeMain.CliHomeModeOf(run) == (if o.reviewerMode == "cli" then o.cliHomeMode else "isolated")
      && RuntimeMain.ConfigPath(run) == Trim(if o.agentsConfigJson != "" then o.agentsConfigJson else o.agentProfilesJson)
  {
    RuntimeTaskAndInstruction(o, pre, "task-demo-001", "Please review this change set.");
    RuntimeMaxPasses(o, pre, "10");
    RuntimeCliHomeMode(o, pre);
    RuntimeConfigPath(o, pre);
  }

  /** The task and the instruction always reach the runtime. */
  lemma RuntimeTaskAndInstruction(o: Options, pre: seq<string>, taskDefault: string, instructionDefault: string)
    requires PlainOptions(o) && ScriptWords(pre)
    ensures RuntimeMain.ArgValue(pre + Forwarded(o), FlagName(TaskId), taskDefault) == o.taskId
    ensures RuntimeMain.ArgValue(pre + Forwarded(o), FlagName(Instruction), instructionDefault) == o.instruction
  {
    RuntimeReadsForwarded(o, pre, TaskId, taskDefault);
    RuntimeReadsForwarded(o, pre, Instruction, instructionDefault);
  }

  /** The pass limit reaches the runtime as the number it was, and the
      runtime's default stands when there is none. */
  lemma RuntimeMaxPasses(o: Options, pre: seq<string>, d: string)
    requires PlainOptions(o) && ScriptWords(pre)
    ensures o.maxPasses.Some? ==>
              StringToNumber(RuntimeMain.ArgValue(pre + Forwarded(o), FlagName(MaxPasses), d)) == Int(o.maxPasses.value)
    ensures o.maxPasses.None? ==> RuntimeMain.ArgValue(pre + Forwarded(o), FlagName(MaxPasses), d) == d
  {
    RuntimePassesWord(o, pre, d);
    if o.maxPasses.Some? {
      NumberOfPrintedInt(o.maxPasses.value);
    }
  }

  /** The word the runtime reads for the pass limit: the printed limit, or
      the runtime's default. */
  lemma RuntimePassesWord(o: Options, pre: seq<string>, d: string)
    requires PlainOptions(o) && ScriptWords(pre)
    ensures RuntimeMain.ArgValue(pre + Forwarded(o), FlagName(MaxPasses), d) ==
              if o.maxPasses.Some? then IntToString(o.maxPasses.value) else d
  {
    if o.maxPasses.Some? {
      assert ForwardedValue(o, MaxPasses) == Some(IntToString(o.maxPasses.value));
    } else {
      assert ForwardedValue(o, MaxPasses) == None;
    }
    RuntimeReadsForwarded(o, pre, MaxPasses, d);
  }

  lemma RuntimeCliHomeMode(o: Options, pre: seq<string>)
    requires PlainOptions(o) && ScriptWords(pre) && ValidOptions(o)
    ensures RuntimeMain.CliHomeModeOf(pre + Forwarded(o)) == if o.reviewerMode == "cli" then o.cliHomeMode else "isolated"
  {
    RuntimeReadsForwarded(o, pre, CliHomeModeFlag, "isolated");
    assert FlagName(CliHomeModeFlag) == "--cli-home-mode";
  }

  lemma RuntimeConfigPath(o: Options, pre: seq<string>)
    requires PlainOptions(o) && ScriptWords(pre)
    ensures RuntimeMain.ConfigPath(pre + Forwarded(o)) ==
              Trim(if o.agentsConfigJson != "" then o.agentsConfigJson else o.agentProfilesJson)
  {
    var a := if o.agentsConfigJson != "" then o.agentsConfigJson else "";
    var p := if o.agentsConfigJson == "" && o.agentProfilesJson != "" then o.agentProfilesJson else "";
    RuntimeConfigWords(o, pre);
    ConfigPathOf(pre + Forwarded(o), a, p);
    assert (if a != "" then a else p) == (if o.agentsConfigJson != "" then o.agentsConfigJson else o.agentProfilesJson);
  }

  /** The words the runtime reads for its two configuration files. */
  lemma RuntimeConfigWords(o: Options, pre: seq<string>)
    requires PlainOptions(o) && ScriptWords(pre)
    ensures RuntimeMain.ArgValue(pre + Forwarded(o), FlagName(AgentsConfigJson), "") ==
              if o.agentsConfigJson != "" then o.agentsConfigJson else ""
    ensures RuntimeMain.ArgValue(pre + Forwarded(o), FlagName(AgentProfilesJson), "") ==
              if o.agentsConfigJson == "" && o.agentProfilesJson != "" then o.agentProfilesJson else ""
  {
    RuntimeReadsWord(o, pre, AgentsConfigJson);
    assert ForwardedValue(o, AgentsConfigJson) == if o.agentsConfigJson != "" then Some(o.agentsConfigJson) else None;
    RuntimeReadsWord(o, pre, AgentProfilesJson);
    assert ForwardedValue(o, AgentProfilesJson) ==
           if o.agentsConfigJson == "" && o.agentProfilesJson != "" then Some(o.agentProfilesJson) else None;
  }

  /** The word the runtime reads for a forwarded option, with an empty default. */
  lemma RuntimeReadsWord(o: Options, pre: seq<string>, f: Flag)
    requires PlainOptions(o) && ScriptWords(pre) && f != ReviewerModeFlag
    ensures RuntimeMain.ArgValue(pre + Forwarded(o), FlagName(f), "") ==
              if ForwardedValue(o, f).Some? then ForwardedValue(o, f).value else ""
  {
    RuntimeReadsForwarded(o, pre, f, "");
  }

  /** The runtime's configuration path from the two words it read, when only
      one of them can be non-empty. */
  lemma ConfigPathOf(run: seq<string>, a: string, p: string)
    requires RuntimeMain.ArgValue(run, FlagName(AgentsConfigJson), "") == a
    requires RuntimeMain.ArgValue(run, FlagName(AgentProfilesJson), "") == p
    requires a != "" ==> p == ""
    ensures RuntimeMain.ConfigPath(run) == Trim(if a != "" then a else p)
  {
    assert FlagName(AgentsConfigJson) == "--agents-config-json";
    assert FlagName(AgentProfilesJson) == "--agent-profiles-json";
    TrimEmpty();
  }

  lemma TrimEmpty()
    ensures Trim("") == ""
  {
  }

  // ---------------------------------------------------------------------------
  // The runner's own scenarios
  // ---------------------------------------------------------------------------

  /** The loop reads a recognised option with its value and goes on after it. */
  lemma ScanOption(ctx: Context, o: Options, f: Flag, value: string, rest: seq<string>)
    requires Plain(value) && SetFlag(ctx, o, f, value).Success?
    ensures ScanArgs(ctx, [FlagName(f), value] + rest, o) == ScanArgs(ctx, rest, SetFlag(ctx, o, f, value).value)
  {
    var args := [FlagName(f), value] + rest;
    FlagNameShape(f);
    FlagOfName(f);
    assert args[0] == FlagName(f) && args[1] == value;
    assert args[2..] == rest;
  }

  /** Deterministic mode with a task, an instruction and a pass limit
      parses to those options over the defaults. */
  lemma DeterministicParse(ctx: Context)
    requires DefaultOptions(ctx).Success?
    ensures ParseArgsOf(ctx, ["--reviewer-mode", "deterministic", "--task-id", "task-det",
                              "--instruction", "normal review", "--max-passes", "4"]) ==
            Parsed(DefaultOptions(ctx).value.(reviewerMode := "deterministic", taskId := "task-det",
                                              instruction := "normal review", maxPasses := Some(4)))
  {
    DeterministicWords();
    DeterministicScan(ctx);
  }

  /** The test's command line spelled with the flag names. */
  lemma DeterministicWords()
    ensures [FlagName(ReviewerModeFlag), "deterministic"] + ([FlagName(TaskId), "task-det"] +
              ([FlagName(Instruction), "normal review"] + [FlagName(MaxPasses), "4"])) ==
            ["--reviewer-mode", "deterministic", "--task-id", "task-det",
             "--instruction", "normal review", "--max-passes", "4"]
  {
  }

  /** The scan of that command line, option by option. */
  lemma DeterministicScan(ctx: Context)
    requires DefaultOptions(ctx).Success?
    ensures ParseArgsOf(ctx, [FlagName(ReviewerModeFlag), "deterministic"] + ([FlagName(TaskId), "task-det"] +
              ([FlagName(Instruction), "normal review"] + [FlagName(MaxPasses), "4"]))) ==
            Parsed(DefaultOptions(ctx).value.(reviewerMode := "deterministic", taskId := "task-det",
                                              instruction := "normal review", maxPasses := Some(4)))
  {
    var d := DefaultOptions(ctx).value;
    var o1 := d.(reviewerMode := "deterministic");
    var o2 := o1.(taskId := "task-det");
    var o3 := o2.(instruction := "normal review");
    var o4 := o3.(maxPasses := Some(4));
    DeterministicSteps(ctx, d);
    ScanFourOptions(ctx, d, ReviewerModeFlag, "deterministic", o1, TaskId, "task-det", o2,
                    Instruction, "normal review", o3, MaxPasses, "4", o4);
    assert ValidOptions(o4);
    ParseOfScan(ctx, [FlagName(ReviewerModeFlag), "deterministic"] + ([FlagName(TaskId), "task-det"] +
                  ([FlagName(Instruction), "normal review"] + [FlagName(MaxPasses), "4"])), o4);
  }

  /** Four option pairs the loop reads one after the other, each setting the
      options named after it, and nothing after them. */
  lemma ScanFourOptions(ctx: Context, o: Options, f1: Flag, v1: string, o1: Options, f2: Flag, v2: string, o2: Options,
                        f3: Flag, v3: string, o3: Options, f4: Flag, v4: string, o4: Options)
    requires Plain(v1) && SetFlag(ctx, o, f1, v1) == Success(o1)
    requires Plain(v2) && SetFlag(ctx, o1, f2, v2) == Success(o2)
    requires Plain(v3) && SetFlag(ctx, o2, f3, v3) == Success(o3)
    requires Plain(v4) && SetFlag(ctx, o3, f4, v4) == Success(o4)
    ensures ScanArgs(ctx, [FlagName(f1), v1] + ([FlagName(f2), v2] + ([FlagName(f3), v3] + [FlagName(f4), v4])), o) ==
            Parsed(o4)
  {
    var t4 := [FlagName(f4), v4];
    var t3 := [FlagName(f3), v3] + t4;
    var t2 := [FlagName(f2), v2] + t3;
    assert t4 == [FlagName(f4), v4] + [];
    ScanOptionTo(ctx, o3, f4, v4, [], o4);
    ScanOptionTo(ctx, o2, f3, v3, t4, o3);
    ScanOptionTo(ctx, o1, f2, v2, t3, o2);
    ScanOptionTo(ctx, o, f1, v1, t2, o1);
  }

  /** A command line the loop reads to the end, from the defaults, into
      options that pass the final checks parses to those options. */
  lemma ParseOfScan(ctx: Context, args: seq<string>, o: Options)
    requires DefaultOptions(ctx).Success? && ScanArgs(ctx, args, DefaultOptions(ctx).value) == Parsed(o)
    requires ValidOptions(o)
    ensures ParseArgsOf(ctx, args) == Parsed(o)
  {
  }

  /** The options each word pair of that command line sets. */
  lemma DeterministicSteps(ctx: Context, d: Options)
    ensures var o1 := d.(reviewerMode := "deterministic");
      var o2 := o1.(taskId := "task-det");
      var o3 := o2.(instruction := "normal review");
      var o4 := o3.(maxPasses := Some(4));
      && Plain("deterministic") && Plain("task-det") && Plain("normal review") && Plain("4")
      && SetFlag(ctx, d, ReviewerModeFlag, "deterministic") == Success(o1)
      && SetFlag(ctx, o1, TaskId, "task-det") == Success(o2)
      && SetFlag(ctx, o2, Instruction, "normal review") == Success(o3)
      && SetFlag(ctx, o3, MaxPasses, "4") == Success(o4)
  {
    var o1 := d.(reviewerMode := "deterministic");
    var o2 := o1.(taskId := "task-det");
    var o3 := o2.(instruction := "normal review");
    LetterPlain("deterministic");
    LetterPlain("task-det");
    LetterPlain("normal review");
    LetterPlain("4");
    TextStep(ctx, d, ReviewerModeFlag, "deterministic");
    TextStep(ctx, o1, TaskId, "task-det");
    TextStep(ctx, o2, Instruction, "normal review");
    assert IntToString(4) == "4";
    NumberStep(ctx, o3, MaxPasses, 4);
  }

  /** An option that stores its value as text sets that field. */
  lemma TextStep(ctx: Context, o: Options, f: Flag, value: string)
    requires !f.Numeric()
    ensures SetFlag(ctx, o, f, value) == Success(SetText(ctx, o, f, value))
  {
  }

  /** A numeric option with a printed positive number stores that number. */
  lemma NumberStep(ctx: Context, o: Options, f: Flag, n: int)
    requires f.Numeric() && n > 0
    ensures SetFlag(ctx, o, f, IntToString(n)) == SetNumber(o, f, Success(n))
  {
    ToIntPrinted(n, NumberName(f));
  }

  /** A switch of the scan sets its field and reads no value. */
  lemma ScanDiffSwitch(ctx: Context, o: Options, rest: seq<string>)
    ensures ScanArgs(ctx, ["--include-full-git-diff"] + rest, o) == ScanArgs(ctx, rest, o.(includeFullGitDiff := true))
  {
    var args := ["--include-full-git-diff"] + rest;
    assert args[0] == "--include-full-git-diff";
    assert args[1..] == rest;
  }

  /** One option pair of the scan, with the options it sets named. */
  lemma ScanOptionTo(ctx: Context, o: Options, f: Flag, value: string, rest: seq<string>, o': Options)
    requires Plain(value) && SetFlag(ctx, o, f, value) == Success(o')
    ensures ScanArgs(ctx, [FlagName(f), value] + rest, o) == ScanArgs(ctx, rest, o')
  {
    ScanOption(ctx, o, f, value, rest);
  }

  /** ... and those options are forwarded as the task, the instruction and
      the pass limit, with no configuration file. */
  lemma DeterministicRunArgs(o: Options)
    requires o.reviewerMode == "deterministic" && o.taskId == "task-det" && o.instruction == "normal review"
    requires o.maxPasses == Some(4) && o.agentsConfigJson == "" && o.agentProfilesJson == ""
    ensures RuntimeArgs(o) == ["run", "poc:runtime", "--", "--task-id", "task-det",
                               "--instruction", "normal review", "--max-passes", "4"]
  {
    assert o.reviewerMode != "cli" by {
      assert |o.reviewerMode| == 13;
    }
    DeterministicPieces(o);
    assert IntToString(4) == "4";
    assert Launch(o) == ["run", "poc:runtime", "--"];
    assert Trailing(o) == [];
  }

  /** Deterministic mode with a pass limit and no configuration file forwards
      the task, the instruction and the pass limit, in that order. */
  lemma DeterministicPieces(o: Options)
    requires o.reviewerMode != "cli" && o.agentsConfigJson == "" && o.agentProfilesJson == ""
    requires o.maxPasses.Some?
    ensures Flatten(Slots(o)) ==
              [FlagName(TaskId), o.taskId] + [FlagName(Instruction), o.instruction]
              + [FlagName(MaxPasses), IntToString(o.maxPasses.value)]
  {
    var h := [Some((TaskId, o.taskId))] + [Some((Instruction, o.instruction))];
    FlattenTwo(Some((TaskId, o.taskId)), Some((Instruction, o.instruction)));
    FlattenSnoc(h, None);
    FlattenSnoc(h + [None], None);
    FlattenSnoc(h + [None] + [None], NumSlot(MaxPasses, o.maxPasses));
    assert Slots(o) == h + [None] + [None] + [NumSlot(MaxPasses, o.maxPasses)];
  }

  /** Cli mode with every text and number option set and no configuration
      file forwards each of them as a flag and its value, in the order of
      the pushes. */
  lemma CliPieces(o: Options)
    requires o.reviewerMode == "cli" && o.agentsConfigJson == "" && o.agentProfilesJson == ""
    requires o.codexModel != "" && o.claudeModel != ""
    requires o.maxPasses.Some? && o.cliTimeoutMs.Some?
    requires o.reviewInputMaxChars.Some? && o.reviewInputExcerptChars.Some?
    ensures Flatten(Slots(o)) ==
              [FlagName(TaskId), o.taskId] + [FlagName(Instruction), o.instruction]
              + [FlagName(CliHomeModeFlag), o.cliHomeMode]
              + [FlagName(CodexModel), o.codexModel] + [FlagName(ClaudeModel), o.claudeModel]
              + [FlagName(MaxPasses), IntToString(o.maxPasses.value)]
              + [FlagName(CliTimeoutMs), IntToString(o.cliTimeoutMs.value)]
              + [FlagName(ReviewInputMaxChars), IntToString(o.reviewInputMaxChars.value)]
              + [FlagName(ReviewInputExcerptChars), IntToString(o.reviewInputExcerptChars.value)]
  {
    var a := Some((TaskId, o.taskId));
    var b := Some((Instruction, o.instruction));
    var c := Some((CliHomeModeFlag, o.cliHomeMode));
    FlattenThree(a, b, c);
    var s3 := [a] + [b] + [c];
    var w3 := Piece(a) + Piece(b) + Piece(c);
    FlattenSnoc(s3, AgentsSlot(o));
    var s4 := s3 + [AgentsSlot(o)];
    FlattenSnoc(s4, ProfilesSlot(o));
    var s5 := s4 + [ProfilesSlot(o)];
    assert Flatten(s5) == w3;
    FlattenSnoc(s5, TextSlot(CodexModel, o.codexModel));
    var s6 := s5 + [TextSlot(CodexModel, o.codexModel)];
    var w6 := w3 + [FlagName(CodexModel), o.codexModel];
    FlattenSnoc(s6, TextSlot(ClaudeModel, o.claudeModel));
    var s7 := s6 + [TextSlot(ClaudeModel, o.claudeModel)];
    var w7 := w6 + [FlagName(ClaudeModel), o.claudeModel];
    FlattenSnoc(s7, NumSlot(MaxPasses, o.maxPasses));
    var s8 := s7 + [NumSlot(MaxPasses, o.maxPasses)];
    var w8 := w7 + [FlagName(MaxPasses), IntToString(o.maxPasses.value)];
    FlattenSnoc(s8, NumSlot(CliTimeoutMs, o.cliTimeoutMs));
    var s9 := s8 + [NumSlot(CliTimeoutMs, o.cliTimeoutMs)];
    var w9 := w8 + [FlagName(CliTimeoutMs), IntToString(o.cliTimeoutMs.value)];
    FlattenSnoc(s9, NumSlot(ReviewInputMaxChars, o.reviewInputMaxChars));
    var s10 := s9 + [NumSlot(ReviewInputMaxChars, o.reviewInputMaxChars)];
    var w10 := w9 + [FlagName(ReviewInputMaxChars), IntToString(o.reviewInputMaxChars.value)];
    FlattenSnoc(s10, NumSlot(ReviewInputExcerptChars, o.reviewInputExcerptChars));
    assert Slots(o) == s10 + [NumSlot(ReviewInputExcerptChars, o.reviewInputExcerptChars)];
  }

  /** The cli-mode options of the runner's test are forwarded as the task,
      the instruction, the home mode, both models, the four numbers and the
      diff switch; the buffer size is not forwarded. */
  lemma CliRunArgs(o: Options)
    requires o.reviewerMode == "cli" && o.cliHomeMode == "host" && o.taskId == "task-cli"
    requires o.instruction == "normal review" && o.codexModel == "gpt-5.3-codex" && o.claudeModel == "claude-sonnet"
    requires o.maxPasses == Some(7) && o.cliTimeoutMs == Some(240000)
    requires o.reviewInputMaxChars == Some(90000) && o.reviewInputExcerptChars == Some(20000)
    requires o.includeFullGitDiff && o.agentsConfigJson == "" && o.agentProfilesJson == ""
    ensures RuntimeArgs(o) == ["run", "poc:runtime:cli", "--", "--task-id", "task-cli",
                               "--instruction", "normal review", "--cli-home-mode", "host",
                               "--codex-model", "gpt-5.3-codex", "--claude-model", "claude-sonnet",
                               "--max-passes", "7", "--cli-timeout-ms", "240000",
                               "--review-input-max-chars", "90000", "--review-input-excerpt-chars", "20000",
                               "--include-full-git-diff"]
  {
    CliPieces(o);
    CliNumbers();
    CliWords(o.taskId, o.instruction, o.cliHomeMode, o.codexModel, o.claudeModel);
  }

  /** The four numbers of that test as the runner prints them. */
  lemma CliNumbers()
    ensures IntToString(7) == "7" && IntToString(240000) == "240000"
    ensures IntToString(90000) == "90000" && IntToString(20000) == "20000"
  {
  }

  /** The flag names of the cli-mode words as written. */
  lemma CliWords(task: string, instruction: string, home: string, codex: string, claude: string)
    ensures ["run", "poc:runtime:cli", "--"] + (
              [FlagName(TaskId), task] + [FlagName(Instruction), instruction]
              + [FlagName(CliHomeModeFlag), home]
              + [FlagName(CodexModel), codex] + [FlagName(ClaudeModel), claude]
              + [FlagName(MaxPasses), "7"] + [FlagName(CliTimeoutMs), "240000"]
              + [FlagName(ReviewInputMaxChars), "90000"] + [FlagName(ReviewInputExcerptChars), "20000"]
              + ["--include-full-git-diff"]) ==
            ["run", "poc:runtime:cli", "--", "--task-id", task, "--instruction", instruction,
             "--cli-home-mode", home, "--codex-model", codex, "--claude-model", claude,
             "--max-passes", "7", "--cli-timeout-ms", "240000",
             "--review-input-max-chars", "90000", "--review-input-excerpt-chars", "20000",
             "--include-full-git-diff"]
  {
  }

  /** The cli-mode command line of the runner's test parses to its twelve
      settings over the defaults. */
  lemma CliParse(ctx: Context)
    requires DefaultOptions(ctx).Success?
    ensures ParseArgsOf(ctx, ["--reviewer-mode", "cli", "--cli-home-mode", "host", "--task-id", "task-cli",
                              "--instruction", "normal review", "--codex-model", "gpt-5.3-codex",
                              "--claude-model", "claude-sonnet", "--max-passes", "7", "--cli-timeout-ms", "240000",
                              "--review-input-max-chars", "90000", "--review-input-excerpt-chars", "20000",
                              "--max-buffer-mb", "96", "--include-full-git-diff"]) ==
            Parsed(CliOptions(DefaultOptions(ctx).value))
  {
    CliParseWords();
    CliScan(ctx);
  }

  /** The settings of that command line over `d`. */
  function CliOptions(d: Options): (r: Options)
    ensures r.reviewerMode == "cli" && r.cliHomeMode == "host" && r.taskId == "task-cli"
    ensures r.instruction == "normal review" && r.codexModel == "gpt-5.3-codex" && r.claudeModel == "claude-sonnet"
    ensures r.maxPasses == Some(7) && r.cliTimeoutMs == Some(240000)
    ensures r.reviewInputMaxChars == Some(90000) && r.reviewInputExcerptChars == Some(20000)
    ensures r.maxBufferMb == 96 && r.includeFullGitDiff
    ensures r.agentsConfigJson == d.agentsConfigJson && r.agentProfilesJson == d.agentProfilesJson
  {
    CliNumberOptions(CliTextOptions(d)).(includeFullGitDiff := true)
  }

  function CliTextOptions(d: Options): Options {
    d.(reviewerMode := "cli", cliHomeMode := "host", taskId := "task-cli", instruction := "normal review",
       codexModel := "gpt-5.3-codex", claudeModel := "claude-sonnet")
  }

  function CliNumberOptions(o: Options): Options {
    o.(maxPasses := Some(7), cliTimeoutMs := Some(240000), reviewInputMaxChars := Some(90000),
       reviewInputExcerptChars := Some(20000), maxBufferMb := 96)
  }

  /** The test's cli-mode command line spelled with the flag names. */
  lemma CliParseWords()
    ensures [FlagName(ReviewerModeFlag), "cli"] + ([FlagName(CliHomeModeFlag), "host"] +
              ([FlagName(TaskId), "task-cli"] + ([FlagName(Instruction), "normal review"] +
              ([FlagName(CodexModel), "gpt-5.3-codex"] + ([FlagName(ClaudeModel), "claude-sonnet"] +
              ([FlagName(MaxPasses), "7"] + ([FlagName(CliTimeoutMs), "240000"] +
              ([FlagName(ReviewInputMaxChars), "90000"] + ([FlagName(ReviewInputExcerptChars), "20000"] +
              ([FlagName(MaxBufferMb), "96"] + ["--include-full-git-diff"])))))))))) ==
            ["--reviewer-mode", "cli", "--cli-home-mode", "host", "--task-id", "task-cli",
             "--instruction", "normal review", "--codex-model", "gpt-5.3-codex",
             "--claude-model", "claude-sonnet", "--max-passes", "7", "--cli-timeout-ms", "240000",
             "--review-input-max-chars", "90000", "--review-input-excerpt-chars", "20000",
             "--max-buffer-mb", "96", "--include-full-git-diff"]
  {
  }

  /** The scan of that command line, option by option. */
  lemma CliScan(ctx: Context)
    requires DefaultOptions(ctx).Success?
    ensures ParseArgsOf(ctx, [FlagName(ReviewerModeFlag), "cli"] + ([FlagName(CliHomeModeFlag), "host"] +
              ([FlagName(TaskId), "task-cli"] + ([FlagName(Instruction), "normal review"] +
              ([FlagName(CodexModel), "gpt-5.3-codex"] + ([FlagName(ClaudeModel), "claude-sonnet"] +
              ([FlagName(MaxPasses), "7"] + ([FlagName(CliTimeoutMs), "240000"] +
              ([FlagName(ReviewInputMaxChars), "90000"] + ([FlagName(ReviewInputExcerptChars), "20000"] +
              ([FlagName(MaxBufferMb), "96"] + ["--include-full-git-diff"]))))))))))) ==
            Parsed(CliOptions(DefaultOptions(ctx).value))
  {
    var d := DefaultOptions(ctx).value;
    var t12 := ["--include-full-git-diff"];
    var t11 := [FlagName(MaxBufferMb), "96"] + t12;
    var t10 := [FlagName(ReviewInputExcerptChars), "20000"] + t11;
    var t9 := [FlagName(ReviewInputMaxChars), "90000"] + t10;
    var t8 := [FlagName(CliTimeoutMs), "240000"] + t9;
    var t7 := [FlagName(MaxPasses), "7"] + t8;
    var t6 := [FlagName(ClaudeModel), "claude-sonnet"] + t7;
    var t5 := [FlagName(CodexModel), "gpt-5.3-codex"] + t6;
    var t4 := [FlagName(Instruction), "normal review"] + t5;
    var t3 := [FlagName(TaskId), "task-cli"] + t4;
    var t2 := [FlagName(CliHomeModeFlag), "host"] + t3;
    var t1 := [FlagName(ReviewerModeFlag), "cli"] + t2;
    var o6 := CliTextScan(ctx, d, t7);
    var o11 := CliNumberScan(ctx, o6, t12);
    assert t12 == ["--include-full-git-diff"] + [];
    ScanDiffSwitch(ctx, o11, []);
    assert o11.(includeFullGitDiff := true) == CliOptions(d);
    assert ValidOptions(CliOptions(d));
    assert ParseArgsOf(ctx, t1) == AfterScan(ScanArgs(ctx, t1, d));
  }

  /** The six text options of the cli-mode command line. */
  lemma CliTextScan(ctx: Context, d: Options, rest: seq<string>) returns (o6: Options)
    ensures o6 == CliTextOptions(d)
    ensures ScanArgs(ctx, [FlagName(ReviewerModeFlag), "cli"] + ([FlagName(CliHomeModeFlag), "host"] +
              ([FlagName(TaskId), "task-cli"] + ([FlagName(Instruction), "normal review"] +
              ([FlagName(CodexModel), "gpt-5.3-codex"] + ([FlagName(ClaudeModel), "claude-sonnet"] + rest))))), d) ==
            ScanArgs(ctx, rest, o6)
  {
    var r4 := [FlagName(Instruction), "normal review"] +
              ([FlagName(CodexModel), "gpt-5.3-codex"] + ([FlagName(ClaudeModel), "claude-sonnet"] + rest));
    var o3 := CliModeScan(ctx, d, r4);
    o6 := CliTaskScan(ctx, o3, rest);
  }

  /** The reviewer mode, home mode and task of the cli-mode command line. */
  lemma CliModeScan(ctx: Context, d: Options, rest: seq<string>) returns (o3: Options)
    ensures o3 == d.(reviewerMode := "cli", cliHomeMode := "host", taskId := "task-cli")
    ensures ScanArgs(ctx, [FlagName(ReviewerModeFlag), "cli"] + ([FlagName(CliHomeModeFlag), "host"] +
              ([FlagName(TaskId), "task-cli"] + rest)), d) ==
            ScanArgs(ctx, rest, o3)
  {
    var o1 := d.(reviewerMode := "cli");
    var o2 := o1.(cliHomeMode := "host");
    o3 := o2.(taskId := "task-cli");
    LetterPlain("cli");
    LetterPlain("host");
    LetterPlain("task-cli");
    TextStep(ctx, d, ReviewerModeFlag, "cli");
    TextStep(ctx, o1, CliHomeModeFlag, "host");
    TextStep(ctx, o2, TaskId, "task-cli");
    var r3 := [FlagName(TaskId), "task-cli"] + rest;
    var r2 := [FlagName(CliHomeModeFlag), "host"] + r3;
    ScanOptionTo(ctx, o2, TaskId, "task-cli", rest, o3);
    ScanOptionTo(ctx, o1, CliHomeModeFlag, "host", r3, o2);
    ScanOptionTo(ctx, d, ReviewerModeFlag, "cli", r2, o1);
  }

  /** The instruction and the two models of the cli-mode command line. */
  lemma CliTaskScan(ctx: Context, o: Options, rest: seq<string>) returns (o3: Options)
    ensures o3 == o.(instruction := "normal review", codexModel := "gpt-5.3-codex", claudeModel := "claude-sonnet")
    ensures ScanArgs(ctx, [FlagName(Instruction), "normal review"] +
              ([FlagName(CodexModel), "gpt-5.3-codex"] + ([FlagName(ClaudeModel), "claude-sonnet"] + rest)), o) ==
            ScanArgs(ctx, rest, o3)
  {
    var o1 := o.(instruction := "normal review");
    var o2 := o1.(codexModel := "gpt-5.3-codex");
    o3 := o2.(claudeModel := "claude-sonnet");
    LetterPlain("normal review");
    LetterPlain("gpt-5.3-codex");
    LetterPlain("claude-sonnet");
    TextStep(ctx, o, Instruction, "normal review");
    TextStep(ctx, o1, CodexModel, "gpt-5.3-codex");
    TextStep(ctx, o2, ClaudeModel, "claude-sonnet");
    var r3 := [FlagName(ClaudeModel), "claude-sonnet"] + rest;
    var r2 := [FlagName(CodexModel), "gpt-5.3-codex"] + r3;
    ScanOptionTo(ctx, o2, ClaudeModel, "claude-sonnet", rest, o3);
    ScanOptionTo(ctx, o1, CodexModel, "gpt-5.3-codex", r3, o2);
    ScanOptionTo(ctx, o, Instruction, "normal review", r2, o1);
  }

  /** The five numeric options of the cli-mode command line. */
  lemma CliNumberScan(ctx: Context, o: Options, rest: seq<string>) returns (o5: Options)
    ensures o5 == CliNumberOptions(o)
    ensures ScanArgs(ctx, [FlagName(MaxPasses), "7"] + ([FlagName(CliTimeoutMs), "240000"] +
              ([FlagName(ReviewInputMaxChars), "90000"] + ([FlagName(ReviewInputExcerptChars), "20000"] +
              ([FlagName(MaxBufferMb), "96"] + rest)))), o) ==
            ScanArgs(ctx, rest, o5)
  {
    var o1 := o.(maxPasses := Some(7));
    var o2 := o1.(cliTimeoutMs := Some(240000));
    var o3 := o2.(reviewInputMaxChars := Some(90000));
    var o4 := o3.(reviewInputExcerptChars := Some(20000));
    o5 := o4.(maxBufferMb := 96);
    CliNumbers();
    assert IntToString(96) == "96";
    LetterPlain("7");
    LetterPlain("240000");
    LetterPlain("90000");
    LetterPlain("20000");
    LetterPlain("96");
    NumberStep(ctx, o, MaxPasses, 7);
    NumberStep(ctx, o1, CliTimeoutMs, 240000);
    NumberStep(ctx, o2, ReviewInputMaxChars, 90000);
    NumberStep(ctx, o3, ReviewInputExcerptChars, 20000);
    NumberStep(ctx, o4, MaxBufferMb, 96);
    var r5 := [FlagName(MaxBufferMb), "96"] + rest;
    var r4 := [FlagName(ReviewInputExcerptChars), "20000"] + r5;
    var r3 := [FlagName(ReviewInputMaxChars), "90000"] + r4;
    var r2 := [FlagName(CliTimeoutMs), "240000"] + r3;
    ScanOptionTo(ctx, o4, MaxBufferMb, "96", rest, o5);
    ScanOptionTo(ctx, o3, ReviewInputExcerptChars, "20000", r5, o4);
    ScanOptionTo(ctx, o2, ReviewInputMaxChars, "90000", r4, o3);
    ScanOptionTo(ctx, o1, CliTimeoutMs, "240000", r3, o2);
    ScanOptionTo(ctx, o, MaxPasses, "7", r2, o1);
  }

  /** Deterministic options naming an agent-definition file forward it and
      not the reviewer-profiles file, whatever that holds. */
  lemma PrecedenceRunArgs(o: Options)
    requires o.reviewerMode == "deterministic" && o.taskId == "task-def" && o.instruction == "normal review"
    requires o.agentsConfigJson != "" && o.maxPasses.None?
    ensures RuntimeArgs(o) == ["run", "poc:runtime", "--", "--task-id", "task-def",
                               "--instruction", "normal review", "--agents-config-json", o.agentsConfigJson]
  {
    var a := Some((TaskId, o.taskId));
    var b := Some((Instruction, o.instruction));
    FlattenThree(a, b, AgentsSlot(o));
    FlattenSnoc([a] + [b] + [AgentsSlot(o)], None);
    FlattenSnoc([a] + [b] + [AgentsSlot(o)] + [None], None);
    assert Slots(o) == [a] + [b] + [AgentsSlot(o)] + [None] + [None];
  }

  /** The precedence test's command line parses to the deterministic mode,
      its task and the resolved agent-definition file over the defaults, for
      any path that does not start with a dash. */
  lemma PrecedenceParse(ctx: Context, path: string)
    requires DefaultOptions(ctx).Success? && |path| > 0 && path[0] != '-'
    ensures ParseArgsOf(ctx, ["--reviewer-mode", "deterministic", "--task-id", "task-def",
                              "--instruction", "normal review", "--agents-config-json", path]) ==
            Parsed(DefaultOptions(ctx).value.(reviewerMode := "deterministic", taskId := "task-def",
                     instruction := "normal review", agentsConfigJson := ctx.resolve(path)))
  {
    PrecedenceWords(path);
    PrecedenceScan(ctx, path);
  }

  /** The precedence test's command line spelled with the flag names. */
  lemma PrecedenceWords(path: string)
    ensures [FlagName(ReviewerModeFlag), "deterministic"] + ([FlagName(TaskId), "task-def"] +
              ([FlagName(Instruction), "normal review"] + [FlagName(AgentsConfigJson), path])) ==
            ["--reviewer-mode", "deterministic", "--task-id", "task-def",
             "--instruction", "normal review", "--agents-config-json", path]
  {
  }

  /** The scan of that command line, option by option, for any path that is
      no option. */
  lemma PrecedenceScan(ctx: Context, path: string)
    requires DefaultOptions(ctx).Success? && |path| > 0 && path[0] != '-'
    ensures ParseArgsOf(ctx, [FlagName(ReviewerModeFlag), "deterministic"] + ([FlagName(TaskId), "task-def"] +
              ([FlagName(Instruction), "normal review"] + [FlagName(AgentsConfigJson), path]))) ==
            Parsed(DefaultOptions(ctx).value.(reviewerMode := "deterministic", taskId := "task-def",
                     instruction := "normal review", agentsConfigJson := ctx.resolve(path)))
  {
    var d := DefaultOptions(ctx).value;
    var o1 := d.(reviewerMode := "deterministic");
    var o2 := o1.(taskId := "task-def");
    var o3 := o2.(instruction := "normal review");
    var o4 := o3.(agentsConfigJson := ctx.resolve(path));
    PrecedenceSteps(ctx, d, path);
    ScanFourOptions(ctx, d, ReviewerModeFlag, "deterministic", o1, TaskId, "task-def", o2,
                    Instruction, "normal review", o3, AgentsConfigJson, path, o4);
    assert ValidOptions(o4);
    ParseOfScan(ctx, [FlagName(ReviewerModeFlag), "deterministic"] + ([FlagName(TaskId), "task-def"] +
                  ([FlagName(Instruction), "normal review"] + [FlagName(AgentsConfigJson), path])), o4);
  }

  /** The options each word pair of the precedence test's command line sets. */
  lemma PrecedenceSteps(ctx: Context, d: Options, path: string)
    requires |path| > 0 && path[0] != '-'
    ensures var o1 := d.(reviewerMode := "deterministic");
      var o2 := o1.(taskId := "task-def");
      var o3 := o2.(instruction := "normal review");
      && Plain("deterministic") && Plain("task-def") && Plain("normal review") && Plain(path)
      && SetFlag(ctx, d, ReviewerModeFlag, "deterministic") == Success(o1)
      && SetFlag(ctx, o1, TaskId, "task-def") == Success(o2)
      && SetFlag(ctx, o2, Instruction, "normal review") == Success(o3)
      && SetFlag(ctx, o3, AgentsConfigJson, path) == Success(o3.(agentsConfigJson := ctx.resolve(path)))
  {
    var o1 := d.(reviewerMode := "deterministic");
    var o2 := o1.(taskId := "task-def");
    var o3 := o2.(instruction := "normal review");
    LetterPlain("deterministic");
    LetterPlain("task-def");
    LetterPlain("normal review");
    LetterPlain(path);
    TextStep(ctx, d, ReviewerModeFlag, "deterministic");
    TextStep(ctx, o1, TaskId, "task-def");
    TextStep(ctx, o2, Instruction, "normal review");
    TextStep(ctx, o3, AgentsConfigJson, path);
  }
}
