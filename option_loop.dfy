/**
 * The body of main's getopt_long loop (src/main.c:517-635): each option
 * getopt_long returns is resolved to a descriptor of option_data and a
 * "negated" bit, and its effect is applied.  setoptval and run_command (init.c)
 * are recorded as Effect values in the order they are called; exit (n) is an
 * exit status in the result.
 *
 * getopt_long itself is not modelled: a Token is what one call hands back, and
 * FromGetopt says which tokens it can hand back for the compiled tables.
 */
module OptionLoop {
  import opened Wrappers
  import opened OptionTable
  import opened Switches

  // ---------------------------------------------------------------------------
  // Tokens and effects

  /**
   * One result of getopt_long: its return value, the long entry index it stored
   * through &longindex (-1, as main resets it, when it stored none), and optarg.
   */
  datatype Token = Token(ret: int, longindex: int, optarg: Option<string>)

  /** A call to setoptval (key, value), key None for a NULL handle_cmd; or a call to run_command. */
  datatype Effect = SetOpt(key: Option<string>, value: string) | RunCommand(command: string)

  /** The calls one or more options make, whether append_to_log was set, and the exit status if main exits. */
  datatype StepResult = StepResult(effects: seq<Effect>, appendToLog: bool, exit: Option<int>)

  /** getopt_long's report of an unknown option or a missing argument: '?' with no long entry. */
  predicate IsError(tok: Token) {
    tok.ret == '?' as int && tok.longindex == -1
  }

  /** A return value that is a short option character. */
  predicate IsShortName(x: int) {
    32 <= x < 128 && x != ':' as int
  }

  function Letter(x: int): ShortName
    requires IsShortName(x)
  {
    x as char
  }

  /** The argument getopt_long hands over agrees with has_arg. */
  predicate ArgMatches(a: ArgReq, optarg: Option<string>) {
    match a
    case NoArgument => optarg.None?
    case RequiredArgument => optarg.Some?
    case OptionalArgument => true
  }

  /**
   * The tokens getopt_long can return for the tables init_switches built from t:
   * an error; a short option, a letter of short_options, with an argument exactly
   * when a ':' follows the letter's first occurrence there (the first descriptor
   * with that letter, GetoptFindsFirst); or a long option, whose entry's val is
   * returned since its flag is NULL.
   */
  predicate FromGetopt(t: seq<Descriptor>, tok: Token)
    requires Compilable(t)
  {
    var longs := LongOptions(t, |t|);
    IsError(tok) ||
    (tok.longindex == -1 && IsShortName(tok.ret) && FirstWithShort(t, |t|, Letter(tok.ret)).Some? &&
     (tok.optarg.Some? <==> NeedsColon(t[FirstWithShort(t, |t|, Letter(tok.ret)).value]))) ||
    (0 <= tok.longindex < |longs| && longs[tok.longindex].LongOption? &&
     tok.ret == longs[tok.longindex].val && ArgMatches(longs[tok.longindex].hasArg, tok.optarg))
  }

  /**
   * The tables main works with: compilable, descriptors sharing a letter agree
   * on its ':', and every descriptor whose handling reads optarg requires one.
   */
  predicate Ready(t: seq<Descriptor>) {
    Compilable(t) && LettersAgree(t) && forall i :: 0 <= i < |t| ==> Declared(t[i])
  }

  // ---------------------------------------------------------------------------
  // Resolving a token (main.c:532-541)

  /** The long entry a token refers to: longindex, or optmap[ret - 32] for a short option. */
  function EntryIndex(t: seq<Descriptor>, tok: Token): (k: nat)
    requires Compilable(t) && FromGetopt(t, tok) && !IsError(tok)
    ensures k < |LongOptions(t, |t|)|
  {
    if tok.longindex == -1 then
      var c := Letter(tok.ret);
      ShortResolves(t, c);
      OptMap(t, |t|)[c as int - 32]
    else
      tok.longindex
  }

  /** long_options[longindex], one of the entries init_switches made for the descriptor its val names. */
  function Resolved(t: seq<Descriptor>, tok: Token): (e: LongOption)
    requires Compilable(t) && FromGetopt(t, tok) && !IsError(tok)
    ensures EntryFrom(t, |t|, e)
  {
    EntryDetermined(t, |t|, EntryIndex(t, tok));
    LongOptions(t, |t|)[EntryIndex(t, tok)]
  }

  /**
   * Masking the marker off a val recovers the index of an enabled descriptor;
   * the marker is present exactly on "no-" entries, which belong to booleans and
   * take no argument.
   */
  lemma Unmask(t: seq<Descriptor>, e: LongOption)
    requires |t| <= BooleanNegMarker && EntryFrom(t, |t|, e)
    ensures WithoutMarker(e.val) < |t| && t[WithoutMarker(e.val)].longName.Some?
    ensures !HasMarker(e.val) ==> e == LongOption(t[e.val].longName.value, HasArg(t[e.val]), e.val)
    ensures HasMarker(e.val) ==> t[WithoutMarker(e.val)].kind == Boolean && e.hasArg == NoArgument
  {
    if e.val < BooleanNegMarker {
      MarkerRoundTrip(e.val);
    } else {
      MarkerRoundTrip(e.val - BooleanNegMarker);
    }
  }

  // ---------------------------------------------------------------------------
  // The effect of one option (main.c:542-633)

  /** The option's handling finds the argument it reads. */
  predicate ArgPresent(d: Descriptor, optarg: Option<string>) {
    (d.kind == Value || (d.kind.Special? && ReadsArgument(d.kind.action))) ==> optarg.Some?
  }

  /** TOLOWER on an ASCII character. */
  function ToLower(c: char): char {
    if 'A' <= c <= 'Z' then (c as int + 32) as char else c
  }

  /**
   * The flag --parent / --clobber compute (main.c:611-615): set without an
   * argument; with one, set when it starts with '1' or 'y', or with "on", in
   * either case.  The C tests stop at the terminating NUL, hence the lengths.
   */
  function ParentFlag(optarg: Option<string>): bool {
    match optarg
    case None => true
    case Some(s) =>
      (|s| > 0 && (s[0] == '1' || ToLower(s[0]) == 'y')) ||
      (|s| > 1 && ToLower(s[0]) == 'o' && ToLower(s[1]) == 'n')
  }

  /** The setting one character of a -n argument makes (main.c:578-597), None for an illegal one. */
  function LegacySetting(c: char): Option<Effect> {
    match c
    case 'v' => Some(SetOpt(Some("verbose"), "0"))
    case 'H' => Some(SetOpt(Some("addhostdir"), "0"))
    case 'd' => Some(SetOpt(Some("dirstruct"), "0"))
    case 'c' => Some(SetOpt(Some("noclobber"), "1"))
    case 'p' => Some(SetOpt(Some("noparent"), "1"))
    case _ => None
  }

  /** What a -n argument does: the settings made, and the illegal character that stopped it, if any. */
  datatype LegacyResult = LegacyResult(effects: seq<Effect>, illegal: Option<char>)

  /** The -n loop over s, character by character from the left, stopping at the first illegal one. */
  function LegacyNoChars(s: string): LegacyResult {
    if s == [] then LegacyResult([], None)
    else
      var r := LegacyNoChars(s[..|s| - 1]);
      if r.illegal.Some? then r
      else
        match LegacySetting(s[|s| - 1])
        case None => LegacyResult(r.effects, Some(s[|s| - 1]))
        case Some(e) => LegacyResult(r.effects + [e], None)
  }

  /** The effect of an option resolved to descriptor d, negated for a "no-" entry. */
  function Act(d: Descriptor, negated: bool, optarg: Option<string>): StepResult
    requires ArgPresent(d, optarg)
  {
    match d.kind
    case Value => StepResult([SetOpt(d.handleCmd, optarg.value)], false, None)
    case Boolean =>
      var value := if optarg.Some? then optarg.value else if negated then "0" else "1";
      StepResult([SetOpt(d.handleCmd, value)], false, None)
    case Special(action, _) =>
      match action
      case AppendOutput => StepResult([SetOpt(Some("logfile"), optarg.value)], true, None)
      case Help => StepResult([], false, Some(0))
      case Execute => StepResult([RunCommand(optarg.value)], false, None)
      case LegacyNo =>
        var r := LegacyNoChars(optarg.value);
        StepResult(r.effects, false, if r.illegal.Some? then Some(1) else None)
      case Parent | Clobber =>
        var key := if action == Parent then "noparent" else "noclobber";
        StepResult([SetOpt(Some(key), if ParentFlag(optarg) then "0" else "1")], false, None)
      case Version => StepResult([], false, Some(0))
  }

  /** The descriptor option_data[val & ~BOOLEAN_NEG_MARKER] a token that is not an error selects. */
  function Target(t: seq<Descriptor>, tok: Token): (d: Descriptor)
    requires Ready(t) && FromGetopt(t, tok) && !IsError(tok)
    ensures d in t && ArgPresent(d, tok.optarg)
  {
    HandleArgument(t, tok);
    t[WithoutMarker(Resolved(t, tok).val)]
  }

  /** val & BOOLEAN_NEG_MARKER: the token names a "no-" entry. */
  predicate Negated(t: seq<Descriptor>, tok: Token)
    requires Compilable(t) && FromGetopt(t, tok) && !IsError(tok)
  {
    HasMarker(Resolved(t, tok).val)
  }

  /** A token that is not an error: resolve it and act on the descriptor. */
  function Handle(t: seq<Descriptor>, tok: Token): StepResult
    requires Ready(t) && FromGetopt(t, tok) && !IsError(tok)
  {
    Act(Target(t, tok), Negated(t, tok), tok.optarg)
  }

  /** getopt_long supplies the argument the resolved descriptor's handling reads. */
  lemma HandleArgument(t: seq<Descriptor>, tok: Token)
    requires Ready(t) && FromGetopt(t, tok) && !IsError(tok)
    ensures Resolved(t, tok).val < BooleanNegMarker + |t|
    ensures WithoutMarker(Resolved(t, tok).val) < |t|
    ensures ArgPresent(t[WithoutMarker(Resolved(t, tok).val)], tok.optarg)
  {
    var e := Resolved(t, tok);
    Unmask(t, e);
    var i := WithoutMarker(e.val);
    assert Declared(t[i]);
    if tok.longindex == -1 {
      var c := Letter(tok.ret);
      ShortResolves(t, c);
    }
  }

  /**
   * One pass of the loop body, with the '?' test made only when getopt_long
   * stored no long index, as the loop evidently intends: a long option is
   * never mistaken for an error, whatever its val.
   */
  function Dispatch(t: seq<Descriptor>, tok: Token): StepResult
    requires Ready(t) && FromGetopt(t, tok)
  {
    if IsError(tok) then StepResult([], false, Some(2)) else Handle(t, tok)
  }

  /**
   * One pass of the loop body as written (main.c:524-530): ret is compared with
   * '?' before longindex is consulted, so a long option whose val is 63 exits 2.
   */
  function DispatchAsWritten(t: seq<Descriptor>, tok: Token): StepResult
    requires Ready(t) && FromGetopt(t, tok)
  {
    if tok.ret == '?' as int then StepResult([], false, Some(2)) else Handle(t, tok)
  }

  /** The tokens getopt_long returns for the tables built from t. */
  predicate Tokens(t: seq<Descriptor>, toks: seq<Token>)
    requires Compilable(t)
  {
    forall k :: 0 <= k < |toks| ==> FromGetopt(t, toks[k])
  }

  /** What the loop body does with each of the first n tokens on its own. */
  function Steps(t: seq<Descriptor>, toks: seq<Token>, n: nat): (r: seq<StepResult>)
    requires Ready(t) && Tokens(t, toks) && n <= |toks|
    ensures |r| == n
    ensures forall k :: 0 <= k < n ==> r[k] == Dispatch(t, toks[k])
  {
    if n == 0 then []
    else
      var prev := Steps(t, toks, n - 1);
      assert forall k :: 0 <= k < n - 1 ==> (prev + [Dispatch(t, toks[n - 1])])[k] == prev[k];
      prev + [Dispatch(t, toks[n - 1])]
  }

  /** The loop over the first n steps: their calls in order, up to and including the first that exits. */
  function Run(steps: seq<StepResult>, n: nat): StepResult
    requires n <= |steps|
  {
    if n == 0 then StepResult([], false, None)
    else
      var r := Run(steps, n - 1);
      if r.exit.Some? then r
      else StepResult(r.effects + steps[n - 1].effects, r.appendToLog || steps[n - 1].appendToLog, steps[n - 1].exit)
  }

  /** main's loop over all the tokens getopt_long returns. */
  function Parse(t: seq<Descriptor>, toks: seq<Token>): StepResult
    requires Ready(t) && Tokens(t, toks)
  {
    Run(Steps(t, toks, |toks|), |toks|)
  }

  /** Once a step exits, later steps are never looked at. */
  lemma {:induction false} RunStops(steps: seq<StepResult>, j: nat, n: nat)
    requires j <= n <= |steps| && Run(steps, j).exit.Some?
    ensures Run(steps, n) == Run(steps, j)
    decreases n - j
  {
    if j < n {
      RunStops(steps, j, n - 1);
    }
  }

  // ---------------------------------------------------------------------------
  // What one option does

  /**
   * The corrected loop exits with status 2 exactly on getopt_long's error
   * report (as written, also on a long option whose val is '?'); with 0 only
   * for --help and --version; with 1 only for a -n argument holding an illegal
   * character; every other option lets the loop go on.
   */
  lemma ExitStatuses(t: seq<Descriptor>, tok: Token)
    requires Ready(t) && FromGetopt(t, tok)
    ensures Dispatch(t, tok).exit == Some(2) <==> IsError(tok)
    ensures !IsError(tok) ==>
      var d := Target(t, tok);
      Dispatch(t, tok).exit ==
        if d.kind.Special? && d.kind.action in {Help, Version} then Some(0)
        else if d.kind.Special? && d.kind.action == LegacyNo && LegacyNoChars(tok.optarg.value).illegal.Some? then Some(1)
        else None
  {
  }

  /**
   * --NAME on an enabled boolean sets its wgetrc command to the argument given,
   * or to "1" without one (main.c:547-556).
   */
  lemma LongBoolean(t: seq<Descriptor>, i: nat, optarg: Option<string>)
    requires Ready(t) && i < |t| && t[i].longName.Some? && t[i].kind == Boolean
    ensures var tok := Token(i, PositiveIndex(t, i), optarg);
      FromGetopt(t, tok) && !IsError(tok) &&
      Dispatch(t, tok) == StepResult([SetOpt(t[i].handleCmd, if optarg.Some? then optarg.value else "1")], false, None)
  {
    EntryOf(t, i);
    MarkerRoundTrip(i);
  }

  /** --no-NAME, which takes no argument, sets the command of the same boolean to "0" (main.c:552-556). */
  lemma NegatedBoolean(t: seq<Descriptor>, i: nat)
    requires Ready(t) && i < |t| && t[i].longName.Some? && t[i].kind == Boolean
    ensures var tok := Token(WithMarker(i), PositiveIndex(t, i) + 1, None);
      FromGetopt(t, tok) && !IsError(tok) &&
      Dispatch(t, tok) == StepResult([SetOpt(t[i].handleCmd, "0")], false, None)
  {
    NegatedEntryOf(t, i);
    MarkerRoundTrip(i);
  }

  /**
   * --NAME=ARG on an enabled value option hands ARG to its wgetrc command
   * (main.c:544-545).  The loop as written does the same except for the value
   * option at index 63, whose val is '?': there it exits 2 (main.c:524).
   */
  lemma LongValue(t: seq<Descriptor>, i: nat, arg: string)
    requires Ready(t) && i < |t| && t[i].longName.Some? && t[i].kind == Value
    ensures var tok := Token(i, PositiveIndex(t, i), Some(arg));
      FromGetopt(t, tok) && !IsError(tok) &&
      Dispatch(t, tok) == StepResult([SetOpt(t[i].handleCmd, arg)], false, None) &&
      DispatchAsWritten(t, tok) ==
        if i == '?' as int then StepResult([], false, Some(2)) else Dispatch(t, tok)
  {
    EntryOf(t, i);
    MarkerRoundTrip(i);
  }

  /** --append-output=FILE sets "logfile" to FILE and turns append_to_log on (main.c:558-561). */
  lemma LongAppendOutput(t: seq<Descriptor>, i: nat, arg: string)
    requires Ready(t) && i < |t| && t[i].longName.Some? && t[i].kind.Special? && t[i].kind.action == AppendOutput
    ensures var tok := Token(i, PositiveIndex(t, i), Some(arg));
      FromGetopt(t, tok) && !IsError(tok) &&
      Dispatch(t, tok) == StepResult([SetOpt(Some("logfile"), arg)], true, None)
  {
    assert Declared(t[i]);
    EntryOf(t, i);
    MarkerRoundTrip(i);
  }

  /**
   * A short option acts as the long option of the last enabled descriptor with
   * that letter, never as its "no-" variant (main.c:534-535), and carries an
   * argument exactly when that descriptor requires one.
   */
  lemma ShortOption(t: seq<Descriptor>, c: ShortName, optarg: Option<string>)
    requires Ready(t) && c != '?' && LastWithShort(t, |t|, c).Some?
    requires optarg.Some? <==> NeedsColon(t[LastWithShort(t, |t|, c).value])
    ensures var j := LastWithShort(t, |t|, c).value; var tok := Token(c as int, -1, optarg);
      FromGetopt(t, tok) && !IsError(tok) && Target(t, tok) == t[j] && !Negated(t, tok) &&
      Dispatch(t, tok) == Act(t[j], false, optarg)
  {
    var j := LastWithShort(t, |t|, c).value;
    var tok := Token(c as int, -1, optarg);
    assert Letter(tok.ret) == c;
    ShortResolves(t, c);
    assert FromGetopt(t, tok);
    assert Resolved(t, tok) == LongOption(t[j].longName.value, HasArg(t[j]), j);
    MarkerRoundTrip(j);
  }

  /**
   * --parent[=ARG] and --clobber[=ARG] (main.c:605-619): the option is on
   * unless ARG spells it off (ParentFlag), and it is written inverted into the
   * wgetrc command "noparent" or "noclobber".
   */
  lemma InvertedFlag(t: seq<Descriptor>, i: nat, optarg: Option<string>)
    requires Ready(t) && i < |t| && t[i].longName.Some? && t[i].kind.Special?
    requires t[i].kind.action in {Parent, Clobber} && t[i].kind.argtype == OptionalArgument
    ensures var tok := Token(i, PositiveIndex(t, i), optarg);
      var key := if t[i].kind.action == Parent then "noparent" else "noclobber";
      FromGetopt(t, tok) && !IsError(tok) &&
      Dispatch(t, tok) == StepResult([SetOpt(Some(key), if ParentFlag(optarg) then "0" else "1")], false, None)
  {
    EntryOf(t, i);
    MarkerRoundTrip(i);
  }

  /**
   * The spellings of an inverted option with the wgetrc command key, its "no-"
   * boolean at np and its special at p: --no-NAME does what --NAME=off does (key
   * set to "1"), and --no-no-NAME what a bare --NAME does (key set to "0").
   */
  predicate Spellings(t: seq<Descriptor>, np: nat, p: nat, key: string)
    requires Ready(t) && np < |t| && p < |t|
  {
    SpelledOff(t, np, p, key) && SpelledOn(t, np, p, key)
  }

  predicate SpelledOff(t: seq<Descriptor>, np: nat, p: nat, key: string)
    requires Ready(t) && np < |t| && p < |t|
  {
    var noName := Token(np, PositiveIndex(t, np), None);
    var nameOff := Token(p, PositiveIndex(t, p), Some("off"));
    FromGetopt(t, noName) && FromGetopt(t, nameOff) &&
    Dispatch(t, noName) == Dispatch(t, nameOff) == StepResult([SetOpt(Some(key), "1")], false, None)
  }

  predicate SpelledOn(t: seq<Descriptor>, np: nat, p: nat, key: string)
    requires Ready(t) && np < |t| && p < |t|
  {
    var noNoName := Token(WithMarker(np), PositiveIndex(t, np) + 1, None);
    var name := Token(p, PositiveIndex(t, p), None);
    FromGetopt(t, noNoName) && FromGetopt(t, name) &&
    Dispatch(t, noNoName) == Dispatch(t, name) == StepResult([SetOpt(Some(key), "0")], false, None)
  }

  /**
   * "no-parent" and "no-clobber" are booleans on the same wgetrc commands the
   * specials "parent" and "clobber" write inverted, so each pair of spellings
   * agrees.
   */
  lemma FlagSpellings(t: seq<Descriptor>, np: nat, p: nat, action: Action, name: string)
    requires Ready(t) && np < |t| && p < |t| && action in {Parent, Clobber}
    requires t[np] == Descriptor(Some("no-" + name), None, Boolean, Some(if action == Parent then "noparent" else "noclobber"))
    requires t[p] == Descriptor(Some(name), None, Special(action, OptionalArgument), None)
    ensures Spellings(t, np, p, if action == Parent then "noparent" else "noclobber")
  {
    var key := if action == Parent then "noparent" else "noclobber";
    FlagOff(t, np, p, key);
    FlagOn(t, np, p, key);
  }

  lemma FlagOff(t: seq<Descriptor>, np: nat, p: nat, key: string)
    requires Ready(t) && np < |t| && p < |t|
    requires t[np].longName.Some? && t[np].kind == Boolean && t[np].handleCmd == Some(key)
    requires t[p].longName.Some? && t[p].kind.Special? && t[p].kind.argtype == OptionalArgument
    requires t[p].kind.action in {Parent, Clobber} && key == if t[p].kind.action == Parent then "noparent" else "noclobber"
    ensures SpelledOff(t, np, p, key)
  {
    LongBoolean(t, np, None);
    assert !ParentFlag(Some("off"));
    InvertedFlag(t, p, Some("off"));
  }

  lemma FlagOn(t: seq<Descriptor>, np: nat, p: nat, key: string)
    requires Ready(t) && np < |t| && p < |t|
    requires t[np].longName.Some? && t[np].kind == Boolean && t[np].handleCmd == Some(key)
    requires t[p].longName.Some? && t[p].kind.Special? && t[p].kind.argtype == OptionalArgument
    requires t[p].kind.action in {Parent, Clobber} && key == if t[p].kind.action == Parent then "noparent" else "noclobber"
    ensures SpelledOn(t, np, p, key)
  {
    NegatedBoolean(t, np);
    InvertedFlag(t, p, None);
  }

  /**
   * A boolean whose own name starts with "no-", such as "no-clobber"
   * (option_data[49]), still gets its "no-" entry: --no-no-clobber writes "0".
   */
  lemma DoubleNegation(t: seq<Descriptor>, i: nat, name: string)
    requires Ready(t) && i < |t| && t[i].longName == Some("no-" + name) && t[i].kind == Boolean
    ensures var tok := Token(WithMarker(i), PositiveIndex(t, i) + 1, None);
      FromGetopt(t, tok) && !IsError(tok) && Resolved(t, tok).name == "no-no-" + name &&
      Dispatch(t, tok) == StepResult([SetOpt(t[i].handleCmd, "0")], false, None)
  {
    NegatedBoolean(t, i);
    NegatedEntryOf(t, i);
    var tok := Token(WithMarker(i), PositiveIndex(t, i) + 1, None);
    assert Resolved(t, tok) == LongOption("no-" + ("no-" + name), NoArgument, WithMarker(i));
    assert "no-" + ("no-" + name) == "no-no-" + name;
  }

  /**
   * The loop as written differs from the corrected one only on a long option
   * whose val is '?', that is the positive entry of descriptor 63: it exits 2
   * where the corrected loop acts on that descriptor and never exits 2.
   */
  lemma AsWrittenDiffers(t: seq<Descriptor>, tok: Token)
    requires Ready(t) && FromGetopt(t, tok)
    ensures tok.ret != '?' as int || tok.longindex == -1 ==> DispatchAsWritten(t, tok) == Dispatch(t, tok)
    ensures tok.ret == '?' as int ==> DispatchAsWritten(t, tok).exit == Some(2)
    ensures tok.ret == '?' as int && tok.longindex != -1 ==>
      !IsError(tok) && 63 < |t| && Target(t, tok) == t[63] && !Negated(t, tok) && Dispatch(t, tok).exit != Some(2)
  {
    if tok.ret == '?' as int && tok.longindex != -1 {
      MarkerRoundTrip(63);
      ExitStatuses(t, tok);
    }
  }

  /**
   * The -n loop applies, in order, the settings of the characters before the
   * first illegal one and reports that character; with none illegal it applies
   * the settings of all of them.
   */
  lemma {:induction false} LegacyNoCharsSpec(s: string)
    ensures var r := LegacyNoChars(s);
      |r.effects| <= |s| &&
      (forall k :: 0 <= k < |r.effects| ==> LegacySetting(s[k]) == Some(r.effects[k])) &&
      (r.illegal.None? <==> |r.effects| == |s|) &&
      (r.illegal.Some? ==> LegacySetting(s[|r.effects|]).None? && r.illegal.value == s[|r.effects|])
  {
    if s != [] {
      var front := s[..|s| - 1];
      LegacyNoCharsSpec(front);
      var r := LegacyNoChars(front);
      if r.illegal.Some? {
        assert s[|r.effects|] == front[|r.effects|];
      }
      forall k | 0 <= k < |r.effects|
        ensures s[k] == front[k]
      {
      }
    }
  }

  /** The flag reads at most the first two characters of the argument. */
  lemma ParentFlagFirstTwo(s: string, rest: string)
    requires |s| == 2
    ensures ParentFlag(Some(s + rest)) == ParentFlag(Some(s))
  {
    assert (s + rest)[0] == s[0] && (s + rest)[1] == s[1];
  }

  /**
   * Spellings that turn --parent and --clobber on, and ones that turn them off:
   * among the latter the empty argument and a lone "o", which stops at the
   * string's end before the 'n' is looked for.
   */
  lemma ParentFlagSpellings()
    ensures ParentFlag(None)
    ensures ParentFlag(Some("1")) && ParentFlag(Some("y")) && ParentFlag(Some("Yes")) &&
      ParentFlag(Some("on")) && ParentFlag(Some("ON")) && ParentFlag(Some("oN"))
    ensures !ParentFlag(Some("")) && !ParentFlag(Some("0")) && !ParentFlag(Some("no")) &&
      !ParentFlag(Some("off")) && !ParentFlag(Some("OFF")) && !ParentFlag(Some("o")) && !ParentFlag(Some("true"))
  {
  }

  // ---------------------------------------------------------------------------
  // The loop itself

  /** main's option loop over the tables init_switches compiled. */
  class CommandLine {
    const switches: Switches
    /** The setoptval and run_command calls made so far, in order. */
    var log: seq<Effect>
    /** append_to_log */
    var appendToLog: bool

    ghost predicate Valid()
      reads this, switches, switches.longOptions, switches.shortOptions, switches.optmap
    {
      switches.Compiled() && Ready(switches.table)
    }

    constructor (s: Switches)
      requires s.Compiled() && Ready(s.table)
      ensures Valid() && switches == s && log == [] && !appendToLog
    {
      switches := s;
      log := [];
      appendToLog := false;
    }

    /**
     * One pass of the loop body for a token getopt_long returned: the calls it
     * makes, append_to_log, and the status main exits with, as Dispatch says.
     */
    method HandleToken(tok: Token) returns (exit: Option<int>)
      requires Valid() && FromGetopt(switches.table, tok)
      modifies this
      ensures Valid()
      ensures var r := Dispatch(switches.table, tok);
        log == old(log) + r.effects && appendToLog == (old(appendToLog) || r.appendToLog) && exit == r.exit
    {
      var t := switches.table;
      if tok.ret == '?' as int && tok.longindex == -1 {
        return Some(2);
      }
      var longindex := tok.longindex;
      if longindex == -1 {
        ShortResolves(t, Letter(tok.ret));
        longindex := switches.optmap[tok.ret - 32] as int;
      }
      assert longindex == EntryIndex(t, tok);
      var val := switches.longOptions[longindex].val;
      assert val == Resolved(t, tok).val;
      HandleArgument(t, tok);
      var opt := t[WithoutMarker(val)];
      exit := Apply(opt, HasMarker(val), tok.optarg);
    }

    /** The switch on opt->type: the effect of an option resolved to opt, as Act says. */
    method Apply(opt: Descriptor, neg: bool, optarg: Option<string>) returns (exit: Option<int>)
      requires ArgPresent(opt, optarg)
      modifies this
      ensures var r := Act(opt, neg, optarg);
        log == old(log) + r.effects && appendToLog == (old(appendToLog) || r.appendToLog) && exit == r.exit
    {
      exit := None;
      match opt.kind {
        case Value =>
          log := log + [SetOpt(opt.handleCmd, optarg.value)];
        case Boolean =>
          if optarg.Some? {
            log := log + [SetOpt(opt.handleCmd, optarg.value)];
          } else {
            log := log + [SetOpt(opt.handleCmd, if neg then "0" else "1")];
          }
        case Special(action, _) =>
          match action {
            case AppendOutput =>
              log := log + [SetOpt(Some("logfile"), optarg.value)];
              appendToLog := true;
            case Help =>
              exit := Some(0);
            case Execute =>
              log := log + [RunCommand(optarg.value)];
            case LegacyNo =>
              exit := ApplyLegacyNo(optarg.value);
            case Parent | Clobber =>
              var flag := ParentFlag(optarg);
              log := log + [SetOpt(Some(if action == Parent then "noparent" else "noclobber"), if flag then "0" else "1")];
            case Version =>
              exit := Some(0);
          }
      }
    }

    /** The -n loop: the settings of arg's characters up to the first illegal one, which exits 1. */
    method ApplyLegacyNo(arg: string) returns (exit: Option<int>)
      modifies this
      ensures var r := LegacyNoChars(arg);
        log == old(log) + r.effects && appendToLog == old(appendToLog) &&
        exit == if r.illegal.Some? then Some(1) else None
    {
      var p := 0;
      while p < |arg|
        invariant p <= |arg|
        invariant LegacyNoChars(arg[..p]).illegal.None?
        invariant log == old(log) + LegacyNoChars(arg[..p]).effects && appendToLog == old(appendToLog)
      {
        assert arg[..p + 1][..p] == arg[..p];
        match arg[p] {
          case 'v' => log := log + [SetOpt(Some("verbose"), "0")];
          case 'H' => log := log + [SetOpt(Some("addhostdir"), "0")];
          case 'd' => log := log + [SetOpt(Some("dirstruct"), "0")];
          case 'c' => log := log + [SetOpt(Some("noclobber"), "1")];
          case 'p' => log := log + [SetOpt(Some("noparent"), "1")];
          case _ =>
            LegacyNoStops(arg, p + 1);
            return Some(1);
        }
        p := p + 1;
      }
      assert arg[..p] == arg;
      exit := None;
    }

    /** The whole loop over getopt_long's tokens, up to the first that exits, run once from main's initial state. */
    method ParseOptions(toks: seq<Token>) returns (exit: Option<int>)
      requires Valid() && Tokens(switches.table, toks) && log == [] && !appendToLog
      modifies this
      ensures Valid()
      ensures var r := Parse(switches.table, toks);
        log == r.effects && appendToLog == r.appendToLog && exit == r.exit
    {
      ghost var steps := Steps(switches.table, toks, |toks|);
      assert Parse(switches.table, toks) == Run(steps, |toks|);
      exit := None;
      var i := 0;
      while i < |toks| && exit.None?
        invariant i <= |toks| && Valid()
        invariant var r := Run(steps, i);
          log == r.effects && appendToLog == r.appendToLog && exit == r.exit
      {
        exit := NextToken(toks, i);
        i := i + 1;
      }
      if i < |toks| {
        RunStops(steps, i, |toks|);
      }
    }

    /** HandleToken on the i-th token, stated as the i-th step of the loop. */
    method NextToken(toks: seq<Token>, i: nat) returns (exit: Option<int>)
      requires Valid() && Tokens(switches.table, toks) && i < |toks|
      modifies this
      ensures Valid()
      ensures var s := Steps(switches.table, toks, |toks|)[i];
        log == old(log) + s.effects && appendToLog == (old(appendToLog) || s.appendToLog) && exit == s.exit
    {
      exit := HandleToken(toks[i]);
    }
  }

  /** Once the -n loop meets an illegal character, the rest of the argument is never read. */
  lemma {:induction false} LegacyNoStops(s: string, j: nat)
    requires j <= |s| && LegacyNoChars(s[..j]).illegal.Some?
    ensures LegacyNoChars(s) == LegacyNoChars(s[..j])
    decreases |s| - j
  {
    if j < |s| {
      var front := s[..|s| - 1];
      assert front[..j] == s[..j];
      LegacyNoStops(front, j);
    } else {
      assert s[..j] == s;
    }
  }
}
