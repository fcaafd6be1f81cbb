// What fiu_rc_string and the splitter make of lines that no printer here writes: options in any order and
// number, blanks and newlines in any amount, and lines in error.
module CommandLines {
  import opened Slots
  import opened Numbers
  import opened Commands
  import opened RoundTrips

  // ---- options in any order ----

  datatype Setting =
    | Named(text: string)
    | Failnum(n: int)
    | Failinfo(info: nat)
    | Probability(text: string)
    | Func(text: string)
    | Position(n: int)
    | OneTime

  function Text(x: Setting): string {
    match x
    case Named(text) => "name=" + text
    case Failnum(n) => "failnum=" + Dec(n)
    case Failinfo(info) => "failinfo=" + Dec(info)
    case Probability(text) => "probability=" + text
    case Func(text) => "func_name=" + text
    case Position(n) => "pos_in_stack=" + Dec(n)
    case OneTime => "onetime"
  }

  function Texts(xs: seq<Setting>): seq<string> {
    if xs == [] then [] else Texts(xs[..|xs| - 1]) + [Text(xs[|xs| - 1])]
  }

  predicate Carried(x: Setting) {
    match x
    case Named(text) => OkText(text)
    case Failnum(n) => IsInt(n)
    case Failinfo(info) => info <= ULONG_MAX
    case Probability(text) => OkText(text)
    case Func(text) => OkText(text)
    case Position(n) => IsInt(n)
    case OneTime => true
  }

  // Of several settings of one kind the last counts; a kind that is not there has the value it has in C.
  function Settled(xs: seq<Setting>): Opts {
    if xs == [] then Opts(None, 1, 0, false, None, None, -1) else Set(Settled(xs[..|xs| - 1]), xs[|xs| - 1])
  }

  function Set(o: Opts, x: Setting): Opts {
    match x
    case Named(text) => o.(name := Some(text))
    case Failnum(n) => o.(failnum := n)
    case Failinfo(info) => o.(failinfo := info)
    case Probability(text) => o.(probability := Some(text))
    case Func(text) => o.(funcName := Some(text))
    case Position(n) => o.(posInStack := n)
    case OneTime => o.(onetime := true)
  }

  lemma AcceptSetting(o: Opts, x: Setting)
    requires Carried(x)
    ensures Accept(o, Text(x)) == Going(Set(o, x))
  {
    hide Accept, Dec, OkText;
    match x {
      case Named(text) => AcceptName(o, text);
      case Failnum(n) => AcceptFailnum(o, n);
      case Failinfo(info) => AcceptFailinfo(o, info);
      case Probability(text) => AcceptProbability(o, text);
      case Func(text) => AcceptFuncName(o, text);
      case Position(n) => AcceptPos(o, n);
      case OneTime =>
        AcceptFlags(o, ["onetime"]);
        AcceptOne(o, "onetime");
    }
  }

  lemma {:induction false} AcceptSettings(xs: seq<Setting>)
    requires forall i :: 0 <= i < |xs| ==> Carried(xs[i])
    ensures AcceptArgs(DEFAULTS, Texts(xs)) == Going(Settled(xs))
  {
    hide Accept, AcceptArgs, Carried, Text;
    if xs == [] {
      AcceptNone(DEFAULTS);
    } else {
      var front, last := xs[..|xs| - 1], xs[|xs| - 1];
      AcceptSettings(front);
      AcceptConcat(DEFAULTS, Texts(front), [Text(last)]);
      AcceptOne(Settled(front), Text(last));
      AcceptSetting(Settled(front), last);
    }
  }

  lemma SettingIsOption(x: Setting)
    requires Carried(x)
    ensures OneOption(Text(x))
  {
    hide OkText, Dec;
    LiteralsAreText();
    match x {
      case Named(text) => TextConcat("name=", text);
      case Failnum(n) =>
        DecIsText(n);
        TextConcat("failnum=", Dec(n));
      case Failinfo(info) =>
        DecIsText(info);
        TextConcat("failinfo=", Dec(info));
      case Probability(text) => TextConcat("probability=", text);
      case Func(text) => TextConcat("func_name=", text);
      case Position(n) =>
        DecIsText(n);
        TextConcat("pos_in_stack=", Dec(n));
      case OneTime =>
    }
  }

  lemma {:induction false} SettingsAreOptions(xs: seq<Setting>)
    requires forall i :: 0 <= i < |xs| ==> Carried(xs[i])
    ensures |Texts(xs)| == |xs| && forall i :: 0 <= i < |xs| ==> OneOption(Texts(xs)[i])
  {
    hide Carried, Text, OneOption;
    if xs != [] {
      SettingsAreOptions(xs[..|xs| - 1]);
      SettingIsOption(xs[|xs| - 1]);
    }
  }

  // ---- a line of a verb and its options ----

  predicate IsVerb(verb: string) {
    verb != [] && ' ' !in verb && '\t' !in verb
  }

  lemma ParseOptions(verb: string, args: seq<string>)
    requires IsVerb(verb) && args != [] && (forall i :: 0 <= i < |args| ==> OneOption(args[i]))
    requires |verb + " " + Join(args)| <= 511
    ensures Parse(verb + " " + Join(args)) == Interpreted(verb, AcceptArgs(DEFAULTS, args))
  {
    hide Accept, AcceptArgs, AcceptAll, Join, NextToken, Dispatch;
    var word := Join(args);
    forall i | 0 <= i < |args| ensures Avoids(args[i], BLANKS) {
      assert OneOption(args[i]);
    }
    JoinAvoids(args, BLANKS);
    JoinedThere(args);
    assert verb + " " + word == verb + [' '] + word;
    TokenThenRest(verb, ' ', word, BLANKS);
    LastToken(word, BLANKS);
    AcceptJoined(DEFAULTS, args);
  }

  lemma JoinedThere(args: seq<string>)
    requires args != [] && OneOption(args[0])
    ensures Join(args) != []
  {
  }

  // Every command, with its options in any order and any number of times.
  lemma ParseSettings(verb: string, xs: seq<Setting>)
    requires IsVerb(verb) && xs != [] && (forall i :: 0 <= i < |xs| ==> Carried(xs[i]))
    requires |verb + " " + Join(Texts(xs))| <= 511
    ensures var o := Settled(xs);
            Parse(verb + " " + Join(Texts(xs))) ==
            match verb
            case "disable" => Calls(CallDisable(o.name))
            case "enable" => Calls(CallEnable(o.name, o.failnum, o.failinfo, o.onetime))
            case "enable_random" =>
              Calls(CallEnableRandom(o.name, o.failnum, o.failinfo, o.onetime, o.probability))
            case "enable_stack_by_name" =>
              Calls(CallEnableStackByName(o.name, o.failnum, o.failinfo, o.onetime, o.funcName, o.posInStack))
            case _ => Error("Unknown command")
  {
    hide Parse, Join, Carried, AcceptArgs, Settled, OneOption, Texts;
    SettingsAreOptions(xs);
    ParseOptions(verb, Texts(xs));
    AcceptSettings(xs);
  }

  // One such line in full: the probability is handed over as it stands.
  lemma ParseEnableRandom(name: string, failnum: int, failinfo: nat, probability: string, onetime: bool)
    requires OkText(name) && OkText(probability) && IsInt(failnum) && failinfo <= ULONG_MAX
    requires var args := ["name=" + name, "failnum=" + Dec(failnum), "failinfo=" + Dec(failinfo),
                          "probability=" + probability] + if onetime then ["onetime"] else [];
             |"enable_random " + Join(args)| <= 511
    ensures var args := ["name=" + name, "failnum=" + Dec(failnum), "failinfo=" + Dec(failinfo),
                         "probability=" + probability] + if onetime then ["onetime"] else [];
            Parse("enable_random " + Join(args))
            == Calls(CallEnableRandom(Some(name), failnum, failinfo, onetime, Some(probability)))
  {
    hide Parse, Join, Dec, OkText, Texts, Settled;
    var four := [Named(name), Failnum(failnum), Failinfo(failinfo), Probability(probability)];
    var xs := if onetime then four + [OneTime] else four;
    FourTexts(name, failnum, failinfo, probability);
    assert Texts(four) + [] == Texts(four);
    OneMore(four, OneTime);
    assert "enable_random" + " " == "enable_random ";
    ParseSettings("enable_random", xs);
  }

  lemma FourTexts(name: string, failnum: int, failinfo: nat, probability: string)
    ensures var four := [Named(name), Failnum(failnum), Failinfo(failinfo), Probability(probability)];
            && Texts(four) == ["name=" + name, "failnum=" + Dec(failnum), "failinfo=" + Dec(failinfo),
                               "probability=" + probability]
            && Settled(four) == Opts(Some(name), failnum, failinfo, false, Some(probability), None, -1)
  {
    hide Dec, Texts, Settled;
    var a, b, c, d := Named(name), Failnum(failnum), Failinfo(failinfo), Probability(probability);
    NoSettings();
    OneMore([], a);
    OneMore([a], b);
    OneMore([a, b], c);
    OneMore([a, b, c], d);
    assert [] + [a] == [a] && [a] + [b] == [a, b] && [a, b] + [c] == [a, b, c];
    assert [a, b, c] + [d] == [a, b, c, d];
  }

  lemma NoSettings()
    ensures Texts([]) == [] && Settled([]) == DEFAULTS
  {
  }

  lemma OneMore(xs: seq<Setting>, x: Setting)
    ensures Texts(xs + [x]) == Texts(xs) + [Text(x)]
    ensures Settled(xs + [x]) == Set(Settled(xs), x)
  {
    hide Text;
    assert (xs + [x])[..|xs|] == xs;
  }

  // ---- options in error ----

  predicate IsOption(arg: string, key: string) {
    arg == key || key + "=" <= arg
  }

  lemma OptionKey(arg: string, key: string)
    requires '=' !in key && IsOption(arg, key)
    ensures Key(arg) == key
    ensures arg == key ==> Value(arg) == None
  {
    if arg == key {
      BareKey(key);
    } else {
      assert arg == key + "=" + arg[|key| + 1..];
      KeyValue(key, arg[|key| + 1..]);
    }
  }

  const KEYS := ["name", "failnum", "failinfo", "probability", "func_name", "pos_in_stack", "onetime"]

  lemma UnknownOption(o: Opts, arg: string, key: string)
    requires '=' !in key && key !in KEYS && IsOption(arg, key)
    ensures Accept(o, arg) == Unknown
  {
    OptionKey(arg, key);
    assert KEYS[0] == "name" && KEYS[1] == "failnum" && KEYS[2] == "failinfo" && KEYS[3] == "probability";
    assert KEYS[4] == "func_name" && KEYS[5] == "pos_in_stack" && KEYS[6] == "onetime";
  }

  // A number, or a probability, without a value: C reads through NULL.
  lemma MissingValue(o: Opts, key: string)
    requires key in ["failnum", "failinfo", "probability", "pos_in_stack"]
    ensures Accept(o, key) == Stuck
  {
    var keys := ["failnum", "failinfo", "probability", "pos_in_stack"];
    assert keys[0] == "failnum" && keys[1] == "failinfo" && keys[2] == "probability" && keys[3] == "pos_in_stack";
    BareKey(key);
  }

  // A name or a function without a value is NULL, and handed on as such.
  lemma MissingName(o: Opts)
    ensures Accept(o, "name") == Going(o.(name := None)) && Accept(o, "func_name") == Going(o.(funcName := None))
  {
    BareKey("name");
    BareKey("func_name");
  }

  lemma {:induction false} OneBadOption(o: Opts, args: seq<string>, i: nat)
    requires i < |args| && forall o' :: !Accept(o', args[i]).Going?
    ensures !AcceptArgs(o, args).Going?
    decreases |args|
  {
    hide Accept;
    if i > 0 && Accept(o, args[0]).Going? {
      OneBadOption(Accept(o, args[0]).opts, args[1..], i - 1);
    }
  }

  // No call: a verb that is none of the four, an option that is none of the seven, or a number left out,
  // anywhere in the line.
  lemma NoCall(verb: string, args: seq<string>, i: nat, key: string)
    requires IsVerb(verb) && i < |args| && (forall j :: 0 <= j < |args| ==> OneOption(args[j]))
    requires |verb + " " + Join(args)| <= 511
    requires || verb !in ["disable", "enable", "enable_random", "enable_stack_by_name"]
             || ('=' !in key && key !in KEYS && IsOption(args[i], key))
             || args[i] in ["failnum", "failinfo", "probability", "pos_in_stack"]
    ensures !Parse(verb + " " + Join(args)).Calls?
  {
    hide Parse, Join, Accept, AcceptArgs, OneOption, IsOption, IsVerb;
    ParseOptions(verb, args);
    if '=' !in key && key !in KEYS && IsOption(args[i], key) {
      forall o ensures !Accept(o, args[i]).Going? {
        UnknownOption(o, args[i], key);
      }
      OneBadOption(DEFAULTS, args, i);
    } else if args[i] in ["failnum", "failinfo", "probability", "pos_in_stack"] {
      forall o ensures !Accept(o, args[i]).Going? {
        MissingValue(o, args[i]);
      }
      OneBadOption(DEFAULTS, args, i);
    } else {
      FourVerbs(verb, AcceptArgs(DEFAULTS, args));
    }
  }

  lemma FourVerbs(verb: string, r: Parsing)
    requires verb !in ["disable", "enable", "enable_random", "enable_stack_by_name"]
    ensures !Interpreted(verb, r).Calls?
  {
    var verbs := ["disable", "enable", "enable_random", "enable_stack_by_name"];
    assert verbs[0] == "disable" && verbs[1] == "enable" && verbs[2] == "enable_random";
    assert verbs[3] == "enable_stack_by_name";
  }

  // ---- blanks and newlines ----

  predicate Run(s: string, delims: set<char>) {
    forall i :: 0 <= i < |s| ==> s[i] in delims
  }

  lemma {:induction false} SkipRun(run: string, rest: string, delims: set<char>)
    requires Run(run, delims)
    ensures SkipDelims(run + rest, delims) == SkipDelims(rest, delims)
  {
    if run == [] {
      assert run + rest == rest;
    } else {
      assert (run + rest)[1..] == run[1..] + rest;
      SkipRun(run[1..], rest, delims);
    }
  }

  lemma TokenAfterRun(run: string, rest: string, delims: set<char>)
    requires Run(run, delims)
    ensures NextToken(run + rest, delims) == NextToken(rest, delims)
  {
    SkipRun(run, rest, delims);
  }

  lemma TokenBeforeRest(a: string, rest: string, delims: set<char>)
    requires a != [] && Avoids(a, delims) && (rest == [] || rest[0] in delims)
    ensures NextToken(a + rest, delims) == Some((a, if rest == [] then [] else rest[1..]))
  {
    if rest == [] {
      assert a + rest == a;
      LastToken(a, delims);
    } else {
      assert a + rest == a + [rest[0]] + rest[1..];
      TokenThenRest(a, rest[0], rest[1..], delims);
    }
  }

  // Blanks and tabs, in any amount and wherever they stand, and whatever follows the options, change nothing.
  lemma BlanksDoNotMatter(lead: string, verb: string, gap: string, word: string, rest: string)
    requires Run(lead, {' ', '\t'}) && Run(gap, {' ', '\t'}) && gap != [] && IsVerb(verb) && IsVerb(word)
    requires rest == [] || rest[0] == ' ' || rest[0] == '\t'
    requires |lead + verb + gap + word + rest| <= 511
    ensures Parse(lead + verb + gap + word + rest) == Parse(verb + " " + word)
  {
    hide NextToken, AcceptAll, Dispatch;
    var line := lead + verb + gap + word + rest;
    assert line == lead + (verb + (gap + (word + rest)));
    TokenAfterRun(lead, verb + (gap + (word + rest)), BLANKS);
    TokenBeforeRest(verb, gap + (word + rest), BLANKS);
    assert (gap + (word + rest))[1..] == gap[1..] + (word + rest);
    TokenAfterRun(gap[1..], word + rest, BLANKS);
    TokenBeforeRest(word, rest, BLANKS);
    TokenBeforeRest(verb, " " + word, BLANKS);
    assert verb + " " + word == verb + (" " + word) && (" " + word)[1..] == word;
    LastToken(word, BLANKS);
    assert |verb + " " + word| <= |line|;
  }

  // A line of blanks has no command, and a verb by itself no options.
  lemma NothingToDo(lead: string, verb: string, gap: string)
    requires Run(lead, {' ', '\t'}) && Run(gap, {' ', '\t'}) && IsVerb(verb) && |lead + verb + gap| <= 511
    ensures Parse(lead) == Error("Cannot get command")
    ensures Parse(lead + verb + gap) == Error("Cannot get parameters")
  {
    hide NextToken, AcceptAll, Dispatch;
    assert lead + [] == lead;
    TokenAfterRun(lead, [], BLANKS);
    assert lead + verb + gap == lead + (verb + gap);
    TokenAfterRun(lead, verb + gap, BLANKS);
    TokenBeforeRest(verb, gap, BLANKS);
    var rest := if gap == [] then [] else gap[1..];
    assert rest + [] == rest;
    TokenAfterRun(rest, [], BLANKS);
    NoMore();
  }

  lemma NoMore()
    ensures NextToken([], BLANKS) == None
  {
  }

  // Newlines in any amount, before the first line and between lines, change nothing, and the last one may be
  // left out.
  lemma NewlinesDoNotMatter(line: string, run: string, env: string, done: seq<Call>, succeeds: seq<Call> -> bool)
    requires Run(run, {'\n'}) && line != [] && '\n' !in line
    ensures RunLines(run + env, done, succeeds) == RunLines(env, done, succeeds)
    ensures RunLines(line + "\n" + run + env, done, succeeds) == RunLines(line + "\n" + env, done, succeeds)
    ensures RunLines(line, done, succeeds) == RunLines(line + "\n", done, succeeds)
  {
    hide NextToken, Parse;
    TokenAfterRun(run, env, {'\n'});
    RunByToken(run + env, env, done, succeeds);
    assert line + "\n" + run + env == line + ['\n'] + (run + env);
    TokenThenRest(line, '\n', run + env, {'\n'});
    TokenThenRest(line, '\n', env, {'\n'});
    assert line + "\n" == line + ['\n'] + [];
    TokenThenRest(line, '\n', [], {'\n'});
    LastToken(line, {'\n'});
    RunByToken(line, line + "\n", done, succeeds);
    if Parse(line).Calls? {
      RunByToken(run + env, env, done + [Parse(line).call], succeeds);
    }
  }

  lemma RunByToken(a: string, b: string, done: seq<Call>, succeeds: seq<Call> -> bool)
    requires NextToken(a, {'\n'}) == NextToken(b, {'\n'})
    ensures RunLines(a, done, succeeds) == RunLines(b, done, succeeds)
  {
  }
}
