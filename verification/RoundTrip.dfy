// Printing commands and reading them back: the round trip between the Python and the C side.
module RoundTrips {
  import opened Slots
  import opened Numbers
  import opened Commands

  // Text that survives the separators of the language.
  predicate OkText(s: string) {
    Avoids(s, {',', ' ', '\t', '\n', '\0'})
  }

  // A command whose words and numbers the language can carry, on a line of any length.
  predicate WellWorded(cmd: Cmd) {
    && OkText(cmd.name)
    && (!cmd.Disable? ==>
          && IsInt(cmd.failnum)
          && (cmd.failinfo.Some? ==> cmd.failinfo.value <= ULONG_MAX)
          && (forall i :: 0 <= i < |cmd.flags| ==> cmd.flags[i] == "onetime"))
    && (cmd.EnableRandom? ==> OkText(cmd.probability))
    && (cmd.EnableStackByName? ==> OkText(cmd.funcName) && IsInt(cmd.posInStack))
  }

  predicate WellFormed(cmd: Cmd) {
    WellWorded(cmd) && |Line(cmd)| <= MAX_LINE - 1
  }

  // The call a command asks for. A failnum of 0 is not printed, and the C side then uses 1; any
  // negative stack position is not printed, and the C side then uses -1.
  function Meaning(cmd: Cmd): Call {
    match cmd
    case Enable(name, failnum, failinfo, flags) =>
      CallEnable(Some(name), if failnum == 0 then 1 else failnum, if failinfo.Some? then failinfo.value else 0,
                 flags != [])
    case EnableRandom(name, probability, failnum, failinfo, flags) =>
      CallEnableRandom(Some(name), if failnum == 0 then 1 else failnum,
                       if failinfo.Some? then failinfo.value else 0, flags != [], Some(probability))
    case EnableStackByName(name, funcName, failnum, failinfo, flags, pos) =>
      CallEnableStackByName(Some(name), if failnum == 0 then 1 else failnum,
                            if failinfo.Some? then failinfo.value else 0, flags != [],
                            Some(funcName), if pos >= 0 then pos else -1)
    case Disable(name) => CallDisable(Some(name))
  }

  // ---- one option ----

  predicate OneOption(arg: string) {
    arg != [] && OkText(arg)
  }

  lemma KeyValue(key: string, value: string)
    requires Avoids(key, {'='})
    ensures Key(key + "=" + value) == key && Value(key + "=" + value) == Some(value)
  {
    var s := key + "=" + value;
    assert s == key + ("=" + value);
    TokenLenStops(key, "=" + value, {'='});
    assert s[..|key|] == key && s[|key| + 1..] == value;
  }

  lemma BareKey(key: string)
    requires Avoids(key, {'='})
    ensures Key(key) == key && Value(key) == None
  {
    assert key + [] == key;
    TokenLenStops(key, [], {'='});
  }

  // ---- a list of options ----

  // The option loop over the arguments themselves.
  function AcceptArgs(o: Opts, args: seq<string>): Parsing
    decreases |args|
  {
    if args == [] then Going(o)
    else
      var r := Accept(o, args[0]);
      if r.Going? then AcceptArgs(r.opts, args[1..]) else r
  }

  lemma FirstSubOption(arg: string, rest: string)
    requires OneOption(arg) && (rest == [] || rest[0] == ',')
    ensures SubOption(arg + rest) == arg
    ensures AfterSubOption(arg + rest) == if rest == [] then [] else rest[1..]
  {
    TokenLenStops(arg, rest, {','});
  }

  lemma {:induction false} AcceptJoined(o: Opts, args: seq<string>)
    requires forall i :: 0 <= i < |args| ==> OneOption(args[i])
    ensures AcceptAll(o, Join(args)) == AcceptArgs(o, args)
    decreases |args|
  {
    hide Accept, SubOption, AfterSubOption;
    if args == [] {
    } else if |args| == 1 {
      assert args[0] + [] == args[0];
      FirstSubOption(args[0], []);
    } else {
      var rest := "," + Join(args[1..]);
      assert Join(args) == args[0] + rest;
      assert rest[1..] == Join(args[1..]);
      FirstSubOption(args[0], rest);
      var r := Accept(o, args[0]);
      if r.Going? {
        AcceptJoined(r.opts, args[1..]);
      }
    }
  }

  lemma {:induction false} AcceptConcat(o: Opts, a: seq<string>, b: seq<string>)
    ensures AcceptArgs(o, a + b) ==
            var r := AcceptArgs(o, a);
            if r.Going? then AcceptArgs(r.opts, b) else r
    decreases |a|
  {
    if a == [] {
      assert a + b == b;
    } else {
      hide Accept;
      assert (a + b)[1..] == a[1..] + b;
      var r := Accept(o, a[0]);
      if r.Going? {
        AcceptConcat(r.opts, a[1..], b);
      }
    }
  }

  // ---- the options of each command ----

  lemma AcceptName(o: Opts, name: string)
    ensures Accept(o, "name=" + name) == Going(o.(name := Some(name)))
  {
    assert "name=" + name == "name" + "=" + name;
    KeyValue("name", name);
  }

  lemma AcceptFailnum(o: Opts, n: int)
    requires IsInt(n)
    ensures Accept(o, "failnum=" + Dec(n)) == Going(o.(failnum := n))
  {
    hide Atoi, Dec;
    assert "failnum=" + Dec(n) == "failnum" + "=" + Dec(n);
    KeyValue("failnum", Dec(n));
    NumbersReadBack(n);
  }

  lemma AcceptFailinfo(o: Opts, n: nat)
    requires n <= ULONG_MAX
    ensures Accept(o, "failinfo=" + Dec(n)) == Going(o.(failinfo := n))
  {
    hide Strtoul, Dec;
    assert "failinfo=" + Dec(n) == "failinfo" + "=" + Dec(n);
    KeyValue("failinfo", Dec(n));
    NumbersReadBack(n);
  }

  lemma AcceptProbability(o: Opts, probability: string)
    ensures Accept(o, "probability=" + probability) == Going(o.(probability := Some(probability)))
  {
    assert "probability=" + probability == "probability" + "=" + probability;
    KeyValue("probability", probability);
  }

  lemma AcceptFuncName(o: Opts, name: string)
    ensures Accept(o, "func_name=" + name) == Going(o.(funcName := Some(name)))
  {
    assert "func_name=" + name == "func_name" + "=" + name;
    KeyValue("func_name", name);
  }

  lemma AcceptPos(o: Opts, n: int)
    requires IsInt(n)
    ensures Accept(o, "pos_in_stack=" + Dec(n)) == Going(o.(posInStack := n))
  {
    hide Atoi, Dec;
    assert "pos_in_stack=" + Dec(n) == "pos_in_stack" + "=" + Dec(n);
    KeyValue("pos_in_stack", Dec(n));
    NumbersReadBack(n);
  }

  lemma {:induction false} AcceptFlags(o: Opts, flags: seq<string>)
    requires forall i :: 0 <= i < |flags| ==> flags[i] == "onetime"
    ensures AcceptArgs(o, flags) == Going(o.(onetime := o.onetime || flags != []))
    decreases |flags|
  {
    if flags != [] {
      BareKey("onetime");
      assert Accept(o, flags[0]) == Going(o.(onetime := true));
      AcceptFlags(o.(onetime := true), flags[1..]);
    }
  }

  lemma AcceptOne(o: Opts, arg: string)
    ensures AcceptArgs(o, [arg]) == Accept(o, arg)
  {
    var r := Accept(o, arg);
    assert [arg][1..] == [];
    assert r.Going? ==> AcceptArgs(r.opts, [arg][1..]) == r;
  }

  lemma AcceptBasic(name: string, failnum: int, failinfo: Option<nat>, flags: seq<string>)
    requires IsInt(failnum) && (failinfo.Some? ==> failinfo.value <= ULONG_MAX)
    requires forall i :: 0 <= i < |flags| ==> flags[i] == "onetime"
    ensures AcceptArgs(DEFAULTS, BasicArgs(name, failnum, failinfo, flags)) ==
            Going(DEFAULTS.(name := Some(name), failnum := if failnum == 0 then 1 else failnum,
                            failinfo := if failinfo.Some? then failinfo.value else 0, onetime := flags != []))
  {
    hide Accept, AcceptArgs, Dec;
    var one := ["name=" + name];
    var two := if failnum != 0 then ["failnum=" + Dec(failnum)] else [];
    var three := if failinfo.Some? && failinfo.value != 0 then ["failinfo=" + Dec(failinfo.value)] else [];
    var o1 := DEFAULTS.(name := Some(name));
    AcceptOne(DEFAULTS, "name=" + name);
    AcceptName(DEFAULTS, name);
    var o2 := o1.(failnum := if failnum == 0 then 1 else failnum);
    AcceptNone(o1);
    if failnum != 0 {
      AcceptOne(o1, "failnum=" + Dec(failnum));
      AcceptFailnum(o1, failnum);
    }
    var o3 := o2.(failinfo := if failinfo.Some? then failinfo.value else 0);
    AcceptNone(o2);
    if failinfo.Some? && failinfo.value != 0 {
      AcceptOne(o2, "failinfo=" + Dec(failinfo.value));
      AcceptFailinfo(o2, failinfo.value);
    }
    AcceptConcat(DEFAULTS, one, two);
    AcceptConcat(DEFAULTS, one + two, three);
    AcceptConcat(DEFAULTS, one + two + three, flags);
    AcceptFlags(o3, flags);
  }

  lemma AcceptNone(o: Opts)
    ensures AcceptArgs(o, []) == Going(o)
  {
  }

  // The options the C side ends up with.
  function Understood(cmd: Cmd): Opts {
    match Meaning(cmd)
    case CallEnable(name, failnum, failinfo, onetime) =>
      DEFAULTS.(name := name, failnum := failnum, failinfo := failinfo, onetime := onetime)
    case CallEnableStackByName(name, failnum, failinfo, onetime, funcName, pos) =>
      DEFAULTS.(name := name, failnum := failnum, failinfo := failinfo, onetime := onetime, funcName := funcName,
                posInStack := pos)
    case CallEnableRandom(name, failnum, failinfo, onetime, probability) =>
      DEFAULTS.(name := name, failnum := failnum, failinfo := failinfo, onetime := onetime, probability := probability)
    case CallDisable(name) => DEFAULTS.(name := name)
  }

  lemma AcceptCommand(cmd: Cmd)
    requires WellWorded(cmd)
    ensures AcceptArgs(DEFAULTS, Args(cmd)) == Going(Understood(cmd))
  {
    hide Accept, AcceptArgs, Dec, BasicArgs, Line;
    match cmd {
      case Enable(name, failnum, failinfo, flags) =>
        AcceptBasic(name, failnum, failinfo, flags);
      case EnableRandom(name, probability, failnum, failinfo, flags) =>
        AcceptBasic(name, failnum, failinfo, flags);
        var basic := BasicArgs(name, failnum, failinfo, flags);
        var o := AcceptArgs(DEFAULTS, basic).opts;
        AcceptConcat(DEFAULTS, basic, ["probability=" + probability]);
        AcceptOne(o, "probability=" + probability);
        AcceptProbability(o, probability);
      case EnableStackByName(name, funcName, failnum, failinfo, flags, pos) =>
        AcceptBasic(name, failnum, failinfo, flags);
        var basic := BasicArgs(name, failnum, failinfo, flags);
        var fn := ["func_name=" + funcName];
        var ps := if pos >= 0 then ["pos_in_stack=" + Dec(pos)] else [];
        var o := AcceptArgs(DEFAULTS, basic).opts;
        AcceptConcat(DEFAULTS, basic, fn);
        AcceptConcat(DEFAULTS, basic + fn, ps);
        AcceptOne(o, "func_name=" + funcName);
        AcceptFuncName(o, funcName);
        var o' := o.(funcName := Some(funcName));
        AcceptNone(o');
        if pos >= 0 {
          AcceptOne(o', "pos_in_stack=" + Dec(pos));
          AcceptPos(o', pos);
        }
      case Disable(name) =>
        AcceptOne(DEFAULTS, "name=" + name);
        AcceptName(DEFAULTS, name);
    }
  }

  // ---- one line ----

  lemma {:induction false} JoinAvoids(args: seq<string>, delims: set<char>)
    requires ',' !in delims && forall i :: 0 <= i < |args| ==> Avoids(args[i], delims)
    ensures Avoids(Join(args), delims)
  {
    if |args| > 1 {
      JoinAvoids(args[1..], delims);
    }
  }

  lemma DecIsText(n: int)
    ensures OkText(Dec(n))
  {
    DecNatDigits(if n < 0 then -n else n);
  }

  lemma ArgsAreOptions(cmd: Cmd)
    requires WellWorded(cmd)
    ensures forall i :: 0 <= i < |Args(cmd)| ==> OneOption(Args(cmd)[i])
    ensures Args(cmd) != []
  {
    hide Line, Dec, Avoids;
    if !cmd.Disable? {
      DecIsText(cmd.failnum);
      TextConcat("failnum=", Dec(cmd.failnum));
      if cmd.failinfo.Some? {
        DecIsText(cmd.failinfo.value);
        TextConcat("failinfo=", Dec(cmd.failinfo.value));
      }
    }
    if cmd.EnableStackByName? {
      DecIsText(cmd.posInStack);
      TextConcat("pos_in_stack=", Dec(cmd.posInStack));
      TextConcat("func_name=", cmd.funcName);
    }
    if cmd.EnableRandom? {
      TextConcat("probability=", cmd.probability);
    }
    TextConcat("name=", cmd.name);
    LiteralsAreText();
  }

  lemma LiteralsAreText()
    ensures OkText("name=") && OkText("failnum=") && OkText("failinfo=") && OkText("func_name=")
    ensures OkText("pos_in_stack=") && OkText("onetime") && OkText("probability=")
  {
  }

  lemma TextConcat(a: string, b: string)
    ensures OkText(a) && OkText(b) ==> OkText(a + b)
  {
  }

  // Parsing a printed command gives back its call.
  lemma ParseLine(cmd: Cmd)
    requires WellFormed(cmd)
    ensures Parse(Line(cmd)) == Calls(Meaning(cmd))
  {
    hide Accept, AcceptArgs, AcceptAll, Join, NextToken, BasicArgs;
    ArgsAreOptions(cmd);
    JoinedIsWord(cmd);
    var word := Join(Args(cmd));
    assert Verb(cmd) + " " + word == Verb(cmd) + [' '] + word;
    TokenThenRest(Verb(cmd), ' ', word, BLANKS);
    LastToken(word, BLANKS);
    AcceptJoined(DEFAULTS, Args(cmd));
    AcceptCommand(cmd);
    assert Truncated(Line(cmd)) == Line(cmd);
  }

  lemma JoinedIsWord(cmd: Cmd)
    requires WellWorded(cmd)
    ensures Join(Args(cmd)) != [] && Avoids(Join(Args(cmd)), BLANKS) && Avoids(Join(Args(cmd)), {'\n'})
  {
    hide Line, Args;
    ArgsAreOptions(cmd);
    var args := Args(cmd);
    forall i | 0 <= i < |args| ensures Avoids(args[i], BLANKS) && Avoids(args[i], {'\n'}) {
      assert OneOption(args[i]);
    }
    JoinAvoids(args, BLANKS);
    JoinAvoids(args, {'\n'});
  }

  // ---- a list of commands ----

  function Meanings(cmds: seq<Cmd>): seq<Call> {
    if cmds == [] then [] else [Meaning(cmds[0])] + Meanings(cmds[1..])
  }

  // The calls made when each is tried in turn until one fails.
  function UpToFailure(done: seq<Call>, calls: seq<Call>, succeeds: seq<Call> -> bool): seq<Call>
    decreases |calls|
  {
    if calls == [] then done
    else if succeeds(done + [calls[0]]) then UpToFailure(done + [calls[0]], calls[1..], succeeds)
    else done + [calls[0]]
  }

  lemma {:induction false} PrintedFront(cmds: seq<Cmd>)
    requires cmds != []
    ensures Printed(cmds) == Line(cmds[0]) + "\n" + Printed(cmds[1..])
  {
    hide Line;
    var n := |cmds| - 1;
    if n == 0 {
      assert cmds[..0] == [] && cmds[1..] == [];
      assert Printed(cmds) == "" + Line(cmds[0]) + "\n";
    } else {
      PrintedFront(cmds[..n]);
      var last := Line(cmds[n]);
      assert cmds[..n][1..] == cmds[1..][..n - 1];
      PrintedLast(cmds);
      PrintedLast(cmds[1..]);
      hide Printed;
      Regroup(Line(cmds[0]) + "\n", Printed(cmds[1..][..n - 1]), last, "\n");
    }
  }

  lemma PrintedLast(cmds: seq<Cmd>)
    requires cmds != []
    ensures Printed(cmds) == Printed(cmds[..|cmds| - 1]) + Line(cmds[|cmds| - 1]) + "\n"
  {
  }

  lemma Regroup(a: string, b: string, c: string, d: string)
    ensures a + b + c + d == a + (b + c + d)
  {
  }

  // In plain terms: the calls are made in order, each but the last succeeds, and when not all are made the
  // last one failed.
  lemma {:induction false} UpToFailureMeaning(done: seq<Call>, calls: seq<Call>, succeeds: seq<Call> -> bool)
    returns (n: nat)
    ensures n <= |calls| && UpToFailure(done, calls, succeeds) == done + calls[..n]
    ensures forall i :: 0 < i < n ==> succeeds(done + calls[..i])
    ensures n < |calls| ==> n > 0 && !succeeds(done + calls[..n])
    decreases |calls|
  {
    n := 0;
    if calls != [] {
      var done' := done + [calls[0]];
      assert done + calls[..1] == done';
      n := 1;
      if succeeds(done') {
        var m := UpToFailureMeaning(done', calls[1..], succeeds);
        n := m + 1;
        assert forall i :: 0 <= i <= m ==> done' + calls[1..][..i] == done + calls[..i + 1];
        forall i | 0 < i < n ensures succeeds(done + calls[..i]) {
          assert i > 1 ==> done + calls[..i] == done' + calls[1..][..i - 1];
        }
      }
    } else {
      assert done + [] == done;
    }
  }

  predicate AllSucceed(done: seq<Call>, calls: seq<Call>, succeeds: seq<Call> -> bool)
    decreases |calls|
  {
    calls == [] || (succeeds(done + [calls[0]]) && AllSucceed(done + [calls[0]], calls[1..], succeeds))
  }

  lemma FirstLine(line: string, rest: string, done: seq<Call>, succeeds: seq<Call> -> bool)
    requires line != [] && Avoids(line, {'\n'})
    ensures RunLines(line + "\n" + rest, done, succeeds) ==
            var r := Parse(line);
            if !r.Calls? then done
            else if succeeds(done + [r.call]) then RunLines(rest, done + [r.call], succeeds)
            else done + [r.call]
  {
    hide NextToken, Parse;
    assert line + "\n" + rest == line + ['\n'] + rest;
    TokenThenRest(line, '\n', rest, {'\n'});
  }

  lemma NothingPrinted(tail: string, done: seq<Call>, succeeds: seq<Call> -> bool)
    ensures Printed([]) + tail == tail && done + [] == done && AllSucceed(done, [], succeeds)
  {
    hide Line;
  }

  lemma OneCallMore(done: seq<Call>, c: Call, calls: seq<Call>, succeeds: seq<Call> -> bool)
    ensures AllSucceed(done, [c] + calls, succeeds) <==>
            succeeds(done + [c]) && AllSucceed(done + [c], calls, succeeds)
    ensures UpToFailure(done, [c] + calls, succeeds) ==
            if succeeds(done + [c]) then UpToFailure(done + [c], calls, succeeds) else done + [c]
    ensures done + [c] + calls == done + ([c] + calls)
  {
    assert ([c] + calls)[1..] == calls;
  }

  // Printed commands, with anything after them: their calls are made, in order, up to the first one that
  // fails; what follows is read only when none does.
  lemma {:induction false} RoundTripThen(cmds: seq<Cmd>, tail: string, done: seq<Call>, succeeds: seq<Call> -> bool)
    requires forall i :: 0 <= i < |cmds| ==> WellFormed(cmds[i])
    ensures RunLines(Printed(cmds) + tail, done, succeeds) ==
            if AllSucceed(done, Meanings(cmds), succeeds) then RunLines(tail, done + Meanings(cmds), succeeds)
            else UpToFailure(done, Meanings(cmds), succeeds)
    decreases |cmds|
  {
    hide Line, Parse, Meaning, WellWorded, RunLines, UpToFailure, AllSucceed, Printed;
    if cmds == [] {
      NothingPrinted(tail, done, succeeds);
    } else {
      var line, rest := Line(cmds[0]), Printed(cmds[1..]) + tail;
      PrintedFront(cmds);
      LineIsToken(cmds[0]);
      assert Printed(cmds) + tail == line + "\n" + rest;
      ParseLine(cmds[0]);
      FirstLine(line, rest, done, succeeds);
      var done' := done + [Meaning(cmds[0])];
      OneCallMore(done, Meaning(cmds[0]), Meanings(cmds[1..]), succeeds);
      if succeeds(done') {
        RoundTripThen(cmds[1..], tail, done', succeeds);
        assert done' + Meanings(cmds[1..]) == done + Meanings(cmds);
      }
    }
  }

  lemma {:induction false} WhenAllSucceed(done: seq<Call>, calls: seq<Call>, succeeds: seq<Call> -> bool)
    requires AllSucceed(done, calls, succeeds)
    ensures UpToFailure(done, calls, succeeds) == done + calls
    decreases |calls|
  {
    if calls != [] {
      WhenAllSucceed(done + [calls[0]], calls[1..], succeeds);
      assert done + calls == done + [calls[0]] + calls[1..];
    } else {
      assert done + calls == done;
    }
  }

  // The round trip: splitting and parsing the printed environment makes exactly the calls asked
  // for, in order, up to the first one that fails.
  lemma RoundTrip(cmds: seq<Cmd>, done: seq<Call>, succeeds: seq<Call> -> bool)
    requires forall i :: 0 <= i < |cmds| ==> WellFormed(cmds[i])
    ensures RunLines(Printed(cmds), done, succeeds) == UpToFailure(done, Meanings(cmds), succeeds)
  {
    hide WellFormed, Meanings, Printed, AllSucceed, UpToFailure;
    RoundTripThen(cmds, "", done, succeeds);
    assert Printed(cmds) + "" == Printed(cmds);
    if AllSucceed(done, Meanings(cmds), succeeds) {
      WhenAllSucceed(done, Meanings(cmds), succeeds);
      NoToken();
    }
  }

  // A line in error ends it: no line after it is read.
  lemma ErrorEndsTheRun(cmds: seq<Cmd>, bad: string, rest: string, done: seq<Call>, succeeds: seq<Call> -> bool)
    requires forall i :: 0 <= i < |cmds| ==> WellFormed(cmds[i])
    requires bad != [] && '\n' !in bad && !Parse(bad).Calls?
    ensures RunLines(Printed(cmds) + (bad + "\n" + rest), done, succeeds) == UpToFailure(done, Meanings(cmds), succeeds)
  {
    hide WellFormed, Meanings, Printed, AllSucceed, UpToFailure, Parse, RunLines;
    RoundTripThen(cmds, bad + "\n" + rest, done, succeeds);
    FirstLine(bad, rest, done + Meanings(cmds), succeeds);
    if AllSucceed(done, Meanings(cmds), succeeds) {
      WhenAllSucceed(done, Meanings(cmds), succeeds);
    }
  }

  lemma NoToken()
    ensures NextToken("", {'\n'}) == None
  {
  }

  lemma LineIsToken(cmd: Cmd)
    requires WellWorded(cmd)
    ensures Line(cmd) != [] && Avoids(Line(cmd), {'\n'})
  {
    hide Join, Args;
    JoinedIsWord(cmd);
  }

  lemma {:induction false} AllMade(done: seq<Call>, calls: seq<Call>, succeeds: seq<Call> -> bool)
    requires forall made :: succeeds(made)
    ensures UpToFailure(done, calls, succeeds) == done + calls
    decreases |calls|
  {
    if calls != [] {
      AllMade(done + [calls[0]], calls[1..], succeeds);
      assert done + calls == done + [calls[0]] + calls[1..];
    }
  }

  // The call with the arguments exactly as given.
  function Asked(cmd: Cmd): Call {
    match cmd
    case Enable(name, failnum, failinfo, flags) =>
      CallEnable(Some(name), failnum, if failinfo.Some? then failinfo.value else 0, flags != [])
    case EnableRandom(name, probability, failnum, failinfo, flags) =>
      CallEnableRandom(Some(name), failnum, if failinfo.Some? then failinfo.value else 0, flags != [],
                       Some(probability))
    case EnableStackByName(name, funcName, failnum, failinfo, flags, pos) =>
      CallEnableStackByName(Some(name), failnum, if failinfo.Some? then failinfo.value else 0, flags != [],
                            Some(funcName), pos)
    case Disable(name) => CallDisable(Some(name))
  }

  // A line carries its arguments faithfully exactly when the failnum is not 0 and the stack position
  // is not below -1.
  lemma FaithfulWhen(cmd: Cmd)
    requires WellFormed(cmd)
    ensures Parse(Line(cmd)) == Calls(Asked(cmd)) <==>
            (cmd.Disable? || cmd.failnum != 0) && (cmd.EnableStackByName? ==> cmd.posInStack >= -1)
  {
    hide Parse, Line;
    ParseLine(cmd);
  }

  // Two well-formed commands that fail it.
  lemma ZeroFailnumBecomesOne()
    ensures var cmd := Cmd.Enable("a", 0, None, []);
            && WellFormed(cmd) && Asked(cmd) == CallEnable(Some("a"), 0, 0, false)
            && Parse(Line(cmd)) == Calls(CallEnable(Some("a"), 1, 0, false))
  {
    hide Parse, Dec;
    var cmd := Cmd.Enable("a", 0, None, []);
    assert Join(Args(cmd)) == "name=a";
    ParseLine(cmd);
  }

  lemma LowPositionBecomesMinusOne()
    ensures var cmd := Cmd.EnableStackByName("a", "f", 1, None, [], -2);
            && WellFormed(cmd) && Asked(cmd) == CallEnableStackByName(Some("a"), 1, 0, false, Some("f"), -2)
            && Parse(Line(cmd)) == Calls(CallEnableStackByName(Some("a"), 1, 0, false, Some("f"), -1))
  {
    hide Parse, Line;
    var cmd := Cmd.EnableStackByName("a", "f", 1, None, [], -2);
    StackLine("a", "f", -2);
    ParseLine(cmd);
  }

  lemma StackLine(name: string, func: string, pos: int)
    requires pos < 0
    ensures |Line(Cmd.EnableStackByName(name, func, 1, None, [], pos))| == 47 + |name| + |func|
  {
    hide Join;
    assert |Dec(1)| == 1;
    var a, b, c := "name=" + name, "failnum=" + Dec(1), "func_name=" + func;
    assert BasicArgs(name, 1, None, []) == [a, b];
    assert Args(Cmd.EnableStackByName(name, func, 1, None, [], pos)) == [a, b, c];
    JoinThree(a, b, c);
  }

  lemma JoinThree(a: string, b: string, c: string)
    ensures Join([a, b, c]) == a + "," + (b + "," + c)
  {
    assert [a, b, c][1..] == [b, c];
    assert [b, c][1..] == [c];
    assert Join([b, c]) == b + "," + c;
  }

  // ---- lines of any length ----

  function Cut(s: string, n: nat): string {
    if |s| > n then s[..n] else s
  }

  // What is left of a list of options in `n` characters: whole options, and a prefix of the next.
  function Fitted(args: seq<string>, n: nat): seq<string> {
    if args == [] || n == 0 then []
    else if |args[0]| >= n then [args[0][..n]]
    else [args[0]] + Fitted(args[1..], n - |args[0]| - 1)
  }

  lemma {:induction false} AcceptCut(o: Opts, args: seq<string>, n: nat)
    requires forall i :: 0 <= i < |args| ==> OneOption(args[i])
    ensures AcceptAll(o, Cut(Join(args), n)) == AcceptArgs(o, Fitted(args, n))
    decreases |args|
  {
    hide Accept, SubOption, AfterSubOption;
    if args == [] || n == 0 {
    } else if |args[0]| >= n {
      var part := args[0][..n];
      CutFirst(args, n);
      assert part + [] == part;
      FirstSubOption(part, []);
      AcceptOne(o, part);
    } else if |args| == 1 {
      assert args[0] + [] == args[0] && args[1..] == [];
      FirstSubOption(args[0], []);
      AcceptOne(o, args[0]);
      assert Fitted(args, n) == [args[0]];
    } else {
      var left := n - |args[0]| - 1;
      var rest := "," + Cut(Join(args[1..]), left);
      assert Join(args) == args[0] + "," + Join(args[1..]);
      assert Cut(Join(args), n) == args[0] + rest;
      assert rest[1..] == Cut(Join(args[1..]), left);
      FirstSubOption(args[0], rest);
      var r := Accept(o, args[0]);
      if r.Going? {
        AcceptCut(r.opts, args[1..], left);
      }
    }
  }

  lemma CutFirst(args: seq<string>, n: nat)
    requires args != [] && |args[0]| >= n
    ensures Cut(Join(args), n) == args[0][..n]
  {
  }

  // The rest of fiu_rc_string, once its option loop has ended.
  function Interpreted(verb: string, r: Parsing): Parsed {
    match r
    case Going(o) => Dispatch(verb, o)
    case Unknown => Error("Unknown parameter")
    case Stuck => Undefined
  }

  // The options of a line as the parser's buffer holds them.
  function Kept(cmd: Cmd): seq<string> {
    Fitted(Args(cmd), MAX_LINE - 2 - |Verb(cmd)|)
  }

  lemma CutAvoids(s: string, n: nat, delims: set<char>)
    requires s != [] && n > 0 && Avoids(s, delims)
    ensures Cut(s, n) != [] && Avoids(Cut(s, n), delims)
  {
  }

  lemma TruncatedLine(cmd: Cmd)
    ensures Truncated(Line(cmd)) == Verb(cmd) + [' '] + Cut(Join(Args(cmd)), MAX_LINE - 2 - |Verb(cmd)|)
  {
    hide Join, Args;
  }

  lemma VerbIsToken(cmd: Cmd)
    ensures Verb(cmd) != [] && Avoids(Verb(cmd), BLANKS)
  {
  }

  // Past 511 characters a line is cut, not refused: a line of any length means the options that fit and
  // the prefix of the first that does not.
  lemma ParseAnyLine(cmd: Cmd)
    requires WellWorded(cmd)
    ensures Parse(Line(cmd)) == Interpreted(Verb(cmd), AcceptArgs(DEFAULTS, Kept(cmd)))
  {
    hide Accept, AcceptArgs, AcceptAll, Join, NextToken, Args, Fitted, Line, Truncated, Cut, WellWorded, OkText,
      Dispatch, Avoids;
    var word, n := Join(Args(cmd)), MAX_LINE - 2 - |Verb(cmd)|;
    ArgsAreOptions(cmd);
    JoinedIsWord(cmd);
    CutAvoids(word, n, BLANKS);
    TruncatedLine(cmd);
    VerbIsToken(cmd);
    TokenThenRest(Verb(cmd), ' ', Cut(word, n), BLANKS);
    LastToken(Cut(word, n), BLANKS);
    AcceptCut(DEFAULTS, Args(cmd), n);
  }

  lemma NameFills(cmd: Cmd)
    requires WellWorded(cmd) && |cmd.name| >= MAX_LINE - 7 - |Verb(cmd)|
    ensures Parse(Line(cmd)) == Dispatch(Verb(cmd), DEFAULTS.(name := Some(cmd.name[..MAX_LINE - 7 - |Verb(cmd)|])))
  {
    hide Parse, Line, Accept, Fitted, BasicArgs;
    var part := "name=" + cmd.name[..MAX_LINE - 7 - |Verb(cmd)|];
    ParseAnyLine(cmd);
    FirstArg(cmd);
    FittedFirst(Args(cmd), MAX_LINE - 2 - |Verb(cmd)|);
    assert Args(cmd)[0][..MAX_LINE - 2 - |Verb(cmd)|] == part;
    AcceptOne(DEFAULTS, part);
    AcceptName(DEFAULTS, cmd.name[..MAX_LINE - 7 - |Verb(cmd)|]);
  }

  lemma FirstArg(cmd: Cmd)
    ensures Args(cmd) != [] && Args(cmd)[0] == "name=" + cmd.name
  {
  }

  lemma FittedFirst(args: seq<string>, n: nat)
    requires args != [] && |args[0]| >= n > 0
    ensures Fitted(args, n) == [args[0][..n]]
  {
  }

  // A name that fills the buffer loses its end, and with it every other argument: the failnum falls back
  // to 1, ONETIME to off, and the function to none.
  lemma LongNamesLoseTheRest(cmd: Cmd)
    requires WellWorded(cmd)
    ensures match cmd
            case Disable(name) => |name| >= 498 ==> Parse(Line(cmd)) == Calls(CallDisable(Some(name[..498])))
            case Enable(name, _, _, _) =>
              |name| >= 499 ==> Parse(Line(cmd)) == Calls(CallEnable(Some(name[..499]), 1, 0, false))
            case EnableRandom(name, _, _, _, _) =>
              |name| >= 492 ==> Parse(Line(cmd)) == Calls(CallEnableRandom(Some(name[..492]), 1, 0, false, None))
            case EnableStackByName(name, _, _, _, _, _) =>
              |name| >= 485 ==>
                Parse(Line(cmd)) == Calls(CallEnableStackByName(Some(name[..485]), 1, 0, false, None, -1))
  {
    hide Parse, Line, WellWorded;
    if |cmd.name| >= MAX_LINE - 7 - |Verb(cmd)| {
      NameFills(cmd);
    }
  }

  lemma DisableLine(name: string)
    ensures Line(Cmd.Disable(name)) == "disable name=" + name
  {
    assert "disable" + " " + ("name=" + name) == "disable name=" + name;
  }

  // What becomes of a disable line of any length.
  lemma LongNamesAreCut(name: string)
    requires OkText(name)
    ensures Parse(Line(Cmd.Disable(name))) == Calls(CallDisable(Some(if |name| <= 498 then name else name[..498])))
  {
    hide Parse, OkText, Line;
    var cmd := Cmd.Disable(name);
    if |name| <= 498 {
      DisableLine(name);
      ParseLine(cmd);
    } else {
      LongNamesLoseTheRest(cmd);
    }
  }

  // From the Python object to the calls of the control API.
  method Deliver(cmds: seq<Cmd>, succeeds: seq<Call> -> bool) returns (calls: seq<Call>)
    requires forall i :: 0 <= i < |cmds| ==> WellFormed(cmds[i])
    ensures calls == UpToFailure([], Meanings(cmds), succeeds)
    ensures (forall made :: succeeds(made)) ==> calls == Meanings(cmds)
  {
    hide Line, Meaning, WellFormed, RunLines, UpToFailure, Meanings;
    var control := new EnvironmentControl();
    var i := 0;
    while i < |cmds|
      invariant i <= |cmds| && fresh(control)
      invariant control.env == Printed(cmds[..i])
    {
      assert cmds[..i + 1][..i] == cmds[..i];
      match cmds[i] {
        case Enable(name, failnum, failinfo, flags) =>
          control.Enable(name, failnum, failinfo, flags);
        case EnableRandom(name, probability, failnum, failinfo, flags) =>
          control.EnableRandom(name, probability, failnum, failinfo, flags);
        case EnableStackByName(name, funcName, failnum, failinfo, flags, pos) =>
          control.EnableStackByName(name, funcName, failnum, failinfo, flags, pos);
        case Disable(name) =>
          control.Disable(name);
      }
      i := i + 1;
    }
    assert cmds[..i] == cmds;
    RoundTrip(cmds, [], succeeds);
    if forall made :: succeeds(made) {
      AllMade([], Meanings(cmds), succeeds);
    }
    calls := FiuRunInit(control.env, succeeds);
  }
}
