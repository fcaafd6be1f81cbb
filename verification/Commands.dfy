// The remote-control command language: what bindings/python/fiu_ctrl.in.py prints, how
// preload/run/run.c splits it, and what fiu_rc_string of libfiu/fiu-rc.c makes of each line.
module Commands {
  import opened Slots
  import opened Numbers

  const MAX_LINE: nat := 512

  // ---- tokens ----

  // The length of the longest prefix without a delimiter.
  function TokenLen(s: string, delims: set<char>): (n: nat)
    ensures n <= |s|
  {
    if s == [] || s[0] in delims then 0 else 1 + TokenLen(s[1..], delims)
  }

  function SkipDelims(s: string, delims: set<char>): (r: string)
    ensures |r| <= |s|
  {
    if s != [] && s[0] in delims then SkipDelims(s[1..], delims) else s
  }

  // strtok_r: skip delimiters, cut a token, and continue after the delimiter that ended it.
  function NextToken(s: string, delims: set<char>): (r: Option<(string, string)>)
    ensures r.Some? ==> |r.value.1| < |s|
  {
    var t := SkipDelims(s, delims);
    if t == [] then None
    else
      var n := TokenLen(t, delims);
      Some((t[..n], if n < |t| then t[n + 1..] else []))
  }

  predicate Avoids(s: string, delims: set<char>) {
    forall i :: 0 <= i < |s| ==> s[i] !in delims
  }

  lemma {:induction false} TokenLenStops(a: string, b: string, delims: set<char>)
    requires Avoids(a, delims) && (b == [] || b[0] in delims)
    ensures TokenLen(a + b, delims) == |a|
  {
    if a == [] {
      assert a + b == b;
    } else {
      assert (a + b)[1..] == a[1..] + b;
      TokenLenStops(a[1..], b, delims);
    }
  }

  lemma TokenThenRest(a: string, d: char, b: string, delims: set<char>)
    requires a != [] && Avoids(a, delims) && d in delims
    ensures NextToken(a + [d] + b, delims) == Some((a, b))
  {
    var s := a + [d] + b;
    assert s == a + ([d] + b);
    TokenLenStops(a, [d] + b, delims);
    assert s[0] == a[0];
    assert SkipDelims(s, delims) == s;
    assert s[..|a|] == a && s[|a| + 1..] == b;
  }

  lemma LastToken(a: string, delims: set<char>)
    requires a != [] && Avoids(a, delims)
    ensures NextToken(a, delims) == Some((a, []))
  {
    assert a + [] == a;
    TokenLenStops(a, [], delims);
    assert SkipDelims(a, delims) == a;
  }

  // ---- the commands and the calls they become ----

  // The probability is the text "%f" makes of it.
  datatype Cmd =
    | Enable(name: string, failnum: int, failinfo: Option<nat>, flags: seq<string>)
    | EnableRandom(name: string, probability: string, failnum: int, failinfo: Option<nat>, flags: seq<string>)
    | EnableStackByName(name: string, funcName: string, failnum: int, failinfo: Option<nat>, flags: seq<string>,
                        posInStack: int)
    | Disable(name: string)

  datatype Call =
    | CallEnable(name: Option<string>, failnum: int, failinfo: nat, onetime: bool)
    | CallEnableRandom(name: Option<string>, failnum: int, failinfo: nat, onetime: bool, probability: Option<string>)
    | CallEnableStackByName(name: Option<string>, failnum: int, failinfo: nat, onetime: bool, funcName: Option<string>,
                            posInStack: int)
    | CallDisable(name: Option<string>)

  // What fiu_rc_string does with a line: one call of the control API, an error of its own, or
  // behaviour C leaves undefined (a number missing or out of range).
  datatype Parsed = Calls(call: Call) | Error(message: string) | Undefined

  // ---- printing ----

  function Join(args: seq<string>): string {
    if args == [] then "" else if |args| == 1 then args[0] else args[0] + "," + Join(args[1..])
  }

  // _basic_args.
  function BasicArgs(name: string, failnum: int, failinfo: Option<nat>, flags: seq<string>): seq<string> {
    ["name=" + name]
    + (if failnum != 0 then ["failnum=" + Dec(failnum)] else [])
    + (if failinfo.Some? && failinfo.value != 0 then ["failinfo=" + Dec(failinfo.value)] else [])
    + flags
  }

  function Verb(cmd: Cmd): string {
    match cmd
    case Enable(_, _, _, _) => "enable"
    case EnableRandom(_, _, _, _, _) => "enable_random"
    case EnableStackByName(_, _, _, _, _, _) => "enable_stack_by_name"
    case Disable(_) => "disable"
  }

  function Args(cmd: Cmd): seq<string> {
    match cmd
    case Enable(name, failnum, failinfo, flags) => BasicArgs(name, failnum, failinfo, flags)
    case EnableRandom(name, probability, failnum, failinfo, flags) =>
      BasicArgs(name, failnum, failinfo, flags) + ["probability=" + probability]
    case EnableStackByName(name, funcName, failnum, failinfo, flags, pos) =>
      BasicArgs(name, failnum, failinfo, flags) + ["func_name=" + funcName]
      + (if pos >= 0 then ["pos_in_stack=" + Dec(pos)] else [])
    case Disable(name) => ["name=" + name]
  }

  function Line(cmd: Cmd): string {
    Verb(cmd) + " " + Join(Args(cmd))
  }

  // The environment string of a list of commands.
  function Printed(cmds: seq<Cmd>): string {
    if cmds == [] then "" else Printed(cmds[..|cmds| - 1]) + Line(cmds[|cmds| - 1]) + "\n"
  }

  class EnvironmentControl {
    var env: string

    constructor ()
      ensures env == Printed([])
    {
      env := "";
    }

    method RunRawCmd(verb: string, args: seq<string>)
      modifies this
      ensures env == old(env) + (verb + " " + Join(args)) + "\n"
    {
      env := env + (verb + " " + Join(args)) + "\n";
    }

    method MakeBasicArgs(name: string, failnum: int, failinfo: Option<nat>, flags: seq<string>)
      returns (args: seq<string>)
      ensures args == BasicArgs(name, failnum, failinfo, flags)
    {
      args := ["name=" + name];
      if failnum != 0 {
        args := args + ["failnum=" + Dec(failnum)];
      }
      if failinfo.Some? && failinfo.value != 0 {
        args := args + ["failinfo=" + Dec(failinfo.value)];
      }
      if flags != [] {
        args := args + flags;
      }
    }

    method Enable(name: string, failnum: int, failinfo: Option<nat>, flags: seq<string>)
      modifies this
      ensures env == old(env) + Line(Cmd.Enable(name, failnum, failinfo, flags)) + "\n"
    {
      var args := MakeBasicArgs(name, failnum, failinfo, flags);
      RunRawCmd("enable", args);
    }

    method EnableRandom(name: string, probability: string, failnum: int, failinfo: Option<nat>, flags: seq<string>)
      modifies this
      ensures env == old(env) + Line(Cmd.EnableRandom(name, probability, failnum, failinfo, flags)) + "\n"
    {
      var args := MakeBasicArgs(name, failnum, failinfo, flags);
      args := args + ["probability=" + probability];
      RunRawCmd("enable_random", args);
    }

    method EnableStackByName(name: string, funcName: string, failnum: int, failinfo: Option<nat>, flags: seq<string>,
                             posInStack: int)
      modifies this
      ensures env == old(env) + Line(Cmd.EnableStackByName(name, funcName, failnum, failinfo, flags, posInStack)) + "\n"
    {
      var args := MakeBasicArgs(name, failnum, failinfo, flags);
      args := args + ["func_name=" + funcName];
      if posInStack >= 0 {
        args := args + ["pos_in_stack=" + Dec(posInStack)];
      }
      assert args == Args(Cmd.EnableStackByName(name, funcName, failnum, failinfo, flags, posInStack));
      RunRawCmd("enable_stack_by_name", args);
    }

    method Disable(name: string)
      modifies this
      ensures env == old(env) + Line(Cmd.Disable(name)) + "\n"
    {
      RunRawCmd("disable", ["name=" + name]);
    }
  }

  // ---- parsing ----

  datatype Opts = Opts(name: Option<string>, failnum: int, failinfo: nat, onetime: bool,
                       probability: Option<string>, funcName: Option<string>, posInStack: int)

  const DEFAULTS := Opts(None, 1, 0, false, None, None, -1)

  datatype Parsing = Going(opts: Opts) | Unknown | Stuck

  // getsubopt: split at the first comma, then at the first equals sign.
  function SubOption(opts: string): string {
    opts[..TokenLen(opts, {','})]
  }

  function AfterSubOption(opts: string): (r: string)
    ensures opts != [] ==> |r| < |opts|
  {
    var n := TokenLen(opts, {','});
    if n < |opts| then opts[n + 1..] else []
  }

  function Key(sub: string): string {
    sub[..TokenLen(sub, {'='})]
  }

  function Value(sub: string): Option<string> {
    var n := TokenLen(sub, {'='});
    if n < |sub| then Some(sub[n + 1..]) else None
  }

  // One turn of the option loop.
  function Accept(o: Opts, sub: string): Parsing {
    var key, value := Key(sub), Value(sub);
    if key == "name" then Going(o.(name := value))
    else if key == "failnum" then
      (if value.None? || Atoi(value.value).None? then Stuck else Going(o.(failnum := Atoi(value.value).value)))
    else if key == "failinfo" then
      (if value.None? then Stuck else Going(o.(failinfo := Strtoul(value.value))))
    else if key == "probability" then
      (if value.None? then Stuck else Going(o.(probability := value)))
    else if key == "func_name" then Going(o.(funcName := value))
    else if key == "pos_in_stack" then
      (if value.None? || Atoi(value.value).None? then Stuck else Going(o.(posInStack := Atoi(value.value).value)))
    else if key == "onetime" then Going(o.(onetime := true))
    else Unknown
  }

  function AcceptAll(o: Opts, opts: string): Parsing
    decreases |opts|
  {
    if opts == [] then Going(o)
    else
      var r := Accept(o, SubOption(opts));
      if r.Going? then AcceptAll(r.opts, AfterSubOption(opts)) else r
  }

  function Dispatch(verb: string, o: Opts): Parsed {
    if verb == "disable" then Calls(CallDisable(o.name))
    else if verb == "enable" then Calls(CallEnable(o.name, o.failnum, o.failinfo, o.onetime))
    else if verb == "enable_random" then
      Calls(CallEnableRandom(o.name, o.failnum, o.failinfo, o.onetime, o.probability))
    else if verb == "enable_stack_by_name" then
      Calls(CallEnableStackByName(o.name, o.failnum, o.failinfo, o.onetime, o.funcName, o.posInStack))
    else Error("Unknown command")
  }

  // strncpy into a zeroed buffer of MAX_LINE bytes.
  function Truncated(s: string): string {
    if |s| > MAX_LINE - 1 then s[..MAX_LINE - 1] else s
  }

  const BLANKS: set<char> := {' ', '\t'}

  // A line as a grammar: a verb, blanks, and one word of options.
  function Parse(line: string): Parsed {
    match NextToken(Truncated(line), BLANKS)
    case None => Error("Cannot get command")
    case Some((verb, rest)) =>
      match NextToken(rest, BLANKS)
      case None => Error("Cannot get parameters")
      case Some((word, _)) =>
        match AcceptAll(DEFAULTS, word)
        case Going(o) => Dispatch(verb, o)
        case Unknown => Error("Unknown parameter")
        case Stuck => Undefined
  }

  // fiu_rc_string.
  method FiuRcString(cmd: string) returns (r: Parsed)
    ensures r == Parse(cmd)
  {
    var first := NextToken(Truncated(cmd), BLANKS);
    if first.None? {
      return Error("Cannot get command");
    }
    var second := NextToken(first.value.1, BLANKS);
    if second.None? {
      return Error("Cannot get parameters");
    }
    var fpName: Option<string>, failnum, failinfo: nat, onetime := None, 1, 0, false;
    var probability: Option<string>, funcName: Option<string>, funcPosInStack := None, None, -1;
    var opts := second.value.0;
    while opts != []
      invariant AcceptAll(DEFAULTS, second.value.0)
             == AcceptAll(Opts(fpName, failnum, failinfo, onetime, probability, funcName, funcPosInStack), opts)
      decreases |opts|
    {
      var sub := SubOption(opts);
      opts := AfterSubOption(opts);
      var value := Value(sub);
      match Key(sub) {
        case "name" => fpName := value;
        case "failnum" =>
          if value.None? || Atoi(value.value).None? { return Undefined; }
          failnum := Atoi(value.value).value;
        case "failinfo" =>
          if value.None? { return Undefined; }
          failinfo := Strtoul(value.value);
        case "probability" =>
          if value.None? { return Undefined; }
          probability := value;
        case "func_name" => funcName := value;
        case "pos_in_stack" =>
          if value.None? || Atoi(value.value).None? { return Undefined; }
          funcPosInStack := Atoi(value.value).value;
        case "onetime" => onetime := true;
        case _ => return Error("Unknown parameter");
      }
    }
    r := Dispatch(first.value.0, Opts(fpName, failnum, failinfo, onetime, probability, funcName, funcPosInStack));
  }

  // ---- the splitter of preload/run/run.c ----

  // Lines are applied in order until one is in error, or its call fails. `succeeds` tells whether
  // the last of the calls made so far returned 0.
  function RunLines(env: string, done: seq<Call>, succeeds: seq<Call> -> bool): seq<Call>
    decreases |env|
  {
    match NextToken(env, {'\n'})
    case None => done
    case Some((line, rest)) =>
      match Parse(line)
      case Calls(c) => if succeeds(done + [c]) then RunLines(rest, done + [c], succeeds) else done + [c]
      case _ => done
  }

  // fiu_run_init, once FIU_ENABLE is set.
  method FiuRunInit(env: string, succeeds: seq<Call> -> bool) returns (calls: seq<Call>)
    ensures calls == RunLines(env, [], succeeds)
  {
    calls := [];
    var state := env;
    var tok := NextToken(state, {'\n'});
    while tok.Some?
      invariant tok == NextToken(state, {'\n'})
      invariant RunLines(env, [], succeeds) == RunLines(state, calls, succeeds)
      decreases |state|
    {
      var parsed := FiuRcString(tok.value.0);
      match parsed {
        case Calls(c) =>
          calls := calls + [c];
          if !succeeds(calls) {
            return;
          }
        case _ =>
          return;
      }
      state := tok.value.1;
      tok := NextToken(state, {'\n'});
    }
  }
}
