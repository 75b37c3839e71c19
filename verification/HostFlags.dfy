/** Reading the Host's own command line (internal/probe/config_path.go,
    hostFlags), as a loop and as the grammar of the lines it understands. */
module HostFlags {
  import opened Base
  import Text

  datatype FlagError = UnsupportedFlag | MissingValue | EmptyPath
  datatype Result<T> = Ok(value: T) | Err(error: FlagError)

  /** The path of the last config flag, or "", and whether the last home-jwt flag
      has a value. */
  datatype Flags = Flags(config: string, home: bool)

  const NOTHING := Flags("", false)

  /** The flags that take a value and those that do not. */
  datatype Table = Table(valued: set<string>, switches: set<string>)

  function Host(): Table {
    Table({"config", "home-jwt", "oauth-callback-port", "discover-timeout", "discover-service-type", "discover-include",
           "discover-exclude", "vertex-import", "vertex-import-prefix", "password"},
          {"codex-login", "codex-device-login", "claude-login", "no-browser", "antigravity-login", "kimi-login",
           "xai-login", "devin-login", "meta-login", "discover", "discover-json", "home-disable-cluster-discovery",
           "tui", "standalone", "local-model"})
  }

  /** Go's strings.Cut at the first equals sign. */
  function Cut(s: string): (r: (string, string, bool))
    ensures forall c <- r.0 :: c != '='
    ensures s == if r.2 then r.0 + "=" + r.1 else r.0
    ensures !r.2 ==> r.1 == ""
  {
    if s == "" then ("", "", false)
    else if s[0] == '=' then ("", s[1..], true)
    else
      var (key, value, found) := Cut(s[1..]);
      ([s[0]] + key, value, found)
  }

  function TrimDash(s: string): string {
    if s != "" && s[0] == '-' then s[1..] else s
  }

  /** An argument at which flag parsing stops. */
  predicate Ends(arg: string) {
    arg == "--" || arg == "-" || !Text.HasPrefix(arg, "-")
  }

  function Tail(args: seq<string>): seq<string> {
    if args == [] then [] else args[1..]
  }

  function Set(key: string, value: string, flags: Flags): Result<Flags> {
    if key == "home-jwt" then Ok(flags.(home := value != ""))
    else if key != "config" then Ok(flags)
    else if Text.TrimSpace(value) == "" then Err(EmptyPath)
    else Ok(flags.(config := value))
  }

  /** What the loop makes of the remaining arguments, given the flags so far. */
  function Read(t: Table, args: seq<string>, flags: Flags): Result<Flags>
    decreases |args|
  {
    if args == [] || Ends(args[0]) then Ok(flags)
    else
      var (key, inline, equals) := Cut(TrimDash(TrimDash(args[0])));
      if key in t.valued && !equals then
        if |args| < 2 then Err(MissingValue)
        else
          var next := Set(key, args[1], flags);
          if next.Ok? then Read(t, args[2..], next.value) else next
      else if key !in t.valued && key !in t.switches && !equals then Err(UnsupportedFlag)
      else
        var next := Set(key, inline, flags);
        if next.Ok? then Read(t, args[1..], next.value) else next
  }

  method HostFlags(args: seq<string>) returns (r: Result<Flags>)
    ensures r == Read(Host(), Tail(args), NOTHING)
  {
    r := ReadFlags(Host(), args);
  }

  method ReadFlags(t: Table, args: seq<string>) returns (r: Result<Flags>)
    ensures r == Read(t, Tail(args), NOTHING)
  {
    var config, home := "", false;
    var i := 1;
    while i < |args|
      invariant 1 <= i <= |args| || args == []
      invariant args != [] ==> Read(t, Tail(args), NOTHING) == Read(t, args[i..], Flags(config, home))
      invariant args == [] ==> config == "" && !home
      decreases |args| - i
    {
      var arg := args[i];
      if arg == "--" || arg == "-" || !Text.HasPrefix(arg, "-") {
        break;
      }
      var (key, value, equals) := Cut(TrimDash(TrimDash(arg)));
      var takesValue := key in t.valued;
      if !takesValue && key !in t.switches && !equals {
        return Err(UnsupportedFlag);
      }
      ghost var rest := args[i..];
      if takesValue && !equals {
        if i + 1 >= |args| {
          return Err(MissingValue);
        }
        i := i + 1;
        value := args[i];
        assert rest[1] == value && rest[2..] == args[i + 1..];
      } else {
        assert rest[1..] == args[i + 1..];
      }
      i := i + 1;
      if key != "config" && key != "home-jwt" {
        continue;
      }
      if key == "home-jwt" {
        home := value != "";
        continue;
      }
      if Text.TrimSpace(value) == "" {
        return Err(EmptyPath);
      }
      config := value;
    }
    return Ok(Flags(config, home));
  }

  // ---- The grammar -------------------------------------------------------

  /** One flag of a command line, with one dash or two. */
  datatype Flag =
    | Inline(two: bool, key: string, value: string)
    | Separate(two: bool, key: string, value: string)
    | Bare(two: bool, key: string)

  function Dashes(two: bool): string {
    if two then "--" else "-"
  }

  ghost predicate Proper(t: Table, f: Flag) {
    match f
    case Inline(two, key, _) => (forall c <- key :: c != '=') && (two || key == "" || key[0] != '-')
    case Separate(_, key, _) => key in t.valued
    case Bare(_, key) => key in t.switches && key !in t.valued
  }

  function Print(f: Flag): seq<string> {
    match f
    case Inline(two, key, value) => [Dashes(two) + key + "=" + value]
    case Separate(two, key, value) => [Dashes(two) + key, value]
    case Bare(two, key) => [Dashes(two) + key]
  }

  function PrintAll(flags: seq<Flag>): seq<string> {
    if flags == [] then [] else Print(flags[0]) + PrintAll(flags[1..])
  }

  ghost predicate AllProper(t: Table, flags: seq<Flag>) {
    forall f <- flags :: Proper(t, f)
  }

  /** Nothing follows the flags, or parsing stops there. */
  predicate Terminates(rest: seq<string>) {
    rest == [] || Ends(rest[0])
  }

  /** The value of the last flag with the key. */
  function Last(flags: seq<Flag>, key: string): Option<string> {
    if flags == [] then None
    else
      var f := flags[|flags| - 1];
      if !f.Bare? && f.key == key then Some(f.value) else Last(flags[..|flags| - 1], key)
  }

  predicate BlankPath(f: Flag) {
    !f.Bare? && f.key == "config" && Text.TrimSpace(f.value) == ""
  }

  /** What a list of flags means: the last config path and the last home-jwt
      value count, and no config path may be blank. */
  function Meaning(flags: seq<Flag>): Result<Flags> {
    if exists f <- flags :: BlankPath(f) then Err(EmptyPath)
    else
      var config, home := Last(flags, "config"), Last(flags, "home-jwt");
      Ok(Flags(if config.Some? then config.value else "", home.Some? && home.value != ""))
  }

  lemma {:induction false} CutJoined(key: string, value: string)
    requires forall c <- key :: c != '='
    ensures Cut(key + "=" + value) == (key, value, true)
  {
    if key == "" {
      assert key + "=" + value == "=" + value;
    } else {
      var s := key + "=" + value;
      assert s[0] == key[0] && s[1..] == key[1..] + "=" + value;
      assert key[0] in key;
      forall c | c in key[1..] ensures c != '=' {
        assert c in key;
      }
      CutJoined(key[1..], value);
      assert [key[0]] + key[1..] == key;
    }
  }

  lemma {:induction false} CutPlain(key: string)
    requires forall c <- key :: c != '='
    ensures Cut(key) == (key, "", false)
  {
    if key != "" {
      assert key[0] in key;
      forall c | c in key[1..] ensures c != '=' {
        assert c in key;
      }
      CutPlain(key[1..]);
    }
  }

  /** A key that the flag table lists. */
  predicate Plain(key: string) {
    key != "" && key[0] != '-' && forall c <- key :: c != '='
  }

  /** All keys are plain, and the two that matter take values. */
  ghost predicate Sound(t: Table) {
    && (forall key <- t.valued :: Plain(key))
    && (forall key <- t.switches :: Plain(key))
    && "config" in t.valued && "home-jwt" in t.valued
  }

  lemma HostValuesArePlain()
    ensures forall key <- Host().valued :: Plain(key)
  {
    assert Plain("config");
    assert Plain("home-jwt");
    assert Plain("oauth-callback-port");
    assert Plain("discover-timeout");
    assert Plain("discover-service-type");
    assert Plain("discover-include");
    assert Plain("discover-exclude");
    assert Plain("vertex-import");
    assert Plain("vertex-import-prefix");
    assert Plain("password");
  }

  lemma HostSwitchesArePlain()
    ensures forall key <- Host().switches :: Plain(key)
  {
    assert Plain("codex-login");
    assert Plain("codex-device-login");
    assert Plain("claude-login");
    assert Plain("no-browser");
    assert Plain("antigravity-login");
    assert Plain("kimi-login");
    assert Plain("xai-login");
    assert Plain("devin-login");
    assert Plain("meta-login");
    assert Plain("discover");
    assert Plain("discover-json");
    assert Plain("home-disable-cluster-discovery");
    assert Plain("tui");
    assert Plain("standalone");
    assert Plain("local-model");
  }

  lemma HostIsSound()
    ensures Sound(Host())
  {
    HostValuesArePlain();
    HostSwitchesArePlain();
  }

  lemma TrimDashes(two: bool, name: string)
    requires two || name == "" || name[0] != '-'
    ensures TrimDash(TrimDash(Dashes(two) + name)) == name
    ensures Text.HasPrefix(Dashes(two) + name, "-")
  {
    var arg := Dashes(two) + name;
    if two {
      assert TrimDash(arg) == "-" + name;
      assert TrimDash("-" + name) == name;
    } else {
      assert TrimDash(arg) == name;
    }
  }

  lemma NamedArgument(two: bool, name: string)
    requires name != "" && (name[0] != '-' || (two && |name| > 1))
    ensures !Ends(Dashes(two) + name)
  {
    TrimDashes(two, name);
    var arg := Dashes(two) + name;
    assert arg[|Dashes(two)|] == name[0];
    assert |arg| == |Dashes(two)| + |name|;
  }

  lemma InlineArgument(t: Table, two: bool, key: string, value: string)
    requires Proper(t, Inline(two, key, value))
    ensures var arg := Print(Inline(two, key, value))[0];
            !Ends(arg) && Cut(TrimDash(TrimDash(arg))) == (key, value, true)
  {
    var name := key + "=" + value;
    var arg := Print(Inline(two, key, value))[0];
    assert arg == Dashes(two) + name;
    assert name[0] == if key == "" then '=' else key[0];
    TrimDashes(two, name);
    CutJoined(key, value);
    assert name[|key|] == '=' && arg[|Dashes(two)| + |key|] == '=';
  }

  /** Reading one printed flag sets it and goes on with what follows. */
  lemma ReadPrinted(t: Table, f: Flag, rest: seq<string>, flags: Flags)
    requires Sound(t) && Proper(t, f)
    ensures var next := if f.Bare? then Ok(flags) else Set(f.key, f.value, flags);
            Read(t, Print(f) + rest, flags) == if next.Ok? then Read(t, rest, next.value) else next
  {
    var args := Print(f) + rest;
    assert args[0] == Print(f)[0];
    match f
    case Inline(two, key, value) =>
      InlineArgument(t, two, key, value);
      assert args[1..] == rest;
    case Separate(two, key, value) =>
      CutPlain(key);
      TrimDashes(two, key);
      NamedArgument(two, key);
      assert args[1] == value && args[2..] == rest;
    case Bare(two, key) =>
      CutPlain(key);
      TrimDashes(two, key);
      NamedArgument(two, key);
      assert args[1..] == rest;
  }

  lemma PrintOneMore(f: Flag, more: seq<Flag>, rest: seq<string>)
    ensures PrintAll([f] + more) + rest == Print(f) + (PrintAll(more) + rest)
  {
    assert ([f] + more)[1..] == more;
    assert PrintAll([f] + more) == Print(f) + PrintAll(more);
  }

  /** The meaning of flags that follow others. */
  function Continued(flags: seq<Flag>, before: Flags): Result<Flags> {
    if exists f <- flags :: BlankPath(f) then Err(EmptyPath)
    else
      var config, home := Last(flags, "config"), Last(flags, "home-jwt");
      Ok(Flags(if config.Some? then config.value else before.config,
               if home.Some? then home.value != "" else before.home))
  }

  lemma {:induction false} LastOfMore(f: Flag, flags: seq<Flag>, key: string)
    ensures Last([f] + flags, key)
         == if Last(flags, key).Some? then Last(flags, key)
            else if !f.Bare? && f.key == key then Some(f.value) else None
  {
    var all := [f] + flags;
    if flags == [] {
      assert all[..|all| - 1] == [];
    } else {
      assert all[..|all| - 1] == [f] + flags[..|flags| - 1];
      LastOfMore(f, flags[..|flags| - 1], key);
    }
  }

  lemma ContinuedStep(t: Table, f: Flag, flags: seq<Flag>, before: Flags)
    requires Sound(t) && Proper(t, f)
    ensures var next := if f.Bare? then Ok(before) else Set(f.key, f.value, before);
            Continued([f] + flags, before) == if next.Ok? then Continued(flags, next.value) else next
  {
    var all := [f] + flags;
    LastOfMore(f, flags, "config");
    LastOfMore(f, flags, "home-jwt");
    assert f in all;
    assert forall g <- flags :: g in all;
    if BlankPath(f) {
      assert exists g <- all :: BlankPath(g);
    } else {
      assert (exists g <- all :: BlankPath(g)) <==> (exists g <- flags :: BlankPath(g));
    }
  }

  lemma {:induction false} ReadContinues(t: Table, flags: seq<Flag>, rest: seq<string>, before: Flags)
    requires Sound(t) && AllProper(t, flags) && Terminates(rest)
    ensures Read(t, PrintAll(flags) + rest, before) == Continued(flags, before)
    decreases |flags|
  {
    if flags == [] {
      assert PrintAll(flags) + rest == rest;
    } else {
      var f, more := flags[0], flags[1..];
      assert f in flags && flags == [f] + more;
      forall g | g in more ensures Proper(t, g) {
        assert g in flags;
      }
      PrintOneMore(f, more, rest);
      ReadPrinted(t, f, PrintAll(more) + rest, before);
      ContinuedStep(t, f, more, before);
      var next := if f.Bare? then Ok(before) else Set(f.key, f.value, before);
      if next.Ok? {
        ReadContinues(t, more, rest, next.value);
      }
    }
  }

  /** Printed flags read back as what they mean, whatever follows them once
      parsing has stopped. */
  lemma RoundTrip(t: Table, program: string, flags: seq<Flag>, rest: seq<string>)
    requires Sound(t) && AllProper(t, flags) && Terminates(rest)
    ensures Read(t, Tail([program] + PrintAll(flags) + rest), NOTHING) == Meaning(flags)
  {
    assert Tail([program] + PrintAll(flags) + rest) == PrintAll(flags) + rest;
    ReadContinues(t, flags, rest, NOTHING);
  }

  /** Whatever reads successfully is a list of flags, printed, up to the end of
      the arguments or a terminator; so the grammar is exactly what is read. */
  lemma {:induction false} ReadsOnlyFlags(t: Table, args: seq<string>, before: Flags)
    returns (flags: seq<Flag>, rest: seq<string>)
    requires Sound(t) && Read(t, args, before).Ok?
    ensures args == PrintAll(flags) + rest && AllProper(t, flags) && Terminates(rest)
    ensures Continued(flags, before) == Read(t, args, before)
    decreases |args|
  {
    if args == [] || Ends(args[0]) {
      flags, rest := [], args;
    } else {
      var f := FirstFlag(t, args);
      var after := args[|Print(f)|..];
      assert args == Print(f) + after;
      ReadPrinted(t, f, after, before);
      var next := if f.Bare? then Ok(before) else Set(f.key, f.value, before);
      var more;
      more, rest := ReadsOnlyFlags(t, after, next.value);
      flags := [f] + more;
      ContinuedStep(t, f, more, before);
      PrintOneMore(f, more, rest);
    }
  }

  lemma Undash(arg: string) returns (two: bool)
    requires !Ends(arg)
    ensures arg == Dashes(two) + TrimDash(TrimDash(arg))
    ensures two || TrimDash(TrimDash(arg)) == "" || TrimDash(TrimDash(arg))[0] != '-'
  {
    two := |arg| > 1 && arg[1] == '-';
    assert arg[0] == '-';
  }

  /** An argument with an equals sign is the print of an inline flag. */
  lemma InlineRead(t: Table, arg: string) returns (f: Flag)
    requires !Ends(arg) && Cut(TrimDash(TrimDash(arg))).2
    ensures Proper(t, f) && Print(f) == [arg]
  {
    var two := Undash(arg);
    var name := TrimDash(TrimDash(arg));
    var (key, value, _) := Cut(name);
    f := Inline(two, key, value);
    InlinePrints(two, key, value, name, arg);
  }

  lemma InlinePrints(two: bool, key: string, value: string, name: string, arg: string)
    requires name == key + "=" + value && arg == Dashes(two) + name && (two || name == "" || name[0] != '-')
    ensures Dashes(two) + key + "=" + value == arg && (two || key == "" || key[0] != '-')
  {
    assert key != "" ==> name[0] == key[0];
    assert Dashes(two) + key + "=" + value == Dashes(two) + (key + "=" + value);
  }

  /** Any other flag argument is the dashes and the key. */
  lemma PlainRead(arg: string) returns (two: bool, key: string)
    requires !Ends(arg) && !Cut(TrimDash(TrimDash(arg))).2
    ensures key == Cut(TrimDash(TrimDash(arg))).0 && arg == Dashes(two) + key
  {
    two := Undash(arg);
    key := TrimDash(TrimDash(arg));
  }

  /** The flag that the first argument, and perhaps the second, is the print of. */
  lemma FirstFlag(t: Table, args: seq<string>) returns (f: Flag)
    requires args != [] && !Ends(args[0])
    requires var (key, _, equals) := Cut(TrimDash(TrimDash(args[0])));
             if key in t.valued then equals || |args| > 1 else equals || key in t.switches
    ensures Proper(t, f) && |Print(f)| <= |args| && Print(f) == args[..|Print(f)|]
  {
    if Cut(TrimDash(TrimDash(args[0]))).2 {
      f := InlineRead(t, args[0]);
    } else {
      var two, key := PlainRead(args[0]);
      f := if key in t.valued then Separate(two, key, args[1]) else Bare(two, key);
    }
  }

  /** A pair of dashes that a flag consumes as its value does not end the flags. */
  lemma DashesAsValue(t: Table, program: string, key: string, flags: seq<Flag>, rest: seq<string>)
    requires Sound(t) && key in t.valued && key != "config" && key != "home-jwt"
             && AllProper(t, flags) && Terminates(rest)
    ensures Read(t, Tail([program, "-" + key, "--"] + PrintAll(flags) + rest), NOTHING) == Meaning(flags)
  {
    var f := Separate(false, key, "--");
    var all := [f] + flags;
    assert all[1..] == flags;
    assert [program, "-" + key, "--"] + PrintAll(flags) + rest == [program] + PrintAll(all) + rest;
    RoundTrip(t, program, all, rest);
    ContinuedStep(t, f, flags, NOTHING);
  }
}
