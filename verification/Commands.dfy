/** How a worker turns a module command and its arguments into a process. */
module Commands {

  predicate NoSpace(s: string) {
    ' ' !in s
  }

  predicate SpaceFree(parts: seq<string>) {
    forall p | p in parts :: NoSpace(p)
  }

  /** strings.Join(parts, " ") */
  function Join(parts: seq<string>): string
    requires parts != []
  {
    if |parts| == 1 then parts[0] else parts[0] + " " + Join(parts[1..])
  }

  function FirstSpace(s: string): (i: nat)
    requires !NoSpace(s)
    ensures i < |s| && s[i] == ' ' && NoSpace(s[..i])
  {
    if s[0] == ' ' then 0
    else
      var i := FirstSpace(s[1..]) + 1;
      assert s[..i] == [s[0]] + s[1..][..i - 1];
      i
  }

  /** strings.Split(s, " "): never empty, also for the empty string. */
  function Split(s: string): (parts: seq<string>)
    ensures parts != [] && SpaceFree(parts)
    decreases |s|
  {
    if NoSpace(s) then [s] else [s[..FirstSpace(s)]] + Split(s[FirstSpace(s) + 1..])
  }

  lemma JoinFirst(first: string, rest: seq<string>)
    requires rest != []
    ensures Join([first] + rest) == first + " " + Join(rest)
  {
    assert ([first] + rest)[1..] == rest;
  }

  lemma {:induction false} JoinSplit(s: string)
    ensures Join(Split(s)) == s
    decreases |s|
  {
    if !NoSpace(s) {
      var i := FirstSpace(s);
      JoinSplit(s[i + 1..]);
      JoinFirst(s[..i], Split(s[i + 1..]));
      assert s == s[..i] + " " + s[i + 1..];
    }
  }

  lemma SplitFirst(first: string, rest: string)
    requires NoSpace(first)
    ensures Split(first + " " + rest) == [first] + Split(rest)
  {
    var s, i := first + " " + rest, |first|;
    assert s[i] == ' ' && forall x | 0 <= x < i :: s[x] == first[x];
    var j := FirstSpace(s);
    assert forall x | 0 <= x < j :: s[x] == s[..j][x];
    assert i == j;
    assert s[..i] == first && s[i + 1..] == rest;
  }

  /** Splitting is the only way to write a string as space-free parts. */
  lemma {:induction false} SplitJoin(parts: seq<string>)
    requires parts != [] && SpaceFree(parts)
    ensures Split(Join(parts)) == parts
  {
    if |parts| > 1 {
      SplitJoin(parts[1..]);
      SplitFirst(parts[0], Join(parts[1..]));
      assert parts == [parts[0]] + parts[1..];
    }
  }

  /** createInsecureCommand hands this text to a shell. */
  function InsecureText(command: string, arguments: string): string {
    command + " " + arguments
  }

  /** createSecureCommand runs program with args and no shell.  Both say the same text, except that the
      insecure form starts with a space when the module has no command of its own. */
  method CreateSecureCommand(command: string, arguments: string) returns (program: string, args: seq<string>)
    ensures NoSpace(program)
    ensures Join([program] + args)
         == if command == "" && arguments != "" then InsecureText(command, arguments)[1..]
            else InsecureText(command, arguments)
    ensures if NoSpace(command) then SpaceFree(args)
            else |args| > 1 && SpaceFree(args[1..]) && program + " " + args[0] == command
  {
    program := command;
    args := Split(arguments);
    JoinSplit(arguments);
    if program == "" && |arguments| > 0 {
      assert args == [args[0]] + args[1..];
      program := args[0];
      args := args[1..];
    }
    if ' ' in program {
      var i := FirstSpace(program);
      assert program == program[..i] + " " + program[i + 1..];
      JoinFirst(program[i + 1..], args);
      JoinFirst(program[..i], [program[i + 1..]] + args);
      args := [program[i + 1..]] + args;
      program := program[..i];
      assert args[1..] == Split(arguments);
    } else if command != "" || arguments == "" {
      JoinFirst(program, args);
    }
  }

  /** For a module whose command has no space the process is determined by the insecure text alone. */
  lemma ArgvDetermined(command: string, arguments: string, argv: seq<string>)
    requires NoSpace(command) && argv != [] && SpaceFree(argv)
    requires Join(argv) == if command == "" && arguments != "" then arguments else InsecureText(command, arguments)
    ensures argv == if command == "" && arguments != "" then Split(arguments) else [command] + Split(arguments)
  {
    SplitJoin(argv);
    if command != "" || arguments == "" {
      JoinSplit(arguments);
      JoinFirst(command, Split(arguments));
      SplitJoin([command] + Split(arguments));
    }
  }
}
