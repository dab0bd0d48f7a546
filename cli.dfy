/** The command-line entry point (src/CLI/Program.cs): an argument scan for
    the headless flag and the macro path, then the exit-code decisions.
    Reading the macro file, deserializing it and running it is an input,
    `loadAndRun`, that says how that step ends for a given path. */
module Cli {
  import opened Wrappers

  const HeadlessFlag: string := "--headless"

  /** How reading, deserializing and running the macro at a path ends. */
  datatype MacroStep =
    | Threw        // File.ReadAllText, the deserializer or the executor threw
    | ParsedNull   // the deserializer returned null
    | Completed    // the macro ran to the end

  /** The first argument that is not the headless flag. */
  function FirstNonFlag(args: seq<string>): Option<string>
    decreases |args|
  {
    if args == [] then None
    else if args[0] == HeadlessFlag then FirstNonFlag(args[1..])
    else Some(args[0])
  }

  /** FirstNonFlag picks the argument at the first index holding something
      other than the flag, and finds nothing exactly when every argument is
      the flag. */
  lemma {:induction false} FirstNonFlagIsFirst(args: seq<string>)
    ensures FirstNonFlag(args).None? <==> forall i | 0 <= i < |args| :: args[i] == HeadlessFlag
    ensures FirstNonFlag(args).Some? ==>
              exists k | 0 <= k < |args| ::
                args[k] == FirstNonFlag(args).value && args[k] != HeadlessFlag &&
                forall j | 0 <= j < k :: args[j] == HeadlessFlag
    decreases |args|
  {
    if args != [] && args[0] == HeadlessFlag {
      FirstNonFlagIsFirst(args[1..]);
      if FirstNonFlag(args).Some? {
        var k :| 0 <= k < |args[1..]| && args[1..][k] == FirstNonFlag(args).value &&
                 args[1..][k] != HeadlessFlag && forall j | 0 <= j < k :: args[1..][j] == HeadlessFlag;
        assert args[k + 1] == args[1..][k];
        assert forall j | 1 <= j < k + 1 :: args[j] == args[1..][j - 1];
      }
      forall i | 1 <= i < |args|
        ensures args[i] == args[1..][i - 1]
      {
      }
    } else if args != [] {
      assert args[0] != HeadlessFlag;
    }
  }

  /** Scanning one more argument: the path, once found, stays. */
  lemma {:induction false} FirstNonFlagAppend(args: seq<string>, a: string)
    ensures FirstNonFlag(args + [a]) ==
            if FirstNonFlag(args).Some? then FirstNonFlag(args)
            else if a == HeadlessFlag then None else Some(a)
    decreases |args|
  {
    if args != [] {
      assert (args + [a])[1..] == args[1..] + [a];
      FirstNonFlagAppend(args[1..], a);
    } else {
      assert [] + [a] == [a];
      assert [a][1..] == [];
    }
  }

  /** The `foreach` of Main: `headless` is set by any occurrence of the flag
      and `macroPath` is the first other argument; later ones are ignored. */
  method ScanArgs(args: seq<string>) returns (headless: bool, macroPath: Option<string>)
    ensures headless <==> HeadlessFlag in args
    ensures macroPath == FirstNonFlag(args)
  {
    headless := false;
    macroPath := None;
    var i := 0;
    while i < |args|
      invariant 0 <= i <= |args|
      invariant headless <==> HeadlessFlag in args[..i]
      invariant macroPath == FirstNonFlag(args[..i])
    {
      var arg := args[i];
      FirstNonFlagAppend(args[..i], arg);
      assert args[..i + 1] == args[..i] + [arg];
      if arg == HeadlessFlag {
        headless := true;
      } else if macroPath == None {
        macroPath := Some(arg);
      }
      i := i + 1;
    }
    assert args[..i] == args;
  }

  /** Main: 0 without the headless flag whatever else is given; 1 when
      headless and no path was given; otherwise 0 exactly when the macro at
      the first path loaded and ran. */
  method Run(args: seq<string>, loadAndRun: string -> MacroStep) returns (exitCode: int)
    ensures HeadlessFlag !in args ==> exitCode == 0
    ensures HeadlessFlag in args && FirstNonFlag(args).None? ==> exitCode == 1
    ensures HeadlessFlag in args && FirstNonFlag(args).Some? ==>
              exitCode == (if loadAndRun(FirstNonFlag(args).value) == Completed then 0 else 1)
  {
    var headless, macroPath := ScanArgs(args);
    if !headless {
      return 0;
    }
    if macroPath == None {
      return 1;
    }
    match loadAndRun(macroPath.value)
    case Threw => exitCode := 1;
    case ParsedNull => exitCode := 1;
    case Completed => exitCode := 0;
  }
}
