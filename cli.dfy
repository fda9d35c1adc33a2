/**
 * The argument loop at the top of ELComparisons.main (lines 80-95) and the
 * mode flags it composes (line 97).  Integer.parseInt is a parameter that
 * gives None where it would throw NumberFormatException.
 */
module Cli {
  import opened Wrappers
  import opened Flags

  /** The locals main sets from its arguments, with their initial values as Defaults. */
  datatype Options = Options(multithreaded: bool, threadMax: int, compiled: bool, interpreted: bool,
                             continuous: bool, silent: bool)

  const Defaults := Options(false, 1, true, true, false, false)

  /** Why main ends with an exception. */
  datatype Failure =
    | MissingThreadCount        // `-threaded` as the last argument (line 83)
    | BadThreadCount(arg: string) // Integer.parseInt refuses the argument after `-threaded`
    | DivisionByZero            // the ratio of line 151 with ognlTotals == 0

  /** The loop of lines 80-92 from index i on, with the options so far in `acc`. */
  function ParseFrom(args: seq<string>, i: nat, acc: Options, parseInt: string -> Option<int>): Result<Options, Failure>
    decreases |args| - i
  {
    if i >= |args| then Ok(acc)
    else if args[i] == "-continuous" then ParseFrom(args, i + 1, acc.(continuous := true), parseInt)
    else if args[i] == "-threaded" then
      if i + 1 == |args| then Err(MissingThreadCount)
      else match parseInt(args[i + 1])
        case None => Err(BadThreadCount(args[i + 1]))
        case Some(n) => ParseFrom(args, i + 2, acc.(multithreaded := true, threadMax := n), parseInt)
    else if args[i] == "-nocompiled" then ParseFrom(args, i + 1, acc.(compiled := false), parseInt)
    else if args[i] == "-nointerpret" then ParseFrom(args, i + 1, acc.(interpreted := false), parseInt)
    else if args[i] == "-silent" then ParseFrom(args, i + 1, acc.(silent := true), parseInt)
    else ParseFrom(args, i + 1, acc, parseInt)
  }

  function ParseSpec(args: seq<string>, parseInt: string -> Option<int>): Result<Options, Failure>
  {
    ParseFrom(args, 0, Defaults, parseInt)
  }

  /** The argument loop as main runs it, index by index. */
  method ParseArgs(args: seq<string>, parseInt: string -> Option<int>) returns (r: Result<Options, Failure>)
    ensures r == ParseSpec(args, parseInt)
  {
    var opts := Defaults;
    var i := 0;
    while i < |args|
      invariant i <= |args|
      invariant ParseFrom(args, i, opts, parseInt) == ParseSpec(args, parseInt)
    {
      if args[i] == "-continuous" {
        opts := opts.(continuous := true);
      } else if args[i] == "-threaded" {
        if i + 1 == |args| {
          return Err(MissingThreadCount);
        }
        opts := opts.(multithreaded := true);
        i := i + 1;
        var n := parseInt(args[i]);
        if n.None? {
          return Err(BadThreadCount(args[i]));
        }
        opts := opts.(threadMax := n.value);
      } else if args[i] == "-nocompiled" {
        opts := opts.(compiled := false);
      } else if args[i] == "-nointerpret" {
        opts := opts.(interpreted := false);
      } else if args[i] == "-silent" {
        opts := opts.(silent := true);
      }
      i := i + 1;
    }
    return Ok(opts);
  }

  /** The flags main composes from the options (line 97). */
  function ModeOf(o: Options): bv32
  {
    ModeFlags(o.compiled, o.interpreted)
  }

  /** What one argument other than `-threaded` does to the options. */
  function Switch(arg: string, acc: Options): Options
  {
    if arg == "-continuous" then acc.(continuous := true)
    else if arg == "-nocompiled" then acc.(compiled := false)
    else if arg == "-nointerpret" then acc.(interpreted := false)
    else if arg == "-silent" then acc.(silent := true)
    else acc
  }

  lemma SwitchStep(args: seq<string>, i: nat, acc: Options, parseInt: string -> Option<int>)
    requires i < |args| && args[i] != "-threaded"
    ensures ParseFrom(args, i, acc, parseInt) == ParseFrom(args, i + 1, Switch(args[i], acc), parseInt)
  {
  }

  /** The switches of `rest` applied to `acc` in order. */
  function Applied(rest: seq<string>, acc: Options): Options
  {
    if rest == [] then acc else Applied(rest[1..], Switch(rest[0], acc))
  }

  /** Without `-threaded`, parsing cannot fail: it applies each switch in turn. */
  lemma {:induction false} ParsesAsSwitches(args: seq<string>, i: nat, acc: Options, parseInt: string -> Option<int>)
    requires i <= |args| && "-threaded" !in args[i..]
    ensures ParseFrom(args, i, acc, parseInt) == Ok(Applied(args[i..], acc))
    decreases |args| - i
  {
    if i < |args| {
      assert args[i] == args[i..][0] && args[i + 1..] == args[i..][1..];
      SwitchStep(args, i, acc, parseInt);
      ParsesAsSwitches(args, i + 1, Switch(args[i], acc), parseInt);
    }
  }

  /**
   * Each option is set exactly when its switch appears: the switches are
   * independent and order does not matter.
   */
  lemma {:induction false} SwitchesApplied(rest: seq<string>, acc: Options)
    requires "-threaded" !in rest
    ensures var r := Applied(rest, acc);
      && r.multithreaded == acc.multithreaded
      && r.threadMax == acc.threadMax
      && (r.compiled <==> acc.compiled && "-nocompiled" !in rest)
      && (r.interpreted <==> acc.interpreted && "-nointerpret" !in rest)
      && (r.silent <==> acc.silent || "-silent" in rest)
      && (r.continuous <==> acc.continuous || "-continuous" in rest)
  {
    if rest != [] {
      var arg, tail := rest[0], rest[1..];
      assert rest == [arg] + tail;
      assert forall key :: key in rest <==> key == arg || key in tail;
      SwitchEffect(arg, acc);
      SwitchesApplied(tail, Switch(arg, acc));
    }
  }

  lemma SwitchEffect(arg: string, acc: Options)
    ensures var r := Switch(arg, acc);
      && r.multithreaded == acc.multithreaded
      && r.threadMax == acc.threadMax
      && (r.compiled <==> acc.compiled && arg != "-nocompiled")
      && (r.interpreted <==> acc.interpreted && arg != "-nointerpret")
      && (r.silent <==> acc.silent || arg == "-silent")
      && (r.continuous <==> acc.continuous || arg == "-continuous")
  {
    if arg == "-continuous" {
      assert arg[1] == 'c' && |arg| == 11;
    } else if arg == "-nocompiled" {
      assert arg[3] == 'c' && |arg| == 11;
    } else if arg == "-nointerpret" {
      assert |arg| == 12;
    } else if arg == "-silent" {
      assert |arg| == 7;
    }
  }

  /** main without `-threaded`: the defaults with each switch present applied, and no sweep. */
  lemma NoThreadedOptions(args: seq<string>, parseInt: string -> Option<int>)
    requires "-threaded" !in args
    ensures var r := ParseSpec(args, parseInt);
      && r.Ok? && !r.value.multithreaded && r.value.threadMax == 1
      && (r.value.compiled <==> "-nocompiled" !in args)
      && (r.value.interpreted <==> "-nointerpret" !in args)
      && (r.value.silent <==> "-silent" in args)
      && (r.value.continuous <==> "-continuous" in args)
  {
    assert args[0..] == args;
    ParsesAsSwitches(args, 0, Defaults, parseInt);
    SwitchesApplied(args, Defaults);
  }

  /**
   * Whatever else the arguments hold, a successful parse leaves COMPILED set
   * when `-nocompiled` is absent and INTERPRETED set when `-nointerpret` is absent.
   */
  lemma {:induction false} ModesKeptUnlessSwitchedOff(args: seq<string>, i: nat, acc: Options, parseInt: string -> Option<int>)
    requires i <= |args|
    ensures var r := ParseFrom(args, i, acc, parseInt);
      r.Ok? ==>
        && (acc.compiled && "-nocompiled" !in args[i..] ==> r.value.compiled)
        && (acc.interpreted && "-nointerpret" !in args[i..] ==> r.value.interpreted)
    decreases |args| - i
  {
    if i < |args| {
      assert args[i..] == [args[i]] + args[i + 1..];
      if args[i] == "-threaded" {
        if i + 1 < |args| && parseInt(args[i + 1]).Some? {
          assert args[i + 1..] == [args[i + 1]] + args[i + 2..];
          ModesKeptUnlessSwitchedOff(args, i + 2, acc.(multithreaded := true, threadMax := parseInt(args[i + 1]).value), parseInt);
        }
      } else {
        var next := Switch(args[i], acc);
        SwitchStep(args, i, acc, parseInt);
        SwitchEffect(args[i], acc);
        ModesKeptUnlessSwitchedOff(args, i + 1, next, parseInt);
      }
    }
  }

  lemma ModesKept(args: seq<string>, parseInt: string -> Option<int>)
    ensures var r := ParseSpec(args, parseInt);
      r.Ok? ==>
        && ("-nocompiled" !in args ==> Has(ModeOf(r.value), COMPILED))
        && ("-nointerpret" !in args ==> Has(ModeOf(r.value), INTERPRETED))
  {
    ModesKeptUnlessSwitchedOff(args, 0, Defaults, parseInt);
    assert args[0..] == args;
    var r := ParseSpec(args, parseInt);
    if r.Ok? {
      ComposedFlags(r.value.compiled, r.value.interpreted, RUN_OGNL);
      ComposedFlags(r.value.compiled, r.value.interpreted, RUN_MVEL);
    }
  }

  /** `-threaded` as the last argument, reached as a switch, is the exception of line 84. */
  lemma {:induction false} ThreadedLastFails(args: seq<string>, i: nat, acc: Options, parseInt: string -> Option<int>)
    requires |args| > 0 && args[|args| - 1] == "-threaded"
    requires i < |args| && "-threaded" !in args[i..|args| - 1]
    ensures ParseFrom(args, i, acc, parseInt) == Err(MissingThreadCount)
    decreases |args| - i
  {
    if i < |args| - 1 {
      assert args[i] in args[i..|args| - 1];
      assert args[i + 1..|args| - 1] <= args[i..|args| - 1][1..];
      var next := Switch(args[i], acc);
      SwitchStep(args, i, acc, parseInt);
      ThreadedLastFails(args, i + 1, next, parseInt);
    }
  }

  /**
   * Any argument list ending in `-threaded` makes the loop throw before it
   * ends: either line 84 fires at the last argument, or an earlier
   * `-threaded` hands Integer.parseInt an argument it refuses.  The one
   * argument such an earlier `-threaded` could swallow at the end is
   * `-threaded` itself, which Integer.parseInt refuses.
   */
  lemma {:induction false} ThreadedLastThrows(args: seq<string>, i: nat, acc: Options, parseInt: string -> Option<int>)
    requires |args| > 0 && args[|args| - 1] == "-threaded" && parseInt("-threaded").None?
    requires i < |args|
    ensures var r := ParseFrom(args, i, acc, parseInt);
      r.Err? && (r.error.MissingThreadCount? || r.error.BadThreadCount?)
    decreases |args| - i
  {
    if args[i] == "-threaded" {
      if i + 1 < |args| && parseInt(args[i + 1]).Some? {
        ThreadedLastThrows(args, i + 2, acc.(multithreaded := true, threadMax := parseInt(args[i + 1]).value), parseInt);
      }
    } else if i + 1 < |args| {
      SwitchStep(args, i, acc, parseInt);
      ThreadedLastThrows(args, i + 1, Switch(args[i], acc), parseInt);
    }
  }

  /**
   * `-threaded` as the last argument: main throws before any work, and it is
   * the exception of line 84 when no earlier `-threaded` is reached.
   */
  lemma MissingThreadCountFails(args: seq<string>, parseInt: string -> Option<int>)
    requires |args| > 0 && args[|args| - 1] == "-threaded" && parseInt("-threaded").None?
    ensures var r := ParseSpec(args, parseInt);
      r.Err? && (r.error.MissingThreadCount? || r.error.BadThreadCount?)
    ensures "-threaded" !in args[..|args| - 1] ==> ParseSpec(args, parseInt) == Err(MissingThreadCount)
  {
    ThreadedLastThrows(args, 0, Defaults, parseInt);
    if "-threaded" !in args[..|args| - 1] {
      assert args[0..|args| - 1] == args[..|args| - 1];
      ThreadedLastFails(args, 0, Defaults, parseInt);
    }
  }
}
