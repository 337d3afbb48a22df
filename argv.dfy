/**
 * Command-line scanning shared by the chat tool and the server: both walk the
 * arguments once, let each value-taking option consume the next argument (the
 * last occurrence wins), stop with exit code 0 on `--help`/`-h`, and stop with
 * exit code 1 on anything else. Also the model-name default, the stem of the
 * model path.
 */
module Argv {
  import opened Wrappers

  /** The result of the scan: the value of each option given, a help request, or an unknown argument. */
  datatype Scan = Options(values: map<string, string>) | Help | Unknown(arg: string)

  /** How a binary's `main` goes on: run with a configuration, or exit with a code. */
  datatype Launch<C> = Start(config: C) | Exit(code: int)

  predicate IsHelp(arg: string) {
    arg == "--help" || arg == "-h"
  }

  /** The scan from argument `i` on, with the options seen so far in `values`. */
  function ScanFrom(valueOptions: set<string>, args: seq<string>, i: nat, values: map<string, string>): Scan
    requires i <= |args|
    decreases |args| - i
  {
    if i == |args| then Options(values)
    else if args[i] in valueOptions && i + 1 < |args| then
      ScanFrom(valueOptions, args, i + 2, values[args[i] := args[i + 1]])
    else if IsHelp(args[i]) then Help
    else Unknown(args[i])
  }

  /** The value of an option, "" when it was not given (`main`'s empty-string default). */
  function ValueOf(values: map<string, string>, option: string): string {
    if option in values then values[option] else ""
  }

  /**
   * The argument loop of both `main` functions (`args` is argv without the
   * program name).
   */
  method ScanArgs(valueOptions: set<string>, args: seq<string>) returns (r: Scan)
    ensures r == ScanFrom(valueOptions, args, 0, map[])
  {
    var values: map<string, string> := map[];
    var i := 0;
    while i < |args|
      invariant i <= |args|
      invariant ScanFrom(valueOptions, args, 0, map[]) == ScanFrom(valueOptions, args, i, values)
      decreases |args| - i
    {
      var arg := args[i];
      if arg in valueOptions && i + 1 < |args| {
        i := i + 1;
        values := values[arg := args[i]];
      } else if IsHelp(arg) {
        return Help;
      } else {
        return Unknown(arg);
      }
      i := i + 1;
    }
    return Options(values);
  }

  /** Arguments from `i` on are option/value pairs. */
  predicate PairsFrom(valueOptions: set<string>, args: seq<string>, i: nat)
    requires i <= |args|
  {
    (|args| - i) % 2 == 0 && forall p :: i <= p < |args| && (p - i) % 2 == 0 ==> args[p] in valueOptions
  }

  /** The scan yields options exactly when the arguments are option/value pairs. */
  lemma {:induction false} OptionsIffPairs(valueOptions: set<string>, args: seq<string>, i: nat, values: map<string, string>)
    requires i <= |args|
    ensures ScanFrom(valueOptions, args, i, values).Options? <==> PairsFrom(valueOptions, args, i)
    decreases |args| - i
  {
    if i < |args| {
      if args[i] in valueOptions && i + 1 < |args| {
        OptionsIffPairs(valueOptions, args, i + 2, values[args[i] := args[i + 1]]);
        if PairsFrom(valueOptions, args, i + 2) {
          forall p | i <= p < |args| && (p - i) % 2 == 0
            ensures args[p] in valueOptions
          {
            if p > i {
              assert (p - (i + 2)) % 2 == 0;
            }
          }
        }
        if PairsFrom(valueOptions, args, i) {
          forall p | i + 2 <= p < |args| && (p - (i + 2)) % 2 == 0
            ensures args[p] in valueOptions
          {
            assert (p - i) % 2 == 0;
          }
        }
      } else {
        assert !PairsFrom(valueOptions, args, i) by {
          if args[i] !in valueOptions {
            assert (i - i) % 2 == 0;
          }
        }
      }
    }
  }

  /** Option `option` is followed by `value` at position `p`. */
  predicate GivenAt(args: seq<string>, p: nat, option: string, value: string) {
    p + 1 < |args| && args[p] == option && args[p + 1] == value
  }

  /**
   * Every value the scan reports was given on the command line after its option
   * (or was already known); an option never given has no value.
   */
  lemma {:induction false} ValuesComeFromArgs(valueOptions: set<string>, args: seq<string>, i: nat, values: map<string, string>, option: string)
    requires i <= |args|
    requires ScanFrom(valueOptions, args, i, values).Options?
    ensures var found := ScanFrom(valueOptions, args, i, values).values;
      option in found ==>
        (option in values && found[option] == values[option])
        || (option in valueOptions && exists p :: i <= p && GivenAt(args, p, option, found[option]))
    decreases |args| - i
  {
    if i < |args| {
      var next := values[args[i] := args[i + 1]];
      ValuesComeFromArgs(valueOptions, args, i + 2, next, option);
      var found := ScanFrom(valueOptions, args, i, values).values;
      if option in found && option in next && found[option] == next[option] && option == args[i] {
        assert GivenAt(args, i, option, found[option]);
      }
    }
  }

  /**
   * Once an option has a value, the rest of the scan keeps it as long as no
   * later pair position names that option again.
   */
  lemma {:induction false} LaterPairsKeep(valueOptions: set<string>, args: seq<string>, i: nat, values: map<string, string>, option: string)
    requires i <= |args| && option in values
    requires ScanFrom(valueOptions, args, i, values).Options?
    requires forall q :: i <= q < |args| && (q - i) % 2 == 0 ==> args[q] != option
    ensures var found := ScanFrom(valueOptions, args, i, values).values;
      option in found && found[option] == values[option]
    decreases |args| - i
  {
    if i < |args| {
      forall q | i + 2 <= q < |args| && (q - (i + 2)) % 2 == 0
        ensures args[q] != option
      {
        assert (q - i) % 2 == 0;
      }
      assert (i - i) % 2 == 0;
      LaterPairsKeep(valueOptions, args, i + 2, values[args[i] := args[i + 1]], option);
    }
  }

  /**
   * The last occurrence of an option wins: when the scan yields options and the
   * option's last pair position is `p`, its value is the argument after `p`.
   */
  lemma {:induction false} LastOccurrenceWins(valueOptions: set<string>, args: seq<string>, i: nat, values: map<string, string>, option: string, p: nat)
    requires i <= p && (p - i) % 2 == 0 && p + 1 < |args| && args[p] == option
    requires ScanFrom(valueOptions, args, i, values).Options?
    requires forall q :: p < q < |args| && (q - i) % 2 == 0 ==> args[q] != option
    ensures ValueOf(ScanFrom(valueOptions, args, i, values).values, option) == args[p + 1]
    decreases |args| - i
  {
    var next := values[args[i] := args[i + 1]];
    if i == p {
      forall q | i + 2 <= q < |args| && (q - (i + 2)) % 2 == 0
        ensures args[q] != option
      {
        assert (q - i) % 2 == 0;
      }
      LaterPairsKeep(valueOptions, args, i + 2, next, option);
    } else {
      forall q | p < q < |args| && (q - (i + 2)) % 2 == 0
        ensures args[q] != option
      {
        assert (q - i) % 2 == 0;
      }
      assert (p - (i + 2)) % 2 == 0;
      LastOccurrenceWins(valueOptions, args, i + 2, next, option, p);
    }
  }

  /**
   * Where the scan from `i` stops: the first pair position that does not hold
   * a value-taking option followed by its value, or the end of the arguments.
   */
  function BreakAt(valueOptions: set<string>, args: seq<string>, i: nat): (b: nat)
    requires i <= |args|
    ensures i <= b <= |args|
    decreases |args| - i
  {
    if i < |args| && args[i] in valueOptions && i + 1 < |args| then BreakAt(valueOptions, args, i + 2) else i
  }

  /**
   * The scan yields options exactly when it runs to the end; otherwise the
   * argument where it stops decides: help there gives help, anything else is
   * reported as unknown. A help argument that is an option's value is not help.
   */
  lemma {:induction false} ScanStopsAtBreak(valueOptions: set<string>, args: seq<string>, i: nat, values: map<string, string>)
    requires i <= |args|
    ensures var b := BreakAt(valueOptions, args, i); var scan := ScanFrom(valueOptions, args, i, values);
      && (scan.Options? <==> b == |args|)
      && (scan.Help? <==> b < |args| && IsHelp(args[b]))
      && (scan.Unknown? <==> b < |args| && !IsHelp(args[b]))
      && (scan.Unknown? ==> scan.arg == args[b])
    decreases |args| - i
  {
    if i < |args| && args[i] in valueOptions && i + 1 < |args| {
      ScanStopsAtBreak(valueOptions, args, i + 2, values[args[i] := args[i + 1]]);
    }
  }

  // ---------------------------------------------------------------------------
  // The model-name default: `std::filesystem::path(p).stem()`

  /** Position of the last `c` in `s`. */
  function LastIndexOf(s: string, c: char): (r: Option<nat>)
    ensures r.Some? ==> r.value < |s| && s[r.value] == c && c !in s[r.value + 1..]
    ensures r.None? ==> c !in s
    decreases |s|
  {
    if |s| == 0 then None
    else if s[|s| - 1] == c then Some(|s| - 1)
    else
      var r := LastIndexOf(s[..|s| - 1], c);
      assert s == s[..|s| - 1] + [s[|s| - 1]];
      r
  }

  /** The last component of a path. */
  function FileName(path: string): (name: string)
    ensures '/' !in name
    ensures |name| <= |path| && path[|path| - |name|..] == name
    ensures |name| == |path| || path[|path| - |name| - 1] == '/'
  {
    match LastIndexOf(path, '/')
    case None => path
    case Some(p) => path[p + 1..]
  }

  /**
   * The file name without its last extension. A leading dot does not start an
   * extension, and "." and ".." are their own stems.
   */
  function Stem(path: string): (stem: string)
    ensures '/' !in stem
    ensures stem <= FileName(path)
    ensures stem == FileName(path) || FileName(path)[|stem|] == '.'
  {
    var name := FileName(path);
    if name == "." || name == ".." then name
    else match LastIndexOf(name, '.')
      case None => name
      case Some(p) => if p == 0 then name else name[..p]
  }

  /** In `a + b`, where `a` ends with `c` and `b` holds no `c`, the last `c` ends `a`. */
  lemma LastIndexOfBoundary(a: string, b: string, c: char)
    requires |a| > 0 && a[|a| - 1] == c && c !in b
    ensures LastIndexOf(a + b, c) == Some(|a| - 1)
  {
    assert (a + b)[|a| - 1] == c;
  }

  /** Below a directory prefix ending in `/`, the file name is what follows it. */
  lemma FileNameBelow(dir: string, file: string)
    requires dir == "" || dir[|dir| - 1] == '/'
    requires '/' !in file
    ensures FileName(dir + file) == file
  {
    if dir == "" {
      assert dir + file == file;
    } else {
      LastIndexOfBoundary(dir, file, '/');
      assert (dir + file)[|dir|..] == file;
    }
  }

  /** In `name.ext`, with no dot in `ext`, the last dot is the one after `name`. */
  lemma LastDotEndsName(name: string, ext: string)
    requires '.' !in ext
    ensures LastIndexOf(name + "." + ext, '.') == Some(|name|)
    ensures (name + "." + ext)[..|name|] == name
  {
    assert name + "." + ext == (name + ".") + ext;
    LastIndexOfBoundary(name + ".", ext, '.');
  }

  /** `dir/name.ext` (or `name.ext`) has stem `name`, whatever dots `name` itself holds. */
  lemma StemDropsExtension(dir: string, name: string, ext: string)
    requires dir == "" || dir[|dir| - 1] == '/'
    requires name != "" && '/' !in name
    requires '/' !in ext && '.' !in ext
    requires name + "." + ext != ".."
    ensures Stem(dir + name + "." + ext) == name
  {
    var file := name + "." + ext;
    assert dir + name + "." + ext == dir + file;
    assert '/' !in file by {
      forall k | 0 <= k < |file| ensures file[k] != '/' {
        if k < |name| { assert file[k] == name[k]; }
        else if k > |name| { assert file[k] == ext[k - |name| - 1]; }
      }
    }
    FileNameBelow(dir, file);
    LastDotEndsName(name, ext);
    assert |file| >= 2 && file != ".";
  }

  /**
   * A file name with no dot after its first character is its own stem: a
   * leading dot does not start an extension. So are "." and "..".
   */
  lemma StemKeepsUndottedName(dir: string, file: string)
    requires dir == "" || dir[|dir| - 1] == '/'
    requires '/' !in file
    requires |file| <= 1 || file == ".." || '.' !in file[1..]
    ensures Stem(dir + file) == file
  {
    FileNameBelow(dir, file);
    if |file| > 1 && file != ".." {
      forall k | 1 <= k < |file|
        ensures file[k] != '.'
      {
        assert file[k] == file[1..][k - 1];
      }
      var r := LastIndexOf(file, '.');
      assert r.None? || r.value == 0;
    }
  }
}
