/**
  The command line the three samples accept, and the strict scan the Java and C++
  samples run over it.

  Every sample recognises the same five switches in a short and a long spelling.
  An argument that follows -f/--filename is its value and is never read as a switch.
  The strict scan records what it sees in an option map keyed "help", "build",
  "spatial", "multitable" and "filename"; every key but "filename" maps to "true".
*/
module Cli {
  import opened Wrappers

  /** What one argument is, read where a switch is expected. */
  datatype Switch = HelpSwitch | BuildSwitch | SpatialSwitch | MultiTableSwitch | FilenameSwitch | Unrecognised

  function Classify(arg: string): Switch
  {
    if arg == "-h" || arg == "--help" then HelpSwitch
    else if arg == "-b" || arg == "--build" then BuildSwitch
    else if arg == "-s" || arg == "--spatial" then SpatialSwitch
    else if arg == "-m" || arg == "--multitable" then MultiTableSwitch
    else if arg == "-f" || arg == "--filename" then FilenameSwitch
    else Unrecognised
  }

  /** The switches that only set a flag. */
  predicate IsFlag(sw: Switch)
  {
    sw == BuildSwitch || sw == SpatialSwitch || sw == MultiTableSwitch
  }

  /** The option-map key a flag switch sets. */
  function FlagKey(sw: Switch): string
    requires IsFlag(sw)
  {
    match sw
    case BuildSwitch => "build"
    case SpatialSwitch => "spatial"
    case MultiTableSwitch => "multitable"
  }

  const Keys: set<string> := {"help", "build", "spatial", "multitable", "filename"}

  /** An option map as the strict scan builds it: known keys only, flags set to "true". */
  ghost predicate WellFormed(options: map<string, string>)
  {
    options.Keys <= Keys && forall k :: k in options && k != "filename" ==> options[k] == "true"
  }

  /** What main reads from an option map: which switches are present, and the filename. */
  datatype Selection = Selection(help: bool, build: bool, spatial: bool, multi: bool, filename: Option<string>)

  function Select(options: map<string, string>): Selection
  {
    Selection("help" in options, "build" in options, "spatial" in options, "multitable" in options,
              if "filename" in options then Some(options["filename"]) else None)
  }

  /** How a scan ends. */
  datatype Verdict =
    | Complete          // every argument consumed
    | Help              // stopped at -h/--help, which was recorded
    | UnknownArgument   // stopped at an argument that is no switch
    | MissingFilename   // -f/--filename was the last argument

  datatype ScanResult = ScanResult(verdict: Verdict, options: map<string, string>)

  /** The loop of parseArguments (Java) and ParseArguments (C++), from `options` on.
      Keys are only ever added or overwritten, never removed. */
  function StrictScan(args: seq<string>, options: map<string, string>): (r: ScanResult)
    ensures options.Keys <= r.options.Keys
    ensures WellFormed(options) ==> WellFormed(r.options)
    ensures r.verdict == Help ==> "help" in r.options && r.options["help"] == "true"
    ensures r.verdict != Help ==> ("help" in r.options <==> "help" in options)
    decreases |args|
  {
    if |args| == 0 then ScanResult(Complete, options)
    else
      match Classify(args[0])
      case HelpSwitch => ScanResult(Help, options["help" := "true"])
      case FilenameSwitch =>
        if |args| < 2 then ScanResult(MissingFilename, options)
        else StrictScan(args[2..], options["filename" := args[1]])
      case Unrecognised => ScanResult(UnknownArgument, options)
      case _ => StrictScan(args[1..], options[FlagKey(Classify(args[0])) := "true"])
  }

  /** A prefix that is consumed completely hands its options on to the rest; a prefix
      that stops at help or at an unknown argument hides the rest. */
  lemma {:induction false} StrictAppend(a: seq<string>, b: seq<string>, options: map<string, string>)
    ensures var r := StrictScan(a, options);
      && (r.verdict == Complete ==> StrictScan(a + b, options) == StrictScan(b, r.options))
      && (r.verdict == Help || r.verdict == UnknownArgument ==> StrictScan(a + b, options) == r)
    decreases |a|
  {
    if |a| == 0 {
      assert a + b == b;
    } else {
      match Classify(a[0])
      case HelpSwitch =>
        assert (a + b)[0] == a[0];
      case Unrecognised =>
        assert (a + b)[0] == a[0];
      case FilenameSwitch =>
        if |a| >= 2 {
          assert (a + b)[0] == a[0] && (a + b)[1] == a[1];
          assert (a + b)[2..] == a[2..] + b;
          StrictAppend(a[2..], b, options["filename" := a[1]]);
        }
      case _ =>
        assert (a + b)[0] == a[0];
        assert (a + b)[1..] == a[1..] + b;
        StrictAppend(a[1..], b, options[FlagKey(Classify(a[0])) := "true"]);
    }
  }

  /** Once a completely consumed prefix is followed by -h, nothing after it is read. */
  lemma HelpStops(a: seq<string>, h: string, rest: seq<string>, options: map<string, string>)
    requires StrictScan(a, options).verdict == Complete && Classify(h) == HelpSwitch
    ensures StrictScan(a + [h] + rest, options)
            == ScanResult(Help, StrictScan(a, options).options["help" := "true"])
  {
    assert a + [h] + rest == a + ([h] + rest);
    StrictAppend(a, [h] + rest, options);
  }

  /** A flag switch sets its key and hands on to the rest of the arguments. */
  lemma FlagScanStep(x: string, rest: seq<string>, options: map<string, string>)
    requires IsFlag(Classify(x))
    ensures StrictScan([x] + rest, options) == StrictScan(rest, options[FlagKey(Classify(x)) := "true"])
  {
    assert ([x] + rest)[0] == x && ([x] + rest)[1..] == rest;
  }

  /** Two flag switches may be given in either order. */
  lemma FlagsCommute(x: string, y: string, rest: seq<string>, options: map<string, string>)
    requires IsFlag(Classify(x)) && IsFlag(Classify(y))
    ensures StrictScan([x, y] + rest, options) == StrictScan([y, x] + rest, options)
  {
    var kx, ky := FlagKey(Classify(x)), FlagKey(Classify(y));
    assert [x, y] + rest == [x] + ([y] + rest) && [y, x] + rest == [y] + ([x] + rest);
    FlagScanStep(x, [y] + rest, options);
    FlagScanStep(y, rest, options[kx := "true"]);
    FlagScanStep(y, [x] + rest, options);
    FlagScanStep(x, rest, options[ky := "true"]);
    assert options[kx := "true"][ky := "true"] == options[ky := "true"][kx := "true"];
  }

  /** Repeating a flag switch changes nothing. */
  lemma FlagRepeatIdempotent(x: string, rest: seq<string>, options: map<string, string>)
    requires IsFlag(Classify(x))
    ensures StrictScan([x, x] + rest, options) == StrictScan([x] + rest, options)
  {
    var k := FlagKey(Classify(x));
    assert ([x, x] + rest)[1..] == [x] + rest;
    assert ([x] + rest)[1..] == rest;
    assert options[k := "true"][k := "true"] == options[k := "true"];
  }

  /** A scan that meets no -f/--filename leaves the "filename" entry as it found it. */
  lemma {:induction false} FilenameEntryKept(args: seq<string>, options: map<string, string>)
    requires forall i :: 0 <= i < |args| ==> Classify(args[i]) != FilenameSwitch
    ensures var r := StrictScan(args, options);
      && ("filename" in r.options <==> "filename" in options)
      && ("filename" in options ==> r.options["filename"] == options["filename"])
    decreases |args|
  {
    if |args| > 0 {
      match Classify(args[0])
      case HelpSwitch =>
      case Unrecognised =>
      case FilenameSwitch =>
        assert false;
      case BuildSwitch | SpatialSwitch | MultiTableSwitch =>
        FilenameEntryKept(args[1..], options[FlagKey(Classify(args[0])) := "true"]);
    }
  }

  /** When -f is given more than once, the last value is the one kept, whatever other
      switches follow it. */
  lemma LastFilenameWins(a: seq<string>, f: string, v: string, rest: seq<string>, options: map<string, string>)
    requires StrictScan(a, options).verdict == Complete && Classify(f) == FilenameSwitch
    requires forall i :: 0 <= i < |rest| ==> Classify(rest[i]) != FilenameSwitch
    ensures var r := StrictScan(a + [f, v] + rest, options);
      "filename" in r.options && r.options["filename"] == v
    ensures rest == [] ==> StrictScan(a + [f, v] + rest, options).verdict == Complete
  {
    var o := StrictScan(a, options).options["filename" := v];
    assert a + [f, v] + rest == a + ([f, v] + rest);
    StrictAppend(a, [f, v] + rest, options);
    assert ([f, v] + rest)[0] == f && ([f, v] + rest)[1] == v && ([f, v] + rest)[2..] == rest;
    assert StrictScan([f, v] + rest, StrictScan(a, options).options) == StrictScan(rest, o);
    FilenameEntryKept(rest, o);
  }

  /** The filename a scan records came from the start map or is the argument right
      after a -f/--filename switch. */
  lemma {:induction false} FilenameProvenance(args: seq<string>, options: map<string, string>)
    requires "filename" in StrictScan(args, options).options
    ensures var v := StrictScan(args, options).options["filename"];
      || ("filename" in options && v == options["filename"])
      || exists i :: 0 <= i < |args| - 1 && Classify(args[i]) == FilenameSwitch && args[i + 1] == v
    decreases |args|
  {
    if |args| == 0 {
    } else {
      var v := StrictScan(args, options).options["filename"];
      match Classify(args[0])
      case HelpSwitch =>
      case Unrecognised =>
      case FilenameSwitch =>
        if |args| >= 2 {
          var rest := args[2..];
          FilenameProvenance(rest, options["filename" := args[1]]);
          if "filename" in options["filename" := args[1]] && v == options["filename" := args[1]]["filename"] {
            assert Classify(args[0]) == FilenameSwitch && args[1] == v;
          } else {
            var j :| 0 <= j < |rest| - 1 && Classify(rest[j]) == FilenameSwitch && rest[j + 1] == v;
            assert args[j + 2] == rest[j] && args[j + 3] == rest[j + 1];
          }
        }
      case _ =>
        var k := FlagKey(Classify(args[0]));
        var rest := args[1..];
        FilenameProvenance(rest, options[k := "true"]);
        if "filename" in options[k := "true"] && v == options[k := "true"]["filename"] {
        } else {
          var j :| 0 <= j < |rest| - 1 && Classify(rest[j]) == FilenameSwitch && rest[j + 1] == v;
          assert args[j + 1] == rest[j] && args[j + 2] == rest[j + 1];
        }
    }
  }

  /** A flag switch read after a completely consumed prefix is recorded under its key,
      whatever follows it. */
  lemma FlagRecorded(a: seq<string>, x: string, rest: seq<string>, options: map<string, string>)
    requires StrictScan(a, options).verdict == Complete && IsFlag(Classify(x))
    ensures FlagKey(Classify(x)) in StrictScan(a + [x] + rest, options).options
  {
    var o := StrictScan(a, options).options[FlagKey(Classify(x)) := "true"];
    assert a + [x] + rest == a + ([x] + rest);
    StrictAppend(a, [x] + rest, options);
    assert ([x] + rest)[0] == x && ([x] + rest)[1..] == rest;
    assert StrictScan([x] + rest, StrictScan(a, options).options) == StrictScan(rest, o);
  }

  /** A flag key in the scan's result was in the start map or was set by an argument
      that reads as that switch. */
  lemma {:induction false} FlagProvenance(args: seq<string>, options: map<string, string>, sw: Switch)
    requires IsFlag(sw) && FlagKey(sw) in StrictScan(args, options).options
    ensures FlagKey(sw) in options || exists i :: 0 <= i < |args| && Classify(args[i]) == sw
    decreases |args|
  {
    if |args| > 0 && FlagKey(sw) !in options {
      match Classify(args[0])
      case HelpSwitch =>
      case Unrecognised =>
      case FilenameSwitch =>
        if |args| >= 2 {
          FlagProvenance(args[2..], options["filename" := args[1]], sw);
          var j :| 0 <= j < |args[2..]| && Classify(args[2..][j]) == sw;
          assert args[j + 2] == args[2..][j];
        }
      case _ =>
        var k := FlagKey(Classify(args[0]));
        if k != FlagKey(sw) {
          FlagProvenance(args[1..], options[k := "true"], sw);
          var j :| 0 <= j < |args[1..]| && Classify(args[1..][j]) == sw;
          assert args[j + 1] == args[1..][j];
        } else {
          assert Classify(args[0]) == sw;
        }
    }
  }

  /** An argument that is no switch, where a switch is expected, ends the scan. */
  lemma UnknownRejected(a: seq<string>, x: string, rest: seq<string>, options: map<string, string>)
    requires StrictScan(a, options).verdict == Complete && Classify(x) == Unrecognised
    ensures StrictScan(a + [x] + rest, options) == ScanResult(UnknownArgument, StrictScan(a, options).options)
  {
    assert a + [x] + rest == a + ([x] + rest);
    StrictAppend(a, [x] + rest, options);
  }

  /** A -f/--filename with nothing after it ends the scan with a missing filename. */
  lemma MissingFilenameRejected(a: seq<string>, f: string, options: map<string, string>)
    requires StrictScan(a, options).verdict == Complete && Classify(f) == FilenameSwitch
    ensures StrictScan(a + [f], options) == ScanResult(MissingFilename, StrictScan(a, options).options)
  {
    StrictAppend(a, [f], options);
  }
}

