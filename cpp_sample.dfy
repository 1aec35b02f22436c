/**
  The C++ sample (TableauSDKSample.cpp): ParseArguments, which fills a caller's
  std::map in place and answers true or false, and main.

  As written, the guard for a -f/--filename without a value tests the index of the
  switch itself, which is always in range inside the loop, and the value is then read
  one past the last argument. `AsWritten` models that loop; `ParseArguments` is the
  loop with the guard the Java sample has, and the rest of the model uses it.
*/
module CppSample {
  import opened Wrappers
  import opened ExtractLib
  import opened Cli
  import opened Workflow

  const DefaultFilename := "order-cpp.hyper"

  /** EXIT_FAILURE on the platforms the sample ships for. */
  const ExitFailure := 1

  /** The std::map<std::string, std::wstring> main passes by reference. */
  class OptionMap {
    var entries: map<string, string>

    constructor ()
      ensures entries == map[]
    {
      entries := map[];
    }
  }

  /** What ParseArguments answers and what it leaves in the map. */
  datatype Parsed = Parsed(ok: bool, options: map<string, string>)

  /** ParseArguments from the map's contents `options`, over the corrected -f guard:
      false for an empty command line, an unknown argument or a dangling -f; what was
      recorded before a failure stays in the map. The default filename is added only
      after a complete scan. The loop as written reads past the end on a dangling -f
      instead; that loop is `AsWritten`. */
  function Parse(args: seq<string>, options: map<string, string>): (r: Parsed)
    ensures options.Keys <= r.options.Keys
    ensures r.ok ==> "help" in r.options || "filename" in r.options
    ensures r.ok <==> |args| > 0 && StrictScan(args, options).verdict in {Complete, Help}
    ensures !r.ok ==> r.options == if |args| == 0 then options else StrictScan(args, options).options
  {
    if |args| == 0 then Parsed(false, options)
    else
      var scan := StrictScan(args, options);
      match scan.verdict
      case Complete =>
        Parsed(true, if "filename" in scan.options then scan.options else scan.options["filename" := DefaultFilename])
      case Help => Parsed(true, scan.options)
      case _ => Parsed(false, scan.options)
  }

  method ParseArguments(args: seq<string>, options: OptionMap) returns (ok: bool)
    modifies options
    ensures Parsed(ok, options.entries) == Parse(args, old(options.entries))
  {
    if |args| == 0 {
      return false;
    }
    ghost var start := options.entries;
    var i := 0;
    while i < |args|
      invariant 0 <= i <= |args|
      invariant StrictScan(args, start) == StrictScan(args[i..], options.entries)
      decreases |args| - i
    {
      var sw := Classify(args[i]);
      if sw == HelpSwitch {
        options.entries := options.entries["help" := "true"];
        return true;
      } else if sw == BuildSwitch {
        options.entries := options.entries["build" := "true"];
      } else if sw == SpatialSwitch {
        options.entries := options.entries["spatial" := "true"];
      } else if sw == MultiTableSwitch {
        options.entries := options.entries["multitable" := "true"];
      } else if sw == FilenameSwitch {
        if i + 1 >= |args| {
          return false;
        }
        assert args[i..][2..] == args[i + 2..];
        i := i + 1;
        options.entries := options.entries["filename" := args[i]];
      } else {
        return false;
      }
      i := i + 1;
    }
    if "filename" !in options.entries {
      options.entries := options.entries["filename" := DefaultFilename];
    }
    ok := true;
  }

  // ---------------------------------------------------------------------------
  //  The loop as written
  // ---------------------------------------------------------------------------

  /** How the loop as written ends: like the intended scan, or by reading argv[argc],
      the null pointer after the last argument, as the value of a trailing -f. */
  datatype AsWrittenResult =
    | Finished(scan: ScanResult)
    | ReadPastEnd(options: map<string, string>)

  /** The loop of ParseArguments as written, from index `i` of `args` on. */
  function AsWritten(args: seq<string>, i: nat, options: map<string, string>): (r: AsWrittenResult)
    requires i <= |args|
    ensures r.Finished? ==> r.scan.verdict != MissingFilename
    ensures r.ReadPastEnd? ==> |args| > 0 && Classify(args[|args| - 1]) == FilenameSwitch
    decreases |args| - i
  {
    if i == |args| then Finished(ScanResult(Complete, options))
    else
      match Classify(args[i])
      case HelpSwitch => Finished(ScanResult(Help, options["help" := "true"]))
      case FilenameSwitch =>
        if i >= |args| then Finished(ScanResult(MissingFilename, options))
        else if i + 1 == |args| then ReadPastEnd(options)
        else AsWritten(args, i + 2, options["filename" := args[i + 1]])
      case Unrecognised => Finished(ScanResult(UnknownArgument, options))
      case _ => AsWritten(args, i + 1, options[FlagKey(Classify(args[i])) := "true"])
  }

  /** The loop as written agrees with the intended scan except that it never reports a
      missing filename: exactly where a value is missing, it reads past the end. */
  lemma {:induction false} AsWrittenReadsPastEnd(args: seq<string>, i: nat, options: map<string, string>)
    requires i <= |args|
    ensures var s := StrictScan(args[i..], options);
      AsWritten(args, i, options) == if s.verdict == MissingFilename then ReadPastEnd(s.options) else Finished(s)
    decreases |args| - i
  {
    if i < |args| {
      var rest := args[i..];
      assert rest[0] == args[i];
      match Classify(args[i])
      case HelpSwitch =>
      case FilenameSwitch =>
        if i + 1 < |args| {
          assert rest[1] == args[i + 1] && rest[2..] == args[i + 2..];
          AsWrittenReadsPastEnd(args, i + 2, options["filename" := args[i + 1]]);
        }
      case Unrecognised =>
      case _ =>
        assert rest[1..] == args[i + 1..];
        AsWrittenReadsPastEnd(args, i + 1, options[FlagKey(Classify(args[i])) := "true"]);
    }
  }

  /** `-b -f`: the intended parser reports the missing filename; the loop as written
      reads past the last argument. */
  lemma TrailingFilenameSwitch()
    ensures StrictScan(["-b", "-f"], map[]) == ScanResult(MissingFilename, map["build" := "true"])
    ensures AsWritten(["-b", "-f"], 0, map[]) == ReadPastEnd(map["build" := "true"])
  {
    AsWrittenReadsPastEnd(["-b", "-f"], 0, map[]);
    assert ["-b", "-f"][0..] == ["-b", "-f"];
    assert ["-b", "-f"][1..] == ["-f"];
  }

  // ---------------------------------------------------------------------------
  //  main
  // ---------------------------------------------------------------------------

  /** What main does for `args`. */
  function RequestOf(args: seq<string>): (r: Option<Request>)
    ensures r.Some? <==> |args| > 0 && StrictScan(args, map[]).verdict == Complete
    ensures r.Some? ==> var options := StrictScan(args, map[]).options;
      r.value.filename == if "filename" in options then options["filename"] else DefaultFilename
    ensures r.Some? ==> var options := StrictScan(args, map[]).options;
      && r.value.build == ("build" in options)
      && r.value.spatial == ("spatial" in options)
      && r.value.multi == ("multitable" in options)
  {
    var parsed := Parse(args, map[]);
    if !parsed.ok || "help" in parsed.options then None
    else
      var options := parsed.options;
      Some(Request("build" in options, "spatial" in options, "multitable" in options, options["filename"]))
  }

  /** main: parse into an empty map, show the usage text or build; the spatial column of
      this sample is named "Destination". */
  method Run(args: seq<string>, disk: Disk) returns (exit: Exit)
    ensures exit == Dispatch(RequestOf(args), disk, "Destination", ExitFailure)
  {
    var options := new OptionMap();
    var ok := ParseArguments(args, options);
    if !ok || "help" in options.entries {
      return Exit(ShowUsage, 0, disk);
    }
    if "build" in options.entries {
      exit := BuildExtract(disk, options.entries["filename"], "Destination",
                           "spatial" in options.entries, "multitable" in options.entries, ExitFailure);
      return;
    }
    exit := Exit(NoWork, 0, disk);
  }
}
