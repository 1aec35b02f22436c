/**
  The Java sample (TableauSDKSample.java): parseArguments, which builds a fresh
  option map or returns null, and main.
*/
module JavaSample {
  import opened Wrappers
  import opened ExtractLib
  import opened Cli
  import opened Workflow

  const DefaultFilename := "order-java.hyper"

  /** The status main passes to System.exit when the Extract API throws. */
  const ExitFailure := -1

  /** parseArguments: null (None) for an empty command line, an unknown argument or a
      dangling -f; on success the map has "help", or else it has a "filename". */
  function Parse(arguments: seq<string>): (r: Option<map<string, string>>)
    ensures r.Some? ==> WellFormed(r.value)
    ensures r.Some? ==> "help" in r.value || "filename" in r.value
    ensures r.Some? <==> |arguments| > 0 && StrictScan(arguments, map[]).verdict in {Complete, Help}
  {
    if |arguments| == 0 then None
    else
      var scan := StrictScan(arguments, map[]);
      match scan.verdict
      case Complete =>
        Some(if "filename" in scan.options then scan.options else scan.options["filename" := DefaultFilename])
      case Help => Some(scan.options)
      case _ => None
  }

  method ParseArguments(arguments: seq<string>) returns (result: Option<map<string, string>>)
    ensures result == Parse(arguments)
  {
    if |arguments| == 0 {
      return None;
    }
    var options: map<string, string> := map[];
    var i := 0;
    while i < |arguments|
      invariant 0 <= i <= |arguments|
      invariant StrictScan(arguments, map[]) == StrictScan(arguments[i..], options)
      decreases |arguments| - i
    {
      match Classify(arguments[i]) {
        case HelpSwitch =>
          options := options["help" := "true"];
          return Some(options);
        case BuildSwitch =>
          options := options["build" := "true"];
        case SpatialSwitch =>
          options := options["spatial" := "true"];
        case MultiTableSwitch =>
          options := options["multitable" := "true"];
        case FilenameSwitch =>
          if i + 1 >= |arguments| {
            return None;
          }
          assert arguments[i..][2..] == arguments[i + 2..];
          i := i + 1;
          options := options["filename" := arguments[i]];
        case Unrecognised =>
          return None;
      }
      i := i + 1;
    }
    if "filename" !in options {
      options := options["filename" := DefaultFilename];
    }
    result := Some(options);
  }

  /** Without any -f/--filename on the command line, a successful parse that did not
      stop at help names the default file. */
  lemma DefaultFilenameUsed(arguments: seq<string>)
    requires forall i :: 0 <= i < |arguments| ==> Classify(arguments[i]) != FilenameSwitch
    ensures var r := Parse(arguments);
      r.Some? && "help" !in r.value ==> r.value["filename"] == DefaultFilename
  {
    var scan := StrictScan(arguments, map[]);
    if "filename" in scan.options {
      FilenameProvenance(arguments, map[]);
    }
  }

  /** The filename of a successful parse is the default or an argument that followed
      a -f/--filename switch. */
  lemma FilenameFromCommandLine(arguments: seq<string>)
    ensures var r := Parse(arguments);
      r.Some? && "filename" in r.value ==>
        || r.value["filename"] == DefaultFilename
        || exists i :: 0 <= i < |arguments| - 1 && Classify(arguments[i]) == FilenameSwitch
                       && arguments[i + 1] == r.value["filename"]
  {
    var scan := StrictScan(arguments, map[]);
    if "filename" in scan.options {
      FilenameProvenance(arguments, map[]);
    }
  }

  /** What main does for `arguments`. */
  function RequestOf(arguments: seq<string>): (r: Option<Request>)
    ensures r.Some? <==> |arguments| > 0 && StrictScan(arguments, map[]).verdict == Complete
    ensures r.Some? ==> var options := StrictScan(arguments, map[]).options;
      r.value.filename == if "filename" in options then options["filename"] else DefaultFilename
    ensures r.Some? ==> var options := StrictScan(arguments, map[]).options;
      && r.value.build == ("build" in options)
      && r.value.spatial == ("spatial" in options)
      && r.value.multi == ("multitable" in options)
  {
    var parsed := Parse(arguments);
    if parsed.None? || "help" in parsed.value then None
    else
      var options := parsed.value;
      Some(Request("build" in options, "spatial" in options, "multitable" in options, options["filename"]))
  }

  /** main: parse, show the usage text or build; the spatial column of this sample is
      named "Destination". */
  method Run(arguments: seq<string>, disk: Disk) returns (exit: Exit)
    ensures exit == Dispatch(RequestOf(arguments), disk, "Destination", ExitFailure)
  {
    var options := ParseArguments(arguments);
    if options.None? || "help" in options.value {
      return Exit(ShowUsage, 0, disk);
    }
    if "build" in options.value {
      exit := BuildExtract(disk, options.value["filename"], "Destination",
                           "spatial" in options.value, "multitable" in options.value, ExitFailure);
      return;
    }
    exit := Exit(NoWork, 0, disk);
  }
}
