/**
  The C sample (TableauSDKSample.c): its argument parser over a fixed array of five
  option slots, the release of those slots, and main.

  A slot holds NULL (which is also the sample's FALSE), the sentinel TRUE, or a
  pointer to a string the parser allocated. The C parser is lenient: an argument
  that is no switch is skipped, not rejected.
*/
module CSample {
  import opened Wrappers
  import opened ExtractLib
  import opened Cli
  import opened Workflow

  /** The contents of one entry of the options array. */
  datatype Slot =
    | Unset               // NULL, read as FALSE
    | True                // the sentinel pointer 0x1
    | Text(value: string) // a string the parser allocated

  // The indices of the options array (enum OPTIONS).
  const HelpSlot := 0
  const BuildSlot := 1
  const SpatialSlot := 2
  const MultiTableSlot := 3
  const FilenameSlot := 4
  const NumOptions := 5

  const DefaultFilename := "order-c.hyper"

  /** EXIT_FAILURE on the platforms the sample ships for. */
  const ExitFailure := 1

  /** The options array as main clears it before parsing. */
  function Cleared(): (s: seq<Slot>)
    ensures |s| == NumOptions && forall k :: 0 <= k < NumOptions ==> s[k] == Unset
  {
    seq(NumOptions, _ => Unset)
  }

  /** The slot a flag switch sets to TRUE. */
  function FlagSlot(sw: Switch): nat
    requires IsFlag(sw)
  {
    match sw
    case BuildSwitch => BuildSlot
    case SpatialSwitch => SpatialSlot
    case MultiTableSwitch => MultiTableSlot
  }

  /** The slots the parser writes keep their kinds: switches hold NULL or TRUE, the
      filename slot holds NULL or a string. */
  ghost predicate Shaped(s: seq<Slot>)
  {
    && |s| == NumOptions
    && (forall k :: 0 <= k < FilenameSlot ==> !s[k].Text?)
    && !s[FilenameSlot].True?
  }

  datatype SlotScan = SlotScan(verdict: Verdict, slots: seq<Slot>)

  /** The loop of ParseArguments from `slots` on. It never ends in UnknownArgument:
      an argument that is no switch is passed over. */
  function ScanSlots(args: seq<string>, slots: seq<Slot>): (r: SlotScan)
    requires |slots| == NumOptions
    ensures |r.slots| == NumOptions
    ensures r.verdict != UnknownArgument
    ensures Shaped(slots) ==> Shaped(r.slots)
    ensures r.verdict == Help ==> r.slots[HelpSlot] == True
    ensures r.verdict != Help ==> r.slots[HelpSlot] == slots[HelpSlot]
    decreases |args|
  {
    if |args| == 0 then SlotScan(Complete, slots)
    else
      match Classify(args[0])
      case HelpSwitch => SlotScan(Help, slots[HelpSlot := True])
      case FilenameSwitch =>
        if |args| < 2 then SlotScan(MissingFilename, slots)
        else ScanSlots(args[2..], slots[FilenameSlot := Text(args[1])])
      case Unrecognised => ScanSlots(args[1..], slots)
      case _ => ScanSlots(args[1..], slots[FlagSlot(Classify(args[0])) := True])
  }

  /** What ParseArguments returns and leaves in the array. */
  datatype Parsed = Parsed(ok: bool, slots: seq<Slot>)

  /** ParseArguments: false for an empty command line or a dangling -f; the default
      filename is filled in only after a complete scan that set none. */
  function Parse(args: seq<string>, slots: seq<Slot>): (r: Parsed)
    requires |slots| == NumOptions
    ensures |r.slots| == NumOptions
    ensures Shaped(slots) ==> Shaped(r.slots)
    ensures r.ok && r.slots[HelpSlot] != True ==> ScanSlots(args, slots).verdict == Complete
    ensures r.ok && ScanSlots(args, slots).verdict == Complete && Shaped(slots) ==> r.slots[FilenameSlot].Text?
    ensures r.ok <==> |args| > 0 && ScanSlots(args, slots).verdict != MissingFilename
  {
    if |args| == 0 then Parsed(false, slots)
    else
      var scan := ScanSlots(args, slots);
      if scan.verdict == MissingFilename then Parsed(false, scan.slots)
      else if scan.verdict == Help then Parsed(true, scan.slots)
      else if scan.slots[FilenameSlot] == Unset then Parsed(true, scan.slots[FilenameSlot := Text(DefaultFilename)])
      else Parsed(true, scan.slots)
  }

  method ParseArguments(args: seq<string>, options: array<Slot>) returns (ok: bool)
    requires options.Length == NumOptions
    modifies options
    ensures Parsed(ok, options[..]) == Parse(args, old(options[..]))
  {
    if |args| == 0 {
      return false;
    }
    ghost var start := options[..];
    var i := 0;
    while i < |args|
      invariant 0 <= i <= |args|
      invariant ScanSlots(args, start) == ScanSlots(args[i..], options[..])
      decreases |args| - i
    {
      var sw := Classify(args[i]);
      if sw == HelpSwitch {
        options[HelpSlot] := True;
        return true;
      } else if sw == BuildSwitch {
        options[BuildSlot] := True;
      } else if sw == SpatialSwitch {
        options[SpatialSlot] := True;
      } else if sw == MultiTableSwitch {
        options[MultiTableSlot] := True;
      } else if sw == FilenameSwitch {
        i := i + 1;
        if i >= |args| {
          return false;
        }
        options[FilenameSlot] := Text(args[i]);
        assert args[i - 1..][2..] == args[i + 1..];
      }
      i := i + 1;
    }
    if options[FilenameSlot] == Unset {
      options[FilenameSlot] := Text(DefaultFilename);
    }
    ok := true;
  }

  /** The indices from `from` on whose slot holds an allocated string, ascending. */
  function FreedFrom(s: seq<Slot>, from: nat): (r: seq<nat>)
    requires from <= |s|
    ensures forall k :: k in r <==> from <= k < |s| && s[k].Text?
    ensures forall j :: 0 <= j < |r| ==> from <= r[j]
    ensures forall a, b :: 0 <= a < b < |r| ==> r[a] < r[b]
    decreases |s| - from
  {
    if from == |s| then []
    else if s[from].Text? then [from] + FreedFrom(s, from + 1)
    else FreedFrom(s, from + 1)
  }

  /** FreeOptions: frees, in index order, every slot that is neither FALSE nor TRUE,
      and changes nothing in the array. */
  method FreeOptions(options: array<Slot>) returns (freed: seq<nat>)
    ensures freed == FreedFrom(options[..], 0)
  {
    freed := [];
    var i := 0;
    while i < options.Length
      invariant 0 <= i <= options.Length
      invariant freed + FreedFrom(options[..], i) == FreedFrom(options[..], 0)
    {
      if options[i] != Unset && options[i] != True {
        freed := freed + [i];
      }
      i := i + 1;
    }
  }

  /** After a parse from a cleared array, FreeOptions releases exactly the filename
      string when there is one, and never the TRUE sentinel; after a successful parse
      that did not stop at help there always is one. */
  lemma FreeAfterParse(args: seq<string>)
    ensures var p := Parse(args, Cleared());
      && FreedFrom(p.slots, 0) == (if p.slots[FilenameSlot].Text? then [FilenameSlot] else [])
      && (p.ok && p.slots[HelpSlot] == Unset ==> FreedFrom(p.slots, 0) == [FilenameSlot])
  {
    var p := Parse(args, Cleared());
    assert Shaped(Cleared());
    assert Shaped(p.slots);
    var tail := FreedFrom(p.slots, FilenameSlot);
    assert tail == (if p.slots[FilenameSlot].Text? then [FilenameSlot] else []) + FreedFrom(p.slots, NumOptions);
    assert FreedFrom(p.slots, MultiTableSlot) == tail;
    assert FreedFrom(p.slots, SpatialSlot) == tail;
    assert FreedFrom(p.slots, BuildSlot) == tail;
  }

  /** What main does for `args` (the command line without the program name). */
  function RequestOf(args: seq<string>): (r: Option<Request>)
    ensures r.Some? <==> |args| > 0 && ScanSlots(args, Cleared()).verdict == Complete
    ensures r.Some? ==> var slot := ScanSlots(args, Cleared()).slots[FilenameSlot];
      r.value.filename == if slot.Text? then slot.value else DefaultFilename
    ensures r.Some? ==> var slots := ScanSlots(args, Cleared()).slots;
      && r.value.build == (slots[BuildSlot] == True)
      && r.value.spatial == (slots[SpatialSlot] == True)
      && r.value.multi == (slots[MultiTableSlot] == True)
  {
    var p := Parse(args, Cleared());
    if !p.ok || p.slots[HelpSlot] != Unset then None
    else
      assert Shaped(Cleared());
      Some(Request(p.slots[BuildSlot] != Unset, p.slots[SpatialSlot] != Unset,
                   p.slots[MultiTableSlot] != Unset, p.slots[FilenameSlot].value))
  }

  /** main: clear the options, parse, show the usage text or build; the spatial column
      of this sample is named "Spatial". */
  method Run(args: seq<string>, disk: Disk) returns (exit: Exit)
    ensures exit == Dispatch(RequestOf(args), disk, "Spatial", ExitFailure)
  {
    var options := new Slot[NumOptions](_ => Unset);
    assert options[..] == Cleared();
    var ok := ParseArguments(args, options);
    if !ok || options[HelpSlot] != Unset {
      var _ := FreeOptions(options);
      return Exit(ShowUsage, 0, disk);
    }
    assert RequestOf(args) == Some(Request(options[BuildSlot] != Unset, options[SpatialSlot] != Unset,
                                           options[MultiTableSlot] != Unset, options[FilenameSlot].value));
    if options[BuildSlot] != Unset {
      exit := BuildExtract(disk, options[FilenameSlot].value, "Spatial",
                           options[SpatialSlot] != Unset, options[MultiTableSlot] != Unset, ExitFailure);
      if exit.outcome == Built {
        var _ := FreeOptions(options);
      }
      return;
    }
    var _ := FreeOptions(options);
    exit := Exit(NoWork, 0, disk);
  }

  // ---------------------------------------------------------------------------
  //  The lenient scan against the strict one
  // ---------------------------------------------------------------------------

  /** What the slots say, in the terms the strict scan's option map is read in. */
  function SelectSlots(s: seq<Slot>): Selection
    requires |s| == NumOptions
  {
    Selection(s[HelpSlot] != Unset, s[BuildSlot] != Unset, s[SpatialSlot] != Unset, s[MultiTableSlot] != Unset,
              if s[FilenameSlot].Text? then Some(s[FilenameSlot].value) else None)
  }

  /** Where the strict scan does not stop at an unknown argument, the lenient scan
      reaches the same verdict with the same options. */
  lemma FlagStep(s: seq<Slot>, m: map<string, string>, sw: Switch)
    requires |s| == NumOptions && SelectSlots(s) == Select(m) && IsFlag(sw)
    ensures SelectSlots(s[FlagSlot(sw) := True]) == Select(m[FlagKey(sw) := "true"])
  {
  }

  lemma HelpStep(s: seq<Slot>, m: map<string, string>)
    requires |s| == NumOptions && SelectSlots(s) == Select(m)
    ensures SelectSlots(s[HelpSlot := True]) == Select(m["help" := "true"])
  {
  }

  lemma FilenameStep(s: seq<Slot>, m: map<string, string>, v: string)
    requires |s| == NumOptions && SelectSlots(s) == Select(m)
    ensures SelectSlots(s[FilenameSlot := Text(v)]) == Select(m["filename" := v])
  {
  }

  lemma {:induction false} AgreesWithStrict(args: seq<string>, s: seq<Slot>, m: map<string, string>)
    requires |s| == NumOptions && SelectSlots(s) == Select(m)
    ensures var c, j := ScanSlots(args, s), StrictScan(args, m);
      j.verdict != UnknownArgument ==> c.verdict == j.verdict && SelectSlots(c.slots) == Select(j.options)
    decreases |args|
  {
    if |args| > 0 {
      match Classify(args[0])
      case HelpSwitch =>
        HelpStep(s, m);
      case FilenameSwitch =>
        if |args| >= 2 {
          FilenameStep(s, m, args[1]);
          AgreesWithStrict(args[2..], s[FilenameSlot := Text(args[1])], m["filename" := args[1]]);
        }
      case Unrecognised =>
      case _ =>
        var sw := Classify(args[0]);
        FlagStep(s, m, sw);
        AgreesWithStrict(args[1..], s[FlagSlot(sw) := True], m[FlagKey(sw) := "true"]);
    }
  }

  /** A prefix the lenient scan consumes completely hands its slots on to the rest. */
  lemma {:induction false} SlotsAppend(a: seq<string>, b: seq<string>, s: seq<Slot>)
    requires |s| == NumOptions
    ensures var r := ScanSlots(a, s);
      r.verdict == Complete ==> ScanSlots(a + b, s) == ScanSlots(b, r.slots)
    decreases |a|
  {
    if |a| == 0 {
      assert a + b == b;
    } else {
      match Classify(a[0])
      case HelpSwitch =>
      case FilenameSwitch =>
        if |a| >= 2 {
          assert (a + b)[0] == a[0] && (a + b)[1] == a[1];
          assert (a + b)[2..] == a[2..] + b;
          SlotsAppend(a[2..], b, s[FilenameSlot := Text(a[1])]);
        }
      case Unrecognised =>
        assert (a + b)[0] == a[0];
        assert (a + b)[1..] == a[1..] + b;
        SlotsAppend(a[1..], b, s);
      case _ =>
        assert (a + b)[0] == a[0];
        assert (a + b)[1..] == a[1..] + b;
        SlotsAppend(a[1..], b, s[FlagSlot(Classify(a[0])) := True]);
    }
  }

  /** Inserting an argument that is no switch, where a switch is expected, changes
      nothing; the Java and C++ parsers reject the same command line. */
  lemma UnknownSkipped(a: seq<string>, x: string, b: seq<string>, s: seq<Slot>)
    requires |s| == NumOptions && Classify(x) == Unrecognised
    requires ScanSlots(a, s).verdict == Complete
    ensures ScanSlots(a + [x] + b, s) == ScanSlots(a + b, s)
  {
    var r := ScanSlots(a, s);
    assert a + [x] + b == a + ([x] + b);
    SlotsAppend(a, [x] + b, s);
    SlotsAppend(a, b, s);
    assert ([x] + b)[0] == x && ([x] + b)[1..] == b;
  }

  // ---------------------------------------------------------------------------
  //  Properties of the C parser
  // ---------------------------------------------------------------------------

  /** The first -h/--help ends the parse with true; nothing after it is read and no
      default filename is filled in. */
  lemma HelpStopsParse(a: seq<string>, h: string, rest: seq<string>, s: seq<Slot>)
    requires |s| == NumOptions && ScanSlots(a, s).verdict == Complete && Classify(h) == HelpSwitch
    ensures Parse(a + [h] + rest, s) == Parsed(true, ScanSlots(a, s).slots[HelpSlot := True])
  {
    var before := ScanSlots(a, s).slots;
    assert a + [h] + rest == a + ([h] + rest);
    SlotsAppend(a, [h] + rest, s);
    assert ([h] + rest)[0] == h;
    assert ScanSlots([h] + rest, before) == SlotScan(Help, before[HelpSlot := True]);
    assert ScanSlots(a + [h] + rest, s).verdict == Help;
  }

  /** A -f/--filename with nothing after it makes the parse fail. */
  lemma DanglingFilenameFails(a: seq<string>, f: string, s: seq<Slot>)
    requires |s| == NumOptions && ScanSlots(a, s).verdict == Complete && Classify(f) == FilenameSwitch
    ensures Parse(a + [f], s) == Parsed(false, ScanSlots(a, s).slots)
  {
    SlotsAppend(a, [f], s);
  }

  /** The argument after -f/--filename is taken as the filename whatever it looks like,
      and scanning resumes after it. */
  lemma FilenameTakesNext(a: seq<string>, f: string, v: string, rest: seq<string>, s: seq<Slot>)
    requires |s| == NumOptions && ScanSlots(a, s).verdict == Complete && Classify(f) == FilenameSwitch
    ensures ScanSlots(a + [f, v] + rest, s) == ScanSlots(rest, ScanSlots(a, s).slots[FilenameSlot := Text(v)])
  {
    assert a + [f, v] + rest == a + ([f, v] + rest);
    SlotsAppend(a, [f, v] + rest, s);
    assert ([f, v] + rest)[2..] == rest;
  }

  /** With several -f, the last value is the filename, whatever other arguments follow
      it; a command line ending in that value parses successfully. */
  lemma LastFilenameWins(a: seq<string>, f: string, v: string, rest: seq<string>, s: seq<Slot>)
    requires |s| == NumOptions && ScanSlots(a, s).verdict == Complete && Classify(f) == FilenameSwitch
    requires forall i :: 0 <= i < |rest| ==> Classify(rest[i]) != FilenameSwitch
    ensures Parse(a + [f, v] + rest, s).slots[FilenameSlot] == Text(v)
    ensures rest == [] ==> Parse(a + [f, v] + rest, s) == Parsed(true, ScanSlots(a, s).slots[FilenameSlot := Text(v)])
  {
    FilenameTakesNext(a, f, v, rest, s);
    FilenameSlotKept(rest, ScanSlots(a, s).slots[FilenameSlot := Text(v)]);
  }

  /** Two flag switches may be given in either order. */
  lemma FlagsCommute(x: string, y: string, rest: seq<string>, s: seq<Slot>)
    requires |s| == NumOptions && IsFlag(Classify(x)) && IsFlag(Classify(y))
    ensures ScanSlots([x, y] + rest, s) == ScanSlots([y, x] + rest, s)
  {
    var i, j := FlagSlot(Classify(x)), FlagSlot(Classify(y));
    assert ([x, y] + rest)[1..][1..] == rest && ([y, x] + rest)[1..][1..] == rest;
    assert s[i := True][j := True] == s[j := True][i := True];
  }

  /** Repeating a flag switch changes nothing. */
  lemma FlagRepeatIdempotent(x: string, rest: seq<string>, s: seq<Slot>)
    requires |s| == NumOptions && IsFlag(Classify(x))
    ensures ScanSlots([x, x] + rest, s) == ScanSlots([x] + rest, s)
  {
    var i := FlagSlot(Classify(x));
    var once := s[i := True];
    assert ([x, x] + rest)[0] == x && ([x, x] + rest)[1..] == [x] + rest;
    assert ([x] + rest)[0] == x && ([x] + rest)[1..] == rest;
    assert ScanSlots([x, x] + rest, s) == ScanSlots([x] + rest, once);
    assert once[i := True] == once;
    assert ScanSlots([x] + rest, once) == ScanSlots(rest, once);
  }

  /** A flag slot set to TRUE stays TRUE for the rest of the scan. */
  lemma {:induction false} FlagSlotKept(args: seq<string>, s: seq<Slot>, k: nat)
    requires |s| == NumOptions && BuildSlot <= k <= MultiTableSlot && s[k] == True
    ensures ScanSlots(args, s).slots[k] == True
    decreases |args|
  {
    if |args| > 0 {
      match Classify(args[0])
      case HelpSwitch =>
      case Unrecognised =>
        FlagSlotKept(args[1..], s, k);
      case FilenameSwitch =>
        if |args| >= 2 {
          FlagSlotKept(args[2..], s[FilenameSlot := Text(args[1])], k);
        }
      case BuildSwitch | SpatialSwitch | MultiTableSwitch =>
        FlagSlotKept(args[1..], s[FlagSlot(Classify(args[0])) := True], k);
    }
  }

  /** A flag switch read after a completely consumed prefix leaves its slot TRUE,
      whatever follows it. */
  lemma FlagRecorded(a: seq<string>, x: string, rest: seq<string>, s: seq<Slot>)
    requires |s| == NumOptions && ScanSlots(a, s).verdict == Complete && IsFlag(Classify(x))
    ensures ScanSlots(a + [x] + rest, s).slots[FlagSlot(Classify(x))] == True
  {
    var once := ScanSlots(a, s).slots[FlagSlot(Classify(x)) := True];
    assert a + [x] + rest == a + ([x] + rest);
    SlotsAppend(a, [x] + rest, s);
    assert ([x] + rest)[0] == x && ([x] + rest)[1..] == rest;
    assert ScanSlots([x] + rest, ScanSlots(a, s).slots) == ScanSlots(rest, once);
    FlagSlotKept(rest, once, FlagSlot(Classify(x)));
  }

  /** A flag slot the scan leaves TRUE was TRUE before or was set by an argument that
      reads as that switch. */
  lemma {:induction false} FlagProvenance(args: seq<string>, s: seq<Slot>, sw: Switch)
    requires |s| == NumOptions && IsFlag(sw) && ScanSlots(args, s).slots[FlagSlot(sw)] == True
    ensures s[FlagSlot(sw)] == True || exists i :: 0 <= i < |args| && Classify(args[i]) == sw
    decreases |args|
  {
    if |args| > 0 && s[FlagSlot(sw)] != True {
      match Classify(args[0])
      case HelpSwitch =>
      case Unrecognised =>
        FlagProvenance(args[1..], s, sw);
        var j :| 0 <= j < |args[1..]| && Classify(args[1..][j]) == sw;
        assert args[j + 1] == args[1..][j];
      case FilenameSwitch =>
        if |args| >= 2 {
          FlagProvenance(args[2..], s[FilenameSlot := Text(args[1])], sw);
          var j :| 0 <= j < |args[2..]| && Classify(args[2..][j]) == sw;
          assert args[j + 2] == args[2..][j];
        }
      case _ =>
        var k := FlagSlot(Classify(args[0]));
        if k != FlagSlot(sw) {
          FlagProvenance(args[1..], s[k := True], sw);
          var j :| 0 <= j < |args[1..]| && Classify(args[1..][j]) == sw;
          assert args[j + 1] == args[1..][j];
        } else {
          assert Classify(args[0]) == sw;
        }
    }
  }

  /** A scan without -f/--filename leaves the filename slot as it found it. */
  lemma {:induction false} FilenameSlotKept(args: seq<string>, s: seq<Slot>)
    requires |s| == NumOptions
    requires forall i :: 0 <= i < |args| ==> Classify(args[i]) != FilenameSwitch
    ensures ScanSlots(args, s).slots[FilenameSlot] == s[FilenameSlot]
    decreases |args|
  {
    if |args| > 0 {
      match Classify(args[0])
      case HelpSwitch =>
      case Unrecognised =>
        FilenameSlotKept(args[1..], s);
      case FilenameSwitch =>
        assert false;
      case BuildSwitch | SpatialSwitch | MultiTableSwitch =>
        FilenameSlotKept(args[1..], s[FlagSlot(Classify(args[0])) := True]);
    }
  }

  /** Without any -f/--filename, a parse that succeeds without help names "order-c.hyper". */
  lemma DefaultFilenameUsed(args: seq<string>)
    requires forall i :: 0 <= i < |args| ==> Classify(args[i]) != FilenameSwitch
    ensures var p := Parse(args, Cleared());
      p.ok && p.slots[HelpSlot] == Unset ==> p.slots[FilenameSlot] == Text(DefaultFilename)
  {
    FilenameSlotKept(args, Cleared());
  }
}

