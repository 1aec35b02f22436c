/**
  How the three samples' command lines relate. The Java and C++ parsers accept the
  same command lines and differ only in the default filename. The C parser accepts
  every command line they accept, and more, since it skips unknown arguments. On a
  command line without an unknown argument, all three dispatch alike.
*/
module SampleAgreement {
  import opened Cli
  import opened Workflow
  import CSample
  import JavaSample
  import CppSample

  /** The request with its filename blanked out, to compare everything else. */
  function Flags(r: Request): Request
  {
    r.(filename := "")
  }

  /** Java and C++ reach the same decision and the same switches; they name the same
      file, except that each falls back on its own default. */
  lemma JavaAndCppAgree(args: seq<string>)
    ensures var j, c := JavaSample.RequestOf(args), CppSample.RequestOf(args);
      && (j.Some? <==> c.Some?)
      && (j.Some? ==> Flags(j.value) == Flags(c.value))
      && (j.Some? && "filename" in StrictScan(args, map[]).options ==> j.value.filename == c.value.filename)
      && (j.Some? && "filename" !in StrictScan(args, map[]).options ==>
            j.value.filename == JavaSample.DefaultFilename && c.value.filename == CppSample.DefaultFilename)
  {
    var scan := StrictScan(args, map[]);
    assert JavaSample.Parse(args).Some? == CppSample.Parse(args, map[]).ok;
    if JavaSample.Parse(args).Some? {
      assert JavaSample.Parse(args).value.Keys - {"filename"} == CppSample.Parse(args, map[]).options.Keys - {"filename"};
    }
  }

  /** Where the strict scan meets no unknown argument, the C sample reaches the Java
      sample's decision with the same switches and the same file, up to the default. */
  lemma CAgreesWithJava(args: seq<string>)
    requires StrictScan(args, map[]).verdict != UnknownArgument
    ensures var c, j := CSample.RequestOf(args), JavaSample.RequestOf(args);
      && (c.Some? <==> j.Some?)
      && (c.Some? ==> Flags(c.value) == Flags(j.value))
      && (c.Some? && "filename" in StrictScan(args, map[]).options ==> c.value.filename == j.value.filename)
      && (c.Some? && "filename" !in StrictScan(args, map[]).options ==>
            c.value.filename == CSample.DefaultFilename && j.value.filename == JavaSample.DefaultFilename)
  {
    var blank := CSample.Cleared();
    assert CSample.SelectSlots(blank) == Select(map[]);
    CSample.AgreesWithStrict(args, blank, map[]);
    assert CSample.Shaped(blank);
  }

  /** The C sample accepts every command line the Java sample accepts, with the same
      switches, and names the same file when an explicit filename is given. */
  lemma CAcceptsWhatJavaAccepts(args: seq<string>)
    requires JavaSample.RequestOf(args).Some?
    ensures CSample.RequestOf(args).Some?
    ensures Flags(CSample.RequestOf(args).value) == Flags(JavaSample.RequestOf(args).value)
    ensures "filename" in StrictScan(args, map[]).options ==>
              CSample.RequestOf(args).value.filename == JavaSample.RequestOf(args).value.filename
  {
    assert StrictScan(args, map[]).verdict != UnknownArgument;
    CAgreesWithJava(args);
  }
}
