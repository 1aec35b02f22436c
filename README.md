# Tableau Extract API samples: command line, schema and row plan

This project models the three sample programs shipped with the Tableau Extract API
2019.2, written in C, Java and C++. Each sample parses a small command line:
`-h/--help`, `-b/--build`, `-s/--spatial`, `-m/--multitable` and `-f/--filename FILE`.
With `--build` it opens the named extract, or creates it, through the Extract API.
It defines a main table ("Extract", or "Products" in multi-table mode) and, in
multi-table mode, a "Suppliers" table, each only when the table is missing. It then
appends ten product rows and, in multi-table mode, three supplier rows, and closes
the extract.

Modules:

- `Cli` holds the five switches and the strict scan that the Java parser runs, and
  the C++ parser too once its `-f` guard is corrected (see "## Findings").
  That scan stops at help, at an unknown argument or at a trailing `-f`.
- `CSample` models the C parser. It writes into a five-slot `array`, where NULL is
  `Unset`, the `TRUE` sentinel is `True` and an allocated string is `Text`.
  It also models `FreeOptions` and `main`.
- `JavaSample` models the Java parser, which builds a fresh map or returns null
  (`None`), and `main`.
- `CppSample` models the C++ parser, which fills a caller's map in place (the
  `OptionMap` class), and `main`.
- `Workflow` holds what the three samples share once `--build` is given:
  - the table layouts, the row each insert writes and the resulting tables;
  - the methods that issue the calls one at a time, proved against those functions;
  - the dispatch of `main` over a working directory, a map from file names to extracts.
- `SampleAgreement` relates the three parsers to each other.
- `ExtractLib` is an assumed model of the closed Extract API library, not of
  visible code. Its rules:
  - a setter succeeds exactly when its index is in range and the column has the
    setter's type;
  - an insert appends a snapshot of the row;
  - a file is written only on close.

The command line given to each parser excludes the program name: the C and C++
`main` pass `argc - 1, argv + 1`, and Java's `main` hands on its `arguments` array
unchanged, which never holds the program name. The samples name the optional spatial column differently:
"Spatial" in C, "Destination" in Java and C++. The model takes that name as a parameter.

Where the prose description and the code differ, the model follows the code:

- The Java usage text gives the default file as 'order-c.hyper', but
  `parseArguments` uses "order-java.hyper". `JavaSample.DefaultFilename` follows the code.
- The C parser does not reject unknown arguments; it skips them. `CSample.ScanSlots`
  never ends with `UnknownArgument`.
- The usage text says `-s` is ignored when an extract is extended. The code does not
  ignore it: populate still writes the spatial column when `-s` is given. The
  second build can therefore fail, always at index 8. Adding -s makes `SetSpatial(8)`
  miss: either index 8 is out of range, or it holds the Integer SupplierKey. Dropping
  -s from a multi-table extract makes `SetInteger(8)` hit the spatial column. `Workflow.ExtendCompatibility`
  states exactly when a second build succeeds on a file that one earlier build
  created from nothing.

## Model

| member | source | states |
|---|---|---|
| CSample.Cleared | extractapi-linux-x86_64-2019_2/share/tableausdk-2019.2.6.199.r40e5865b/samples/TableauSDKSample.c:363-364 | main's options array starts with every one of its five slots NULL |
| CSample.ScanSlots | extractapi-linux-x86_64-2019_2/share/tableausdk-2019.2.6.199.r40e5865b/samples/TableauSDKSample.c:132-153 | the C loop keeps five slots; it never rejects an unknown argument; on help the HELP slot holds TRUE; flag slots only ever hold TRUE |
| CSample.Parse | extractapi-linux-x86_64-2019_2/share/tableausdk-2019.2.6.199.r40e5865b/samples/TableauSDKSample.c:122-164 | the parse fails exactly for an empty command line or a trailing -f; success without help means the scan consumed every argument, and then the FILENAME slot holds a string (the given one or the default) |
| CSample.ParseArguments | extractapi-linux-x86_64-2019_2/share/tableausdk-2019.2.6.199.r40e5865b/samples/TableauSDKSample.c:122-164 | the in-place loop over the options array leaves exactly the slots, and returns exactly the answer, that `Parse` specifies |
| CSample.FreedFrom | extractapi-linux-x86_64-2019_2/share/tableausdk-2019.2.6.199.r40e5865b/samples/TableauSDKSample.c:167-177 | the indices FreeOptions frees are exactly the slots that hold an allocated string, in ascending order; the TRUE sentinel is never freed |
| CSample.FreeOptions | extractapi-linux-x86_64-2019_2/share/tableausdk-2019.2.6.199.r40e5865b/samples/TableauSDKSample.c:167-177 | the loop frees exactly the indices `FreedFrom` names |
| CSample.FreeAfterParse | extractapi-linux-x86_64-2019_2/share/tableausdk-2019.2.6.199.r40e5865b/samples/TableauSDKSample.c:159-177 | after a parse from a cleared array only the filename string is freed, and after a successful parse without help exactly it is freed |
| CSample.RequestOf | extractapi-linux-x86_64-2019_2/share/tableausdk-2019.2.6.199.r40e5865b/samples/TableauSDKSample.c:365-378 | main acts on a command line exactly when it is non-empty and the scan consumes it without meeting help; it then uses the last -f value, or "order-c.hyper", and asks for a build, a spatial column and multi-table mode exactly when the BUILD, SPATIAL and MULTI_TABLE slots end up TRUE |
| CSample.Run | extractapi-linux-x86_64-2019_2/share/tableausdk-2019.2.6.199.r40e5865b/samples/TableauSDKSample.c:359-390 | C main, including the usage exit with status 0 and EXIT_FAILURE on an aborted build, equals the shared dispatch with column name "Spatial" |
| CSample.AgreesWithStrict | extractapi-linux-x86_64-2019_2/share/tableausdk-2019.2.6.199.r40e5865b/samples/TableauSDKSample.c:132-153 | wherever the strict scan meets no unknown argument, the C loop reaches the same verdict and selects the same switches and filename |
| CSample.SlotsAppend | extractapi-linux-x86_64-2019_2/share/tableausdk-2019.2.6.199.r40e5865b/samples/TableauSDKSample.c:132-153 | a prefix that is consumed completely hands its slots on to the rest of the command line |
| CSample.UnknownSkipped | extractapi-linux-x86_64-2019_2/share/tableausdk-2019.2.6.199.r40e5865b/samples/TableauSDKSample.c:132-153 | an unknown argument between switches changes nothing: the scan equals the scan without it |
| CSample.HelpStopsParse | extractapi-linux-x86_64-2019_2/share/tableausdk-2019.2.6.199.r40e5865b/samples/TableauSDKSample.c:133-136 | after -h the parse succeeds with HELP set and no later argument read |
| CSample.DanglingFilenameFails | extractapi-linux-x86_64-2019_2/share/tableausdk-2019.2.6.199.r40e5865b/samples/TableauSDKSample.c:146-150 | a trailing -f makes the parse fail, keeping the slots set before it |
| CSample.FilenameTakesNext | extractapi-linux-x86_64-2019_2/share/tableausdk-2019.2.6.199.r40e5865b/samples/TableauSDKSample.c:146-152 | the argument after -f is the filename and is never read as a switch |
| CSample.LastFilenameWins | extractapi-linux-x86_64-2019_2/share/tableausdk-2019.2.6.199.r40e5865b/samples/TableauSDKSample.c:146-152 | when -f is given more than once, FILENAME holds the last value, whatever arguments other than -f follow it; a command line ending in `-f v` parses successfully |
| CSample.FlagsCommute | extractapi-linux-x86_64-2019_2/share/tableausdk-2019.2.6.199.r40e5865b/samples/TableauSDKSample.c:137-145 | two flag switches may be given in either order |
| CSample.FlagRepeatIdempotent | extractapi-linux-x86_64-2019_2/share/tableausdk-2019.2.6.199.r40e5865b/samples/TableauSDKSample.c:137-145 | repeating a flag switch changes nothing |
| CSample.FilenameSlotKept | extractapi-linux-x86_64-2019_2/share/tableausdk-2019.2.6.199.r40e5865b/samples/TableauSDKSample.c:132-153 | without any -f on the command line the FILENAME slot is left as it was |
| CSample.FlagSlotKept | extractapi-linux-x86_64-2019_2/share/tableausdk-2019.2.6.199.r40e5865b/samples/TableauSDKSample.c:132-153 | once BUILD, SPATIAL or MULTI_TABLE is TRUE, the rest of the loop never clears it |
| CSample.FlagRecorded | extractapi-linux-x86_64-2019_2/share/tableausdk-2019.2.6.199.r40e5865b/samples/TableauSDKSample.c:137-145 | -b, -s or -m read where a switch is expected leaves its slot TRUE, whatever follows |
| CSample.FlagProvenance | extractapi-linux-x86_64-2019_2/share/tableausdk-2019.2.6.199.r40e5865b/samples/TableauSDKSample.c:132-153 | a flag slot the loop leaves TRUE was TRUE before or some argument is that switch |
| CSample.DefaultFilenameUsed | extractapi-linux-x86_64-2019_2/share/tableausdk-2019.2.6.199.r40e5865b/samples/TableauSDKSample.c:159-161 | without any -f, a successful parse without help names "order-c.hyper" |
| Cli.StrictScan | extractapi-linux-x86_64-2019_2/share/tableausdk-2019.2.6.199.r40e5865b/samples/com/tableausoftware/demos/TableauSDKSample.java:73-101 | the strict loop only adds or overwrites keys, keeps an option map well formed (known keys, flags "true"), and on help records "help" = "true" |
| Cli.StrictAppend | extractapi-linux-x86_64-2019_2/share/tableausdk-2019.2.6.199.r40e5865b/samples/com/tableausoftware/demos/TableauSDKSample.java:73-101 | a consumed prefix hands its map on to the rest; a prefix stopped at help or at an unknown argument hides the rest |
| Cli.HelpStops | extractapi-linux-x86_64-2019_2/share/tableausdk-2019.2.6.199.r40e5865b/samples/com/tableausoftware/demos/TableauSDKSample.java:75-78 | after a consumed prefix, -h ends the scan with help recorded and nothing after it read |
| Cli.FlagsCommute | extractapi-linux-x86_64-2019_2/share/tableausdk-2019.2.6.199.r40e5865b/samples/com/tableausoftware/demos/TableauSDKSample.java:79-90 | two flag switches may be given in either order |
| Cli.FlagRepeatIdempotent | extractapi-linux-x86_64-2019_2/share/tableausdk-2019.2.6.199.r40e5865b/samples/com/tableausoftware/demos/TableauSDKSample.java:79-90 | repeating a flag switch changes nothing |
| Cli.FilenameEntryKept | extractapi-linux-x86_64-2019_2/share/tableausdk-2019.2.6.199.r40e5865b/samples/com/tableausoftware/demos/TableauSDKSample.java:73-101 | a scan that meets no -f leaves the "filename" entry as it was |
| Cli.LastFilenameWins | extractapi-linux-x86_64-2019_2/share/tableausdk-2019.2.6.199.r40e5865b/samples/com/tableausoftware/demos/TableauSDKSample.java:91-97 | with -f given more than once, the last value is kept, whatever other switches follow it |
| Cli.FilenameProvenance | extractapi-linux-x86_64-2019_2/share/tableausdk-2019.2.6.199.r40e5865b/samples/com/tableausoftware/demos/TableauSDKSample.java:91-97 | a recorded filename came from the starting map or is an argument right after a -f switch |
| Cli.FlagRecorded | extractapi-linux-x86_64-2019_2/share/tableausdk-2019.2.6.199.r40e5865b/samples/com/tableausoftware/demos/TableauSDKSample.java:79-90 | -b, -s or -m read after a completely consumed prefix puts "build", "spatial" or "multitable" in the map, whatever follows |
| Cli.FlagProvenance | extractapi-linux-x86_64-2019_2/share/tableausdk-2019.2.6.199.r40e5865b/samples/com/tableausoftware/demos/TableauSDKSample.java:73-101 | a flag key in the resulting map was in the starting map or some argument is that switch |
| Cli.UnknownRejected | extractapi-linux-x86_64-2019_2/share/tableausdk-2019.2.6.199.r40e5865b/samples/com/tableausoftware/demos/TableauSDKSample.java:98-99 | an unknown argument ends the scan, keeping the options recorded before it |
| Cli.MissingFilenameRejected | extractapi-linux-x86_64-2019_2/share/tableausdk-2019.2.6.199.r40e5865b/samples/com/tableausoftware/demos/TableauSDKSample.java:93-95 | a trailing -f ends the scan with a missing filename |
| JavaSample.Parse | extractapi-linux-x86_64-2019_2/share/tableausdk-2019.2.6.199.r40e5865b/samples/com/tableausoftware/demos/TableauSDKSample.java:64-111 | parseArguments returns a map exactly when the command line is non-empty and the strict scan completes or stops at help; the map is well formed and has "help" or a "filename" |
| JavaSample.ParseArguments | extractapi-linux-x86_64-2019_2/share/tableausdk-2019.2.6.199.r40e5865b/samples/com/tableausoftware/demos/TableauSDKSample.java:64-111 | the Java loop returns exactly what `Parse` specifies |
| JavaSample.DefaultFilenameUsed | extractapi-linux-x86_64-2019_2/share/tableausdk-2019.2.6.199.r40e5865b/samples/com/tableausoftware/demos/TableauSDKSample.java:106-108 | without any -f, a successful parse without help names "order-java.hyper" |
| JavaSample.FilenameFromCommandLine | extractapi-linux-x86_64-2019_2/share/tableausdk-2019.2.6.199.r40e5865b/samples/com/tableausoftware/demos/TableauSDKSample.java:91-108 | the parsed filename is the default or an argument that followed a -f switch |
| JavaSample.RequestOf | extractapi-linux-x86_64-2019_2/share/tableausdk-2019.2.6.199.r40e5865b/samples/com/tableausoftware/demos/TableauSDKSample.java:276-290 | main acts on a command line exactly when it is non-empty and the strict scan completes; it then uses the last -f value, or "order-java.hyper", and asks for a build, a spatial column and multi-table mode exactly when the scan recorded "build", "spatial" and "multitable" |
| JavaSample.Run | extractapi-linux-x86_64-2019_2/share/tableausdk-2019.2.6.199.r40e5865b/samples/com/tableausoftware/demos/TableauSDKSample.java:274-314 | Java main, with status -1 on an aborted build, equals the shared dispatch with column name "Destination" |
| CppSample.OptionMap.constructor | extractapi-linux-x86_64-2019_2/share/tableausdk-2019.2.6.199.r40e5865b/samples/TableauSDKSample.cpp:264 | main's std::map starts empty |
| CppSample.Parse | extractapi-linux-x86_64-2019_2/share/tableausdk-2019.2.6.199.r40e5865b/samples/TableauSDKSample.cpp:66-116 | over the corrected `-f` guard, ParseArguments answers true exactly when the command line is non-empty and the strict scan completes or stops at help; entries written before a failure stay in the caller's map |
| CppSample.ParseArguments | extractapi-linux-x86_64-2019_2/share/tableausdk-2019.2.6.199.r40e5865b/samples/TableauSDKSample.cpp:66-116 | the loop over the caller's map leaves exactly the entries, and returns exactly the answer, that `Parse` specifies (with the -f guard corrected, see Findings) |
| CppSample.AsWritten | extractapi-linux-x86_64-2019_2/share/tableausdk-2019.2.6.199.r40e5865b/samples/TableauSDKSample.cpp:74-105 | the loop as written never reports a missing filename; it reads past the end of the arguments only when the last argument is -f |
| CppSample.AsWrittenReadsPastEnd | extractapi-linux-x86_64-2019_2/share/tableausdk-2019.2.6.199.r40e5865b/samples/TableauSDKSample.cpp:93-100 | the loop as written matches the strict scan everywhere except where a value for -f is missing, and there it reads past the last argument |
| CppSample.TrailingFilenameSwitch | extractapi-linux-x86_64-2019_2/share/tableausdk-2019.2.6.199.r40e5865b/samples/TableauSDKSample.cpp:93-100 | on `-b -f` the intended loop reports a missing filename, while the loop as written reads past the end |
| CppSample.RequestOf | extractapi-linux-x86_64-2019_2/share/tableausdk-2019.2.6.199.r40e5865b/samples/TableauSDKSample.cpp:264-280 | main, over the corrected parser, acts on a command line exactly when it is non-empty and the strict scan completes; it then uses the last -f value, or "order-cpp.hyper", and asks for a build, a spatial column and multi-table mode exactly when the scan recorded "build", "spatial" and "multitable" |
| CppSample.Run | extractapi-linux-x86_64-2019_2/share/tableausdk-2019.2.6.199.r40e5865b/samples/TableauSDKSample.cpp:261-290 | C++ main over the corrected parser, with EXIT_FAILURE on an aborted build, equals the shared dispatch with column name "Destination" |
| SampleAgreement.JavaAndCppAgree | extractapi-linux-x86_64-2019_2/share/tableausdk-2019.2.6.199.r40e5865b/samples/com/tableausoftware/demos/TableauSDKSample.java:64-111 | the Java sample and the corrected C++ parser accept the same command lines with the same switches and filename, apart from their own default names |
| SampleAgreement.CAgreesWithJava | extractapi-linux-x86_64-2019_2/share/tableausdk-2019.2.6.199.r40e5865b/samples/TableauSDKSample.c:132-153 | without unknown arguments, the C sample reaches the Java sample's decision with the same switches and filename, apart from the default name |
| SampleAgreement.CAcceptsWhatJavaAccepts | extractapi-linux-x86_64-2019_2/share/tableausdk-2019.2.6.199.r40e5865b/samples/TableauSDKSample.c:132-153 | every command line the Java sample acts on, the C sample acts on too, with the same switches, and with the same file when -f is given |
| Workflow.ProductsLayout | extractapi-linux-x86_64-2019_2/share/tableausdk-2019.2.6.199.r40e5865b/samples/TableauSDKSample.c:226-239 | the main table has the eight fixed columns (binary collation, "Produkt" German), then a spatial column exactly under -s, then an Integer SupplierKey exactly under -m; every setter populate calls on it is accepted |
| Workflow.SuppliersLayout | extractapi-linux-x86_64-2019_2/share/tableausdk-2019.2.6.199.r40e5865b/samples/TableauSDKSample.c:266-269 | Suppliers has three columns, SupplierKey Integer, Supplier and Address CharString, and accepts every setter populate calls on it |
| Workflow.CreatedOrOpened | extractapi-linux-x86_64-2019_2/share/tableausdk-2019.2.6.199.r40e5865b/samples/TableauSDKSample.c:216-277 | create-or-open adds the main table (named by -m), and under -m the Suppliers table, only when missing, each with its layout and no rows; existing tables are untouched |
| Workflow.CreateOrOpenExtract | extractapi-linux-x86_64-2019_2/share/tableausdk-2019.2.6.199.r40e5865b/samples/TableauSDKSample.c:183-278 | the HasTable / define / AddTable calls leave exactly the tables `CreatedOrOpened` specifies |
| Workflow.CreateMainTable | extractapi-linux-x86_64-2019_2/share/tableausdk-2019.2.6.199.r40e5865b/samples/TableauSDKSample.c:197-250 | the main-table block adds the table with its layout and no rows when the extract lacks it, and otherwise changes nothing |
| Workflow.CreateSuppliersTable | extractapi-linux-x86_64-2019_2/share/tableausdk-2019.2.6.199.r40e5865b/samples/TableauSDKSample.c:252-277 | the Suppliers block adds the table with its layout and no rows when the extract lacks it, and otherwise changes nothing |
| Workflow.WithTable | extractapi-linux-x86_64-2019_2/share/tableausdk-2019.2.6.199.r40e5865b/samples/TableauSDKSample.c:216-249 | a table is added only where its name is missing; every table already present is kept as it was |
| Workflow.DefineMainTable | extractapi-linux-x86_64-2019_2/share/tableausdk-2019.2.6.199.r40e5865b/samples/TableauSDKSample.c:222-239 | the definition calls build exactly the main table's layout |
| Workflow.DefineSuppliersTable | extractapi-linux-x86_64-2019_2/share/tableausdk-2019.2.6.199.r40e5865b/samples/TableauSDKSample.c:265-269 | the definition calls build exactly the Suppliers layout |
| Workflow.PopulateExtract | extractapi-linux-x86_64-2019_2/share/tableausdk-2019.2.6.199.r40e5865b/samples/TableauSDKSample.c:284-354 | populate runs to the end exactly when every table it opens exists and accepts every setter, and then appends exactly the planned rows |
| Workflow.PopulateMainTable | extractapi-linux-x86_64-2019_2/share/tableausdk-2019.2.6.199.r40e5865b/samples/TableauSDKSample.c:296-332 | the main-table block succeeds exactly when its table accepts the preamble and loop setters, and then appends the ten planned rows |
| Workflow.InsertMainRows | extractapi-linux-x86_64-2019_2/share/tableausdk-2019.2.6.199.r40e5865b/samples/TableauSDKSample.c:321-328 | the ten-iteration loop appends ten row snapshots with Quantity i*10, Taxed i odd and, under -m, SupplierKey i mod 3 |
| Workflow.SetPreamble | extractapi-linux-x86_64-2019_2/share/tableausdk-2019.2.6.199.r40e5865b/samples/TableauSDKSample.c:311-320 | the setters before the loop succeed exactly when the columns accept them, and then fill columns 0-3, 6, 7 and, under -s, 8 |
| Workflow.SetLoopFields | extractapi-linux-x86_64-2019_2/share/tableausdk-2019.2.6.199.r40e5865b/samples/TableauSDKSample.c:322-326 | the per-iteration setters succeed exactly when the columns accept them, and then overwrite only Quantity, Taxed and the SupplierKey |
| Workflow.PopulateSuppliersTable | extractapi-linux-x86_64-2019_2/share/tableausdk-2019.2.6.199.r40e5865b/samples/TableauSDKSample.c:334-353 | the Suppliers block succeeds exactly when the table exists and accepts its setters, and then appends three rows |
| Workflow.Build | extractapi-linux-x86_64-2019_2/share/tableausdk-2019.2.6.199.r40e5865b/samples/TableauSDKSample.c:378-379 | a completed create-or-open and populate leaves the extract with its earlier tables plus the main table, and under -m Suppliers; every other table is unchanged |
| Workflow.BuildExtract | extractapi-linux-x86_64-2019_2/share/tableausdk-2019.2.6.199.r40e5865b/samples/TableauSDKSample.c:371-386 | the --build branch of main (open, create-or-open, populate, close) ends exactly in the outcome, status and directory `BuildOutcome` specifies |
| Workflow.BuildOutcome | extractapi-linux-x86_64-2019_2/share/tableausdk-2019.2.6.199.r40e5865b/samples/TableauSDKSample.c:371-386 | a build either completes or aborts; the status is 0 exactly when it completes; an aborted build writes nothing; a completed one writes only the named file |
| Workflow.Stored | extractapi-linux-x86_64-2019_2/share/tableausdk-2019.2.6.199.r40e5865b/samples/TableauSDKSample.c:382 | closing the extract writes it under its file name and leaves every other file as it was |
| Workflow.Dispatch | extractapi-linux-x86_64-2019_2/share/tableausdk-2019.2.6.199.r40e5865b/samples/TableauSDKSample.c:365-386 | main exits non-zero exactly when the build aborts; it shows usage exactly when parsing gives no request and does no work without --build; only a completed build writes, and only to the named file |
| Workflow.RefillMainRow | extractapi-linux-x86_64-2019_2/share/tableausdk-2019.2.6.199.r40e5865b/samples/TableauSDKSample.c:321-328 | the row reused across iterations holds the same cells whatever the previous iteration left in it, so each inserted snapshot depends only on i |
| Workflow.CreateOrOpenIdempotent | extractapi-linux-x86_64-2019_2/share/tableausdk-2019.2.6.199.r40e5865b/samples/TableauSDKSample.c:216-222 | opening an extract a second time with the same switches changes nothing |
| Workflow.MainRowConforms | extractapi-linux-x86_64-2019_2/share/tableausdk-2019.2.6.199.r40e5865b/samples/TableauSDKSample.c:311-328 | every main row populate inserts fits the types of the main table's columns |
| Workflow.SupplierRowConforms | extractapi-linux-x86_64-2019_2/share/tableausdk-2019.2.6.199.r40e5865b/samples/TableauSDKSample.c:343-349 | every supplier row fits the Suppliers columns |
| Workflow.PopulateKeepsRowsConforming | extractapi-linux-x86_64-2019_2/share/tableausdk-2019.2.6.199.r40e5865b/samples/TableauSDKSample.c:284-354 | populate keeps every row of every table well typed |
| Workflow.BuildKeepsRowsConforming | extractapi-linux-x86_64-2019_2/share/tableausdk-2019.2.6.199.r40e5865b/samples/TableauSDKSample.c:369-383 | a build keeps every row of the extract well typed |
| Workflow.MissingTablesBuildSucceeds | extractapi-linux-x86_64-2019_2/share/tableausdk-2019.2.6.199.r40e5865b/samples/TableauSDKSample.c:215-277 | whenever the tables a build needs are all missing, the build creates them and populate succeeds |
| Workflow.FreshBuildSucceeds | extractapi-linux-x86_64-2019_2/share/tableausdk-2019.2.6.199.r40e5865b/samples/TableauSDKSample.c:215-277 | a build of a new file always succeeds, for every combination of -s and -m |
| Workflow.FreshBuild | extractapi-linux-x86_64-2019_2/share/tableausdk-2019.2.6.199.r40e5865b/samples/TableauSDKSample.c:215-277 | a new file holds exactly the main table, and under -m Suppliers, with their layouts and exactly the planned rows |
| Workflow.SupplierKeysResolve | extractapi-linux-x86_64-2019_2/share/tableausdk-2019.2.6.199.r40e5865b/samples/TableauSDKSample.c:321-349 | in a new multi-table extract every product's SupplierKey names one of the three supplier rows |
| Workflow.SameModeRebuild | extractapi-linux-x86_64-2019_2/share/tableausdk-2019.2.6.199.r40e5865b/samples/TableauSDKSample.c:311-326 | rebuilding tables an earlier build laid out in the same mode succeeds unless -s is added, or is dropped while a SupplierKey follows the spatial column |
| Workflow.ExtendCompatibility | extractapi-linux-x86_64-2019_2/share/tableausdk-2019.2.6.199.r40e5865b/samples/TableauSDKSample.c:87-88 | rebuilding a file that one earlier build created from nothing succeeds exactly when -m changed, or -s is the same, or -s was dropped from a single-table build; -s is therefore not ignored on extension |
| Workflow.PopulatedRows | extractapi-linux-x86_64-2019_2/share/tableausdk-2019.2.6.199.r40e5865b/samples/TableauSDKSample.c:321-328 | populate keeps the main table's existing rows and appends ten rows, each exactly the planned row for its i, with Quantity i*10, Taxed i odd and SupplierKey i mod 3; other tables are untouched |
| Workflow.PopulatedSupplierRows | extractapi-linux-x86_64-2019_2/share/tableausdk-2019.2.6.199.r40e5865b/samples/TableauSDKSample.c:346-349 | populate keeps the existing supplier rows and appends three with keys 0, 1, 2 |
| Workflow.NewFileIsBuilt | extractapi-linux-x86_64-2019_2/share/tableausdk-2019.2.6.199.r40e5865b/samples/TableauSDKSample.c:369-383 | a build request for a new file always succeeds and writes exactly the fresh extract under that name |
| Workflow.RepeatedRequest | extractapi-linux-x86_64-2019_2/share/tableausdk-2019.2.6.199.r40e5865b/samples/TableauSDKSample.c:369-383 | running a build twice on the same file: the second run succeeds exactly under the condition `ExtendCompatibility` states |
| Workflow.DispatchKeepsRowsConforming | extractapi-linux-x86_64-2019_2/share/tableausdk-2019.2.6.199.r40e5865b/samples/TableauSDKSample.c:365-386 | if every extract in the directory has well-typed rows, it still has after any run |

The Java `createOrOpenExtract` and `populateExtract` (extractapi-linux-x86_64-2019_2/share/tableausdk-2019.2.6.199.r40e5865b/samples/com/tableausoftware/demos/TableauSDKSample.java:119-267), and the
C++ `CreateExtract` and `PopulateExtract` (extractapi-linux-x86_64-2019_2/share/tableausdk-2019.2.6.199.r40e5865b/samples/TableauSDKSample.cpp:121-256), issue the same calls as
the C functions cited above. The `Workflow` rows model them too; only the spatial
column's name differs.

## Left out

- The Extract API's internals are not part of this model. `ExtractLib` is an assumed interface.
  - Definition building (`AddColumn`) never fails.
  - `AddTable` succeeds exactly when the table is missing. `Insert` succeeds exactly when the table exists with the row's definition. The samples call them only in those cases.
  - The only failure modelled is a setter rejected for an index or type mismatch.
  - Out-of-memory, disk and licence errors are not modelled.
- Values are abstract. Dates, date-times, the Double 1.08 and the WKT string are kept
  as tagged constants, not as the library's encodings.
- Wide-string conversion is not modelled, because strings are `seq<char>` here:
  - C's `CreateTableauStringOption`, including its buffer sizing;
  - C++'s `from_bytes`, which can throw on invalid UTF-8.
- Printing the usage text and diagnostics, stack traces, and the exception machinery
  are left out. An aborted build is the `Aborted` outcome with the sample's failure status.
- `ExtractAPI.initialize`/`cleanup` and `TabExtractAPIInitialize`/`Cleanup` are left out:
  they have no effect on the extract's contents.
- The C leak when `-f` is given twice is not modelled: the earlier filename string is
  overwritten without being freed. `CSample.FreeOptions` models only what is freed at exit.
- Closing row and table-definition handles (`TabRowClose`, `TabTableDefinitionClose`)
  is not modelled, because they free memory only.
- The programs under src/ (the stress tests, the long-run test and their utilities)
  are not part of this model.
- CppSample.Parse: is stated over the corrected `-f` guard. As written, a trailing `-f` makes ParseArguments read past the last argument rather than answer false; `CppSample.AsWritten` models that loop.
- CppSample.Run: is stated over the corrected parser. On a trailing `-f` the program as written reads past the last argument. The model shows the usage text instead.
- CppSample.RequestOf: is stated over the corrected parser, for the same reason as `CppSample.Run`.
- SampleAgreement.JavaAndCppAgree: compares Java with the corrected C++ parser. As written, the two differ on a trailing `-f`: Java shows the usage text, while C++ reads past the last argument.
- CppSample.ParseArguments: models the loop with the corrected `-f` guard rather than
  the guard as written. The as-written loop, `CppSample.AsWritten`, is modelled beside it; see Findings.

## Findings

| source | as written | input that shows it | evidently intended | confidence | as-written member | corrected member |
|---|---|---|---|---|---|---|
| extractapi-linux-x86_64-2019_2/share/tableausdk-2019.2.6.199.r40e5865b/samples/TableauSDKSample.cpp:95 | `if (i >= argc)` tests the index of `-f` itself, which is always in range inside the loop, so `argv[++i]` reads one past the last argument (the NULL after argv) when `-f` is last | `-b -f` | `if (i + 1 >= argc)`, as in the Java sample, rejecting a trailing `-f` | not executed | CppSample.AsWrittenReadsPastEnd | CppSample.ParseArguments |
