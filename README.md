# ELMcase: a verified model of OLMT's case builder

OLMT (the offline land model testbed) drives E3SM Land Model (ELM) runs through one
object, `ELMcase` (`model_ELM/main.py`). An `ELMcase` is created with defaults for the
resolution, region, case id, machine and start year. Its methods then work through a
fixed sequence:

1. choose the meteorological forcing and its directory, and read the forcing years
   (`get_forcing`, `get_metdata_year_range`);
2. name the case and create it, deciding what to do with a case directory that already
   exists (`create_case`);
3. record the surface, domain and land-use files (`setup_domain_surfdata`);
4. configure the case through a sequence of `xmlchange` directives and `user_nl_elm`
   namelist overrides (`setup_case`, `xmlchange`, `customize_namelist`);
5. rewrite the Macros files and the data-atmosphere stream files;
6. build the case (`build_case`), then submit it and read back the job number
   (`submit_case`).

Stripped of its shell calls, this is a configuration compiler made of string and table
rules. The model keeps those rules and the order in which the object's attributes are
assigned.

Modules (one per file):

- `Wrappers` (`wrappers.dfy`): `Option`, `Result` and `Failure`. A `Failure` is a
  `sys.exit` with its message, a raised Python exception (IndexError, ValueError,
  AttributeError, TypeError, UnboundLocalError, ZeroDivisionError) or the read of an attribute no method
  has assigned yet.
- `PyStr` (`pystr.dfy`): the Python string operations the code uses, with their
  properties. These are `in`, `replace`, `split(c)`, `join`, `strip`, `split()`, `str`
  and `int` of integers, and negative slices.
- `CaseRules` (`case_rules.dfy`): the pure decisions. These are the constructor
  defaults, the case name, `is_bypass`, the restart path and date stamps, the root
  check, the collision decision, the create_newcase command, the generated and supplied
  files, the submission argv and the job-number parse.
- `Forcing` (`forcing.dfy`): the forcing choice, the `metinfo.txt` scan, the site-table
  scan and the year range.
- `Namelist` (`namelist.dfy`): the override line format, and what a reader of
  `user_nl_elm` sees (the last setting of a name wins). It also holds
  `get_namelist_variable`.
- `Directives` (`directives.dfy`): `xmlchange` directives, the last setting of a
  variable, the processor loop and the domain path split.
- `Rewriters` (`rewriters.dfy`): the Macros rewrite and the datm_in, aerosol, CO2 and
  CLM1PT stream rewrites, as functions over lines, with loop methods proved equal to
  them.
- `SetupCase` (`setup_case.dfy`): `setup_case` as a trace of directives, namelist lines
  and an optional failure, built stage by stage, with the exact conditions under which
  it completes.
- `SetupSettings` (`setup_settings.dfy`): what a completed `setup_case` leaves set. This
  covers the start date, the coupling interval, the data-atmosphere mode, the run
  length, the processor layout, the domain location and the forcing overrides.
- `ElmCase` (`elm_case.dfy`): the class `ElmCase`. Its fields are the object's
  attributes; those assigned after construction are `Option`s. It keeps the
  directive log and the `user_nl_elm` log as `seq` fields that its methods append to.
  Each method is proved against the functions of the other modules.

Files and outside programs enter as values:

- `metinfo.txt`, lnd_in, datm_in, the stream templates and a namelist file are
  sequences of lines.
- The site table is a sequence of rows.
- Which directories exist is a set.
- The operator's reply is a string.
- The exit status of case.setup and case.build is a number.
- Whether create_newcase left a directory is a boolean.
- The scheduler's output is a string.

Quirks of the code are modelled as written:

- **`is_bypass` is never called at most guards.** The source tests `self.is_bypass`
  without calling it (main.py:134, 142, 428, 450, 457, 503, 518, 560). A bound method is
  always truthy, so these guards are constant:
  - the metinfo and GSWP3 forcing directories always get `/cpl_bypass_full`;
  - the four bypass namelist overrides are always written;
  - the Macros rewrite always runs, and its CPPDEFS test (main.py:457) reduces to
    `'CPPDEFS' in s`;
  - `build_case` never calls the stream rewrite;
  - the aerosol rewrite is never reached.
  Only main.py:340 calls it, so the data-atmosphere mode depends on the compset there.
- **Non-bypass site forcing raises TypeError.** For a non-bypass compset with site
  forcing, main.py:345 concatenates an integer year to a string, and `setup_case` raises
  there.
- **The FATES branch raises.** For an ED or FATES compset, `setup_case`
  (main.py:421-423) reads a FATES parameter file attribute that no modelled method
  assigns, which raises AttributeError. When that attribute is set and non-empty,
  main.py:422 calls `set_fates_param_file()`, which at main.py:192 calls
  `self.get_namelist_variable(self, 'fates_paramfile')`: `self` is passed twice, so it
  raises TypeError.
- **The end year at main.py:302 is dead.** It is computed and never used.
- **The restart stamp comes from the argument.** `set_finidat_file` builds the stamp
  for a given restart path from its `finidat_year` argument (main.py:206), not from the
  year it has just read from the path.
- **The start date is unpadded.** `RUN_STARTDATE` is `str(startyear) + '-01-01'`
  (main.py:336), so year 1 gives `1-01-01`.
- **The site forcing directory has no bypass subdirectory.** The site directory is
  `<inputdata>/atm/datm7/CLM1PT_data/1x1pt_<site>` (main.py:126), without the
  `/cpl_bypass_full` that the metinfo directory (main.py:134) and the GSWP3 directory
  (main.py:142) end in.

## Model

| member | source | states |
|---|---|---|
| CaseRules.DefaultRes | model_ELM/main.py:26-33 | an empty resolution becomes `r05_r05` exactly for a case without a site and `ELM_USRDAT` exactly for a site; a given one is kept |
| CaseRules.DefaultRegion | model_ELM/main.py:34-36 | the region is the given name when there is one, `region` otherwise |
| CaseRules.DefaultCaseId | model_ELM/main.py:41-46 | an empty case id becomes the date stamp passed in; a given one is kept |
| CaseRules.DefaultMachine | model_ELM/main.py:92-98 | a given machine is kept; otherwise the machine is assigned exactly when the host name contains `baseline`, and then it is `cades-baseline` |
| CaseRules.DefaultStartYear | model_ELM/main.py:59-67 | with start year -1 the year is 1 iff the compset says 1850, else 1850 iff the compset says 20TR or the suffix says trans, else 2000; any other value is kept |
| CaseRules.CaseName | model_ELM/main.py:212-215 | the case name starts with the case id and an underscore and ends with the suffix; CaseNameCarriesMarker shows the compset and site or region in it |
| CaseRules.CaseNameCarriesMarker | model_ELM/main.py:212-215 | any marker in the compset or suffix (ad_spinup, trans, 20TR) is in the case name built from them |
| CaseRules.DefaultTransientStartIsTransientName | model_ELM/main.py:59-67 | a case whose default start year is 1850 has a transient case name |
| CaseRules.IsBypass | model_ELM/main.py:156-161 | a compset is coupler-bypass iff it contains CBCN, ICB or CLM45CB; the uncalled `self.is_bypass` guards are constant true in the model |
| CaseRules.YearStamp | model_ELM/main.py:199-205 | `str(10000+y)[1:]`; for a year in 0..9999 it is the four-digit zero-padded year (YearStampPadded) |
| CaseRules.Pad4Value | model_ELM/main.py:199 | a year in 0..9999 stamped with four digits reads back as the same year |
| CaseRules.YearStampPadded | model_ELM/main.py:199 | `str(10000 + y)[1:]` is the four-digit zero-padded year, and parses back to y |
| CaseRules.RestartPath | model_ELM/main.py:199-205 | the restart file of a finidat case; RestartPathRoundTrip reads the year back out of it |
| CaseRules.RestartPathRoundTrip | model_ELM/main.py:199-205 | the year read from characters -19..-15 of the case-derived restart path is the year it was built from, and RUN_REFDATE is the padded year plus `-01-01` |
| CaseRules.RootCheck | model_ELM/main.py:100-112 | the check passes iff all four roots exist; otherwise it exits with the message of the first missing one, in the order model, input data, run, case root |
| CaseRules.CollisionDecision | model_ELM/main.py:219-225 | no existing directory proceeds; an empty reply raises IndexError; first character `r` removes, `x` exits, anything else proceeds |
| CaseRules.CreateNewcaseCommandOptions | model_ELM/main.py:233-241 | the command starts with the base arguments and contains ` --project p` and ` --compiler c` when those are non-empty |
| CaseRules.CreateNewcaseCommand | model_ELM/main.py:233-241 | the create_newcase command; CreateNewcaseCommandOptions shows the base command first and the project and compiler flags exactly when given |
| CaseRules.GeneratedFiles | model_ELM/main.py:262-267 | a file is generated iff no file was supplied and its make flag is set (land use also needs pftdyn enabled) |
| CaseRules.SuppliedFiles | model_ELM/main.py:268-279 | a file is recorded as supplied iff its argument is non-empty |
| CaseRules.GeneratedAndSuppliedDisjoint | model_ELM/main.py:262-279 | no file is both generated and supplied |
| CaseRules.SubmitArgv | model_ELM/main.py:613-623 | the argv is the submit script (ensemble or not) alone, or followed by `--prereq` and the dependency iff depend > 0 and Slurm is used |
| CaseRules.SubmitDependencyVerbatim | model_ELM/main.py:620-621 | the dependency argument parses back to the job id given |
| CaseRules.ParseJobNumber | model_ELM/main.py:626-631 | without Slurm the job number is 0; with Slurm an empty output raises IndexError, otherwise the job number is the integer value of the last token, and a last token that is not an integer raises ValueError |
| CaseRules.JobNumberOfSubmitLine | model_ELM/main.py:626-628 | output whose stripped text ends in a space and an integer yields that integer |
| CaseRules.JobNumberOfBareId | model_ELM/main.py:626-628 | output that is only the job id yields that id |
| Forcing.LastMetinfoMatch | model_ELM/main.py:131-135 | the index returned is the last line naming the forcing type, and no later line names it |
| Forcing.MetinfoScan | model_ELM/main.py:131-135 | the metinfo scan; MetinfoScanFailsIff, MetinfoLastMatchWins and MetinfoScanStaysFailed state its failure and result |
| Forcing.MetinfoScanFailsIff | model_ELM/main.py:131-135 | the metinfo.txt scan raises exactly when some line naming the type has no `:` |
| Forcing.MetinfoLastMatchWins | model_ELM/main.py:131-135 | a successful scan sets the directory from the last line naming the type (input root, its stripped path, the bypass subdirectory), or leaves it unchanged when no line does |
| Forcing.MetinfoScanStaysFailed | model_ELM/main.py:131-135 | once the scan has raised, later lines change nothing |
| Forcing.ResolveForcing | model_ELM/main.py:120-153 | the forcing is always set, and is the type whenever one is given; it is `site` iff the type is `site` or a site has no type; a site with no type and no directory gets `site` and the CLM1PT site directory; nothing given gets `gswp3` and the GSWP3 directory; another type with no directory takes the directory and the failure of the metinfo scan; a given directory is kept; it exits iff a directory is given without a type and without a site, or the metinfo scan fails |
| Forcing.IntColumn | model_ELM/main.py:289-293 | a column reads as an integer iff it exists and parses |
| Forcing.LastSiteRow | model_ELM/main.py:287-288 | the index returned is the last row of the site, and no later row is |
| Forcing.SiteScan | model_ELM/main.py:287-293 | the site-table scan; SiteScanLastRowWins, SiteScanTimezone, SiteScanBlankRowFails and SiteScanStaysFailed state its result |
| Forcing.SiteScanLastRowWins | model_ELM/main.py:287-293 | a scan without exception takes start, end and align years from columns 6-8 of the last row of the site (and the UTC offset from column 9 of a ten-column row); with no such row nothing changes |
| Forcing.SiteScanTimezone | model_ELM/main.py:292-293 | the UTC offset changes only through a row of exactly ten columns |
| Forcing.SiteScanBlankRowFails | model_ELM/main.py:288 | a blank row anywhere raises IndexError |
| Forcing.SiteScanStaysFailed | model_ELM/main.py:287-293 | once the scan has raised, later rows change nothing |
| Forcing.ReanalysisStartYear | model_ELM/main.py:297-301 | 1948 iff the forcing says Qian (checked last, so it wins), 1980 iff daymet without Qian, 1901 otherwise |
| Forcing.FinishYearRange | model_ELM/main.py:294-305 | completes iff both years are assigned (and, off site forcing, the case is named); site forcing gives spinup end - start + 1; otherwise start from the reanalysis rule, end 2014 only for a transient name, spinup 20 |
| Forcing.RegionalYearRangeUnassigned | model_ELM/main.py:294 | with the end year never assigned, the spinup computation raises AttributeError and nothing changes |
| Namelist.QuoteUnpadded | model_ELM/main.py:381-434 | a quoted value has no leading or trailing blanks |
| Namelist.OverrideRoundTrip | model_ELM/main.py:487 | the line ` name = value` parses back to the same name and value |
| Namelist.OverrideWins | model_ELM/main.py:480-488 | after an override is appended, a reader of user_nl_elm sees its value for that name |
| Namelist.OverrideKeepsOthers | model_ELM/main.py:480-488 | appending an override changes what a reader sees for no other name |
| Namelist.GetNamelistVariable | model_ELM/main.py:163-170 | the loop over lnd_in returns what NamelistVariable specifies |
| Namelist.NamelistVariable | model_ELM/main.py:163-170 | the lnd_in lookup; NamelistVariableLastMatch and NamelistVariableOfLine state its value and its errors |
| Namelist.LastContaining | model_ELM/main.py:167-169 | the index returned is the last line containing the name, and no later line contains it |
| Namelist.NamelistScanFailsIff | model_ELM/main.py:167-169 | the lookup raises IndexError exactly when some line containing the name has no `=` |
| Namelist.NamelistScanStaysFailed | model_ELM/main.py:167-169 | once the lookup has raised, later lines change nothing |
| Namelist.NamelistVariableLastMatch | model_ELM/main.py:163-170 | when every matching line has `=`, the last one gives the text after its first `=` minus the final character; with no matching line the local is unbound |
| Namelist.NamelistVariableOfLine | model_ELM/main.py:169-170 | a `name = value` line yields the value with its last character dropped |
| Directives.XmlChange | model_ELM/main.py:308-313 | one replacing directive when the value is non-empty, else one appending directive when the append text is non-empty, else none |
| Directives.LastSetConcat | model_ELM/main.py:308-313 | a later setting of a variable overrides an earlier one; without one the earlier stands |
| Directives.LastSetUntouched | model_ELM/main.py:308-313 | directives that never name a variable leave its setting unchanged |
| Directives.ProcessorDirectivesAt | model_ELM/main.py:358-361 | for component i in list order, directive 2i sets `NTASKS_c` to np and 2i+1 sets `NTHRDS_c` to 1 |
| Directives.ProcessorVariables | model_ELM/main.py:358-361 | every directive of the processor loop replaces a task or thread count |
| Directives.DirNameBaseName | model_ELM/main.py:442-447 | for a path with `/`, the directory part, `/` and the file part give the path back |
| Directives.DirNameBaseNameFlat | model_ELM/main.py:442-443 | a path without `/` has an empty directory part and is its own file part |
| Rewriters.MacroLineCppdefs | model_ELM/main.py:457-459 | a CPPDEFS line keeps all but its last character and gains ` -DCPL_BYPASS` and a newline |
| Rewriters.MacroLine | model_ELM/main.py:456-463 | one Macros line; MacroLineCppdefs and MacroLinePassThrough state the CPPDEFS and unchanged cases |
| Rewriters.MacroLinePassThrough | model_ELM/main.py:456-463 | a line without CPPDEFS, llapack or mcmodel=medium is unchanged |
| Rewriters.MacroRewrite | model_ELM/main.py:452-466 | one output line per input line, in order, each rewritten by the first matching rule |
| Rewriters.RewriteMacros | model_ELM/main.py:452-466 | the line loop writes exactly MacroRewrite of the file |
| Rewriters.UniversalCmake | model_ELM/main.py:467-468 | the cmake file keeps its lines and gains one that adds to CPPDEFS |
| Rewriters.StreamLine | model_ELM/main.py:522-556 | a datm_in line is dropped exactly when it mentions streams but is not the `streams =` line |
| Rewriters.DatmRewrite | model_ELM/main.py:522-556 | the rewritten user_nl_datm never has more lines than the input; the DatmRewrite lemmas state the rest |
| Rewriters.RewriteDatmIn | model_ELM/main.py:522-556 | the line loop writes exactly DatmRewrite of datm_in |
| Rewriters.TaxmodeLineMarkers | model_ELM/main.py:547-554 | the replacement taxmode line mentions taxmode and not streams |
| Rewriters.DatmRewriteKeepsPlainLines | model_ELM/main.py:522-556 | lines mentioning neither streams nor taxmode pass through unchanged and in order |
| Rewriters.DatmRewriteIdempotent | model_ELM/main.py:522-556 | rewriting user_nl_datm again changes nothing |
| Rewriters.DatmRewriteConcat | model_ELM/main.py:522-556 | the rewrite works line by line: the rewrite of two pieces is the rewrites joined |
| Rewriters.AerosolRewrite | model_ELM/main.py:564-568 | one output line per template line, each given by the aerosol rule |
| Rewriters.AerosolRewriteIdempotent | model_ELM/main.py:564-568 | rewriting the aerosol stream again changes nothing |
| Rewriters.Co2Rewrite | model_ELM/main.py:575-579 | one output line per template line, a `.nc` line becoming six spaces, the CO2 file and a newline |
| Rewriters.Co2RewriteIdempotent | model_ELM/main.py:575-579 | with a `.nc` CO2 file, rewriting again changes nothing |
| Rewriters.Clm1ptLine | model_ELM/main.py:586-596 | a CLM1PT line is dropped exactly when it has no data directory, the compset is FATES and it carries FLDS |
| Rewriters.Clm1ptRewrite | model_ELM/main.py:586-596 | the rewritten CLM1PT stream never has more lines than the input |
| Rewriters.SwapPointDirs | model_ELM/main.py:587-591 | the three replacements of a CLM1PT line; SwapPointDirsExchange states what they do |
| Rewriters.SwapPointDirsExchange | model_ELM/main.py:587-591 | on a line where `CLM1PT_data` occurs once and the point token occurs once after it, the two change places and the rest of the line is kept |
| PyStr.ReplaceFirst | model_ELM/main.py:587-591 | `str.replace` replaces the first occurrence of the pattern and keeps the text before it |
| Rewriters.Clm1ptRewriteKeepsCount | model_ELM/main.py:586-596 | without FATES the CLM1PT stream keeps every line in place: a line with the data directory is swapped, every other line is copied unchanged |
| SetupCase.Emit | model_ELM/main.py:308-313 | issuing extends the trace, appending the directives unless the trace has already stopped |
| SetupCase.Write | model_ELM/main.py:480-488 | writing extends the trace, appending the lines unless the trace has already stopped |
| SetupCase.Fail | model_ELM/main.py:384-386 | a failure stops the trace and keeps the first failure |
| SetupCase.NcplTruncates | model_ELM/main.py:348-349 | for a positive step the coupling count is 24 / tstep truncated; for a negative one it truncates toward zero |
| SetupCase.CppdefDirectives | model_ELM/main.py:471-473 | one appended ` -cppdefs -D` configure option per definition, in order |
| SetupCase.DatmStage | model_ELM/main.py:340-346 | non-bypass compsets get DATM_MODE CLMCRUNCEP; non-bypass site forcing raises TypeError |
| SetupCase.NcplStage | model_ELM/main.py:348-349 | passes iff the step is non-zero |
| SetupCase.LookupStage | model_ELM/main.py:388-395 | passes iff the paramfile, fsoilordercon, fsurdat and fatmlndfrc lookups (and flanduse_timeseries for a transient name) succeed; on success it records those lnd_in values as the parameter, CNP parameter, surface, domain and (transient only) land-use defaults; it issues nothing |
| SetupCase.FatesStage | model_ELM/main.py:421-423 | passes iff the compset is neither ED nor FATES or the FATES parameter file is set and empty |
| SetupCase.BypassStage | model_ELM/main.py:428-434 | always writes the four bypass overrides, which needs the forcing and its directory |
| SetupCase.MapFile | model_ELM/main.py:450-468 | a missing Macros file stays missing; Macros.make and Macros.cmake keep their length with each line rewritten by MacroLine; universal.cmake keeps its lines and gains one CPPDEFS line |
| SetupCase.MacrosStage | model_ELM/main.py:450-468 | after an earlier failure nothing changes; otherwise the three Macros files are rewritten and nothing else changes |
| SetupCase.BuildConfigPhase | model_ELM/main.py:436-478 | issues the domain and cppdefs directives, rewrites the Macros files (before the source-modification check), and passes iff there is no source-modification directory or it exists |
| SetupCase.SetupTrace | model_ELM/main.py:315-478 | a completed run has a case directory and leaves the Macros files rewritten; any run leaves them unchanged or rewritten |
| SetupCase.SetupSucceedsIff | model_ELM/main.py:315-478 | setup_case runs to the end exactly when the attributes it reads are assigned and every check passes |
| SetupCase.XmlPhaseCompletes | model_ELM/main.py:319-349 | a completed first phase issues exactly its segment |
| SetupCase.RunPhaseCompletes | model_ELM/main.py:351-381 | a completed second phase issues exactly its segment and writes the restart override |
| SetupCase.NamelistPhaseCompletes | model_ELM/main.py:392-434 | a completed namelist phase writes exactly its segment |
| SetupCase.CompletedRun | model_ELM/main.py:315-478 | a completed run issues exactly the four segments in order and writes the restart override followed by the namelist segment |
| SetupSettings.CompletedStartDate | model_ELM/main.py:336 | after setup, RUN_STARTDATE is the unpadded start year followed by `-01-01` |
| SetupSettings.CompletedCoupling | model_ELM/main.py:348-349 | after setup, ATM_NCPL is the coupling count of the step |
| SetupSettings.CompletedCo2 | model_ELM/main.py:354-356 | after a completed run CCSM_BGC is CO2A and ELM_CO2_TYPE is diagnostic for a transient case name, and neither is set otherwise |
| SetupSettings.CompletedDataMode | model_ELM/main.py:340-342 | after setup, DATM_MODE is CLMCRUNCEP for a non-bypass compset and never set for a bypass one |
| SetupSettings.CompletedRunLength | model_ELM/main.py:358-367 | the processor loop appears in the log as a block; STOP_N is the run length; REST_N is the run length for a site and 20 otherwise |
| SetupSettings.StopDirectivesSet | model_ELM/main.py:363-367 | the run-length directives leave REST_N at 20 exactly for a case without a site |
| SetupSettings.CompletedForcing | model_ELM/main.py:428-434 | user_nl_elm ends with the four bypass overrides, and a reader sees the forcing type, its directory, the CO2 file and the aerosol file |
| SetupSettings.BypassOverridesRead | model_ELM/main.py:428-434 | after the bypass overrides a reader sees each of the four values |
| SetupSettings.CompletedSurface | model_ELM/main.py:397-427 | user_nl_elm contains the spinup settings, the fsurdat override (run-directory default) and the transient land-use and history block |
| SetupSettings.DomainLocation | model_ELM/main.py:436-447 | with no domain file the run directory and domain.nc; with a path, its directory and file parts, which rejoin to it; with a bare name, no path setting |
| SetupSettings.LastSetWithin | model_ELM/main.py:308-313 | a setting made in one segment and not touched afterwards is the final one |
| ElmCase.SiteYearRangeFromLastRow | model_ELM/main.py:285-294 | for a site case the last row of the site gives the three years, and the spinup length is end - start + 1 |
| ElmCase.SiteWithoutRowUnassigned | model_ELM/main.py:285-294 | a site missing from the table, with years never assigned, stops at the spinup computation |
| ElmCase.MetdataYearRange | model_ELM/main.py:281-305 | without a site the table is not read and the years are those FinishYearRange gives; a failed site scan stops with the years untouched; an unassigned forcing is an AttributeError |
| ElmCase.ForcingAndYears | model_ELM/main.py:120-154 | the forcing is always set and is the one ResolveForcing chooses; a forcing failure leaves the years untouched; otherwise the years and failure are those of MetdataYearRange |
| ElmCase.ElmCase.constructor | model_ELM/main.py:12-76 | the parameters default as in the source; every attribute gets its default, in terms of the default functions, and both logs start empty |
| ElmCase.ElmCase.GetModelDirectories | model_ELM/main.py:100-116 | the result is the root check: none iff all four roots exist |
| ElmCase.ElmCase.GetForcing | model_ELM/main.py:120-154 | the forcing, its directory, the met years and the spinup length are those ForcingAndYears computes |
| ElmCase.ElmCase.ChooseForcing | model_ELM/main.py:121-153 | the forcing and directory chosen, and any exit, are those ResolveForcing gives |
| ElmCase.ElmCase.ReadMetinfo | model_ELM/main.py:130-136 | the loop over metinfo.txt leaves the directory and failure MetinfoScan gives |
| ElmCase.ElmCase.GetMetdataYearRange | model_ELM/main.py:281-305 | the row loop and the reanalysis rule leave the years and spinup MetdataYearRange gives |
| ElmCase.ElmCase.SetFinidatFile | model_ELM/main.py:197-207 | a case-derived restart path with its padded stamp; or a given path, whose unparsable year raises ValueError before the flag is set, and whose stamp comes from the argument |
| ElmCase.ElmCase.CreateCase | model_ELM/main.py:210-254 | the case name and directory; the collision decision; the create_newcase command; the exit when no case directory appears; then run directory, build flag and executable root |
| ElmCase.ElmCase.SetupDomainSurfdata | model_ELM/main.py:256-279 | the generated files; a missing lnd_in default stops it; otherwise each supplied file is recorded and the rest are kept |
| ElmCase.ElmCase.FindGlobals | model_ELM/main.py:262-267 | the loop finds every generated file's lnd_in default exactly when GlobalsRead holds |
| ElmCase.ElmCase.IssueXmlChange | model_ELM/main.py:308-313 | needs the case directory; appends what XmlChange gives; a non-empty value is then the variable's setting |
| ElmCase.ElmCase.SetupCase | model_ELM/main.py:315-478 | both logs grow by exactly the trace of setup_case, the lnd_in defaults are recorded, the Macros files returned are the rewritten ones when it completes and are otherwise either unchanged or rewritten, and it completes iff the attributes are assigned and every check passes |
| ElmCase.ElmCase.CustomizeNamelist | model_ELM/main.py:480-488 | appends the file's lines, or one override that a reader then sees, with every other name unchanged |
| ElmCase.ElmCase.NamelistValue | model_ELM/main.py:163-170 | needs the case directory, then gives NamelistVariable of lnd_in |
| ElmCase.ElmCase.BuildCase | model_ELM/main.py:490-513 | a failing build exits; an existing executable issues BUILD_COMPLETE; the stream rewrite is never called |
| ElmCase.ElmCase.ModifyDatmStreamfiles | model_ELM/main.py:515-598 | user_nl_datm is the datm_in rewrite, the CO2 stream is rewritten iff the compset says 20TR, and the CLM1PT stream iff the forcing is site |
| ElmCase.ElmCase.SubmitCase | model_ELM/main.py:606-633 | the argv is SubmitArgv, with `--prereq` iff depend > 0 and Slurm is used; the job number is the last token of the output, or 0 without Slurm |

## Left out

- Shell and subprocess calls are not modelled. These are `os.system`, `subprocess`,
  `os.chdir`, create_newcase, case.setup, case.build, preview_namelists and cp/mv/rm.
  Their outcomes are parameters: whether the case directory appears, and the exit
  status of setup and build.
- File reading and writing are not modelled: contents are sequences of lines or rows.
  Whether Macros.make, Macros.cmake and universal.cmake exist, and their contents, are
  inputs to `setup_case`.
- `pickle.dump` in `submit_case` is left out, because it is serialization of the
  object. The ensemble script (`create_ensemble_script`) is foreign code that is not
  shown. Only the script name it selects is kept.
- `setup_ensemble`, `makepointdata`, `set_histvars` and the dynamic method injection
  are left out, because they are foreign code that is not shown. `makepointdata` is
  kept only as the lnd_in default it reads. The history lines `set_histvars` writes
  for a spinup are an input of `setup_case`.
- The file copies of `set_param_file` and `set_CNP_param_file` are left out; the
  lnd_in lookups they make with no file name given (main.py:176, 185) are modelled in
  SetupCase.LookupStage. `set_fates_param_file` is left out, because it only copies
  files.
- `socket.gethostname` and `datetime.now()` are left out, because they depend on the
  environment and the clock. The host name and the date stamp are constructor
  arguments.
- `lat_bounds`, `lon_bounds`, `model_name` and `OLMTdir` are left out, because no
  modelled method reads them except as a working directory.
- PyStr.ParseInt: only ASCII decimal digits are read. Python's `int` also accepts
  underscores between digits and other Unicode decimal digits; the model treats such
  strings as a ValueError.
- The `user_nl_elm` log of ElmCase.ElmCase stands for the case directory's file. The
  source opens `user_nl_elm` relative to the current directory (main.py:481), which
  other methods change (main.py:242, 284, 309, 619, 632); the model does not track
  the current directory.
- The interactive `input()` prompt is left out. The operator's reply is a string
  argument.
- The float walltime string (main.py:228-230) is left out. It is a constant
  `2:0:00`, and the command keeps only the arguments that vary.
- ElmCase.ElmCase.constructor: `tstep` is an integer number of hours. A fractional
  step (including the 0.5 special case) is not modelled, so ATM_NCPL is issued for
  every step, as `24 / tstep` truncated toward zero.
- ElmCase.ElmCase.CreateCase: the case directory is `caseroot/casename` without
  `os.path.abspath` normalisation. The `rm -rf` of the `r` reply is not modelled
  beyond the decision.
- ElmCase.ElmCase.BuildCase: the `clean` flag only adds a `--clean-all` build
  before the build, so it is not a parameter. The copies of parameter, domain and
  surface files into the run directory are not modelled.
- ElmCase.ElmCase.ModifyDatmStreamfiles: the replacement `streams` line and the
  point-grid size are parameters, because the source builds them from names that
  are undefined there. For the same reason the CLM1PT test on the undefined `options`
  is a boolean parameter.
  - It reports an unassigned attribute whenever the case name is unset, even though
    the source reads the name only when a `streams =` or taxmode line appears.
  - The preview_namelists call is left out.
  - The model's success is the evidently intended behaviour, not the code as
    written, so the "modelled as written" rule for quirks does not cover this
    method. As written, every datm_in line containing `streams =` raises:
    NameError on the bare `compset` (main.py:527) when the case is neither
    transient nor 20TR; otherwise AttributeError on `self.met_align_year`, which
    nothing assigns (main.py:534), when there is no site, or NameError on
    `myalign_year` (main.py:542) for a site. The test on `options.forcing`
    (main.py:583) raises NameError unless the star import of main.py:8 supplies an
    `options`.
- Quirk kept: after `set_finidat_file` with a restart path, the stamp is derived from
  the `finidat_year` argument (main.py:206), so RUN_REFDATE can disagree with the
  year the path carries.
