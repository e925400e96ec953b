/**
 * The pure decisions of ELMcase: constructor defaults, the case name, the coupler-bypass
 * test, the restart-file stamp, the root-directory check, the case-directory collision
 * policy, the create_newcase command line, the input-file provisioning decision, and the
 * submission argv and job-number parse.
 */
module CaseRules {
  import opened Wrappers
  import opened PyStr

  // ----- Constructor defaults (model_ELM/main.py:12-67, 92-98) -----

  /** The model resolution: an explicit one wins; otherwise a single-site case gets the user-defined grid. */
  function DefaultRes(res: string, site: string): (r: string)
    ensures res != "" ==> r == res
    ensures res == "" ==> (r == "ELM_USRDAT" <==> site != "")
    ensures res == "" ==> (r == "r05_r05" <==> site == "")
  {
    if res == "" then (if site == "" then "r05_r05" else "ELM_USRDAT") else res
  }

  /** The region label used in regional case names. */
  function DefaultRegion(regionName: string): (r: string)
    ensures r != ""
    ensures regionName != "" ==> r == regionName
    ensures regionName == "" ==> r == "region"
  {
    if regionName != "" then regionName else "region"
  }

  /** The case-id prefix; `today` stands for the current date already formatted as YYYYMMDD. */
  function DefaultCaseId(caseid: string, today: string): (r: string)
    ensures caseid != "" ==> r == caseid
    ensures caseid == "" ==> r == today
  {
    if caseid == "" then today else caseid
  }

  /**
   * The machine name. With no machine given it is derived from the host name, and is set
   * only on a 'baseline' host; otherwise the attribute stays unassigned (None).
   */
  function DefaultMachine(machine: string, hostname: string): (r: Option<string>)
    ensures machine != "" ==> r == Some(machine)
    ensures machine == "" ==> (r.Some? <==> Contains(hostname, "baseline"))
    ensures machine == "" && Contains(hostname, "baseline") ==> r == Some("cades-baseline")
  {
    if machine == "" then (if Contains(hostname, "baseline") then Some("cades-baseline") else None)
    else Some(machine)
  }

  /**
   * The simulation start year. -1 means "derive it": year 1 for 1850 compsets, 1850 for
   * transient ones (20TR in the compset or 'trans' in the suffix), 2000 otherwise.
   */
  function DefaultStartYear(startyear: int, compset: string, suffix: string): (y: int)
    ensures startyear != -1 ==> y == startyear
    ensures startyear == -1 ==> (y == 1 <==> Contains(compset, "1850"))
    ensures startyear == -1 ==>
      (y == 1850 <==> !Contains(compset, "1850") && (Contains(compset, "20TR") || Contains(suffix, "trans")))
    ensures startyear == -1 ==>
      (y == 2000 <==> !Contains(compset, "1850") && !Contains(compset, "20TR") && !Contains(suffix, "trans"))
  {
    if startyear != -1 then startyear
    else if Contains(compset, "1850") then 1
    else if Contains(compset, "20TR") || Contains(suffix, "trans") then 1850
    else 2000
  }

  // ----- Case name and the markers tested on it (model_ELM/main.py:212-215) -----

  /** The default case name: caseid, then the site (or the region), then compset and suffix. */
  function CaseName(caseid: string, site: string, region: string, compset: string, suffix: string): (r: string)
    ensures IsPrefix(caseid + "_", r)
    ensures |r| >= |suffix| && r[|r| - |suffix|..] == suffix
  {
    caseid + "_" + (if site == "" then region else site) + "_" + compset + suffix
  }

  /** The transient test the source applies to the case name (main.py:303, 354, 394, 407). */
  predicate IsTransientName(name: string) {
    Contains(name, "20TR") || Contains(name, "trans")
  }

  /** Any marker carried by the compset or the suffix is carried by the case name. */
  lemma CaseNameCarriesMarker(caseid: string, site: string, region: string, compset: string, suffix: string, marker: string)
    requires Contains(compset, marker) || Contains(suffix, marker)
    ensures Contains(CaseName(caseid, site, region, compset, suffix), marker)
  {
    var head := caseid + "_" + (if site == "" then region else site) + "_";
    assert CaseName(caseid, site, region, compset, suffix) == head + compset + suffix;
    if Contains(compset, marker) {
      ContainsInfix(head, compset, suffix, marker);
    } else {
      ContainsInfix(head + compset, suffix, [], marker);
      assert head + compset + suffix + [] == head + compset + suffix;
    }
  }

  /**
   * A case whose start year defaulted to 1850 is transient by name, so the later
   * case-name tests select the transient directives and namelist entries for it.
   */
  lemma DefaultTransientStartIsTransientName(caseid: string, site: string, region: string, compset: string, suffix: string)
    requires DefaultStartYear(-1, compset, suffix) == 1850
    ensures IsTransientName(CaseName(caseid, site, region, compset, suffix))
  {
    if Contains(compset, "20TR") {
      CaseNameCarriesMarker(caseid, site, region, compset, suffix, "20TR");
    } else {
      CaseNameCarriesMarker(caseid, site, region, compset, suffix, "trans");
    }
  }

  // ----- Coupler bypass (model_ELM/main.py:156-161) -----

  /**
   * `is_bypass()`: the compset names a coupler-bypass configuration. Several guards in the
   * source test the bound method `self.is_bypass` without calling it, which Python treats
   * as true: those at main.py:134, 142, 428, 450, 457 and 518 are always taken, and the
   * negated ones at 503 and 560 never are. The model writes those guards as constants.
   */
  predicate IsBypass(compset: string) {
    Contains(compset, "CBCN") || Contains(compset, "ICB") || Contains(compset, "CLM45CB")
  }

  // ----- Restart file (model_ELM/main.py:197-207, 352) -----

  /** `str(10000 + y)[1:]`: the year stamp of a restart file. */
  function YearStamp(y: int): string {
    IntToString(10000 + y)[1..]
  }

  /** `y` written with exactly four decimal digits, zero-padded. */
  function Pad4(y: int): (r: string)
    requires 0 <= y <= 9999
    ensures |r| == 4 && AllDigits(r)
  {
    [Digit(y / 1000), Digit(y / 100 % 10), Digit(y / 10 % 10), Digit(y % 10)]
  }

  lemma Pad4Value(y: int)
    requires 0 <= y <= 9999
    ensures ParseInt(Pad4(y)) == Some(y)
  {
    var s := Pad4(y);
    AllDigitsNoSpace(s);
    NoSpaceStrip(s);
    var a := y / 10;
    var b := a / 10;
    assert b == y / 100;
    assert b / 10 == y / 1000;
    assert DigitsValue(s[..1]) == y / 1000;
    assert s[..2][..1] == s[..1];
    assert DigitsValue(s[..2]) == y / 100;
    assert s[..3][..2] == s[..2];
    assert DigitsValue(s[..3]) == y / 10;
    assert s[..3] == s[..|s| - 1];
  }

  /** For a year 0..9999 the stamp is the year zero-padded to four digits, and reads back as the year. */
  lemma YearStampPadded(y: int)
    requires 0 <= y <= 9999
    ensures YearStamp(y) == Pad4(y)
    ensures ParseInt(YearStamp(y)) == Some(y)
  {
    var n := 10000 + y;
    assert n / 10 == 1000 + y / 10 && n % 10 == y % 10;
    var n1 := n / 10;
    assert n1 / 10 == 100 + y / 100 && n1 % 10 == y / 10 % 10;
    var n2 := n1 / 10;
    assert n2 / 10 == 10 + y / 1000 && n2 % 10 == y / 100 % 10;
    var n3 := n2 / 10;
    assert n3 / 10 == 1 && n3 % 10 == y / 1000;
    assert NatToString(n3) == ['1', Digit(y / 1000)];
    assert NatToString(n2) == ['1', Digit(y / 1000), Digit(y / 100 % 10)];
    assert NatToString(n1) == ['1', Digit(y / 1000), Digit(y / 100 % 10), Digit(y / 10 % 10)];
    assert NatToString(n) == ['1'] + Pad4(y);
    Pad4Value(y);
  }

  /** The date-and-extension tail of every restart file name. */
  const RestartSuffix: string := "-01-01-00000.nc"

  /** The restart file of a previous case's run for the stamped year (main.py:200-201). */
  function RestartPath(runroot: string, finidatCase: string, yst: string): string {
    runroot + "/" + finidatCase + "/run/" + finidatCase + ".elm.r." + yst + RestartSuffix
  }

  /** `int(finidat[-19:-15])`: the year read back from a restart path (main.py:205). */
  function RestartYearOfPath(path: string): Option<int> {
    ParseInt(SliceFromEnd(path, 19, 15))
  }

  /** The reference date of a run started from a restart file (main.py:352). */
  function RefDate(yst: string): string {
    yst + "-01-01"
  }

  lemma SliceBeforeSuffix(p: string, m: string, sfx: string)
    requires |m| == 4 && |sfx| == 15
    ensures SliceFromEnd(p + m + sfx, 19, 15) == m
  {
    var s := p + m + sfx;
    assert s[|p|..|p| + 4] == m;
  }

  /** The case-derived restart path reads back as the year it was built from. */
  lemma RestartPathRoundTrip(runroot: string, finidatCase: string, y: int)
    requires 0 <= y <= 9999
    ensures RestartYearOfPath(RestartPath(runroot, finidatCase, YearStamp(y))) == Some(y)
    ensures RefDate(YearStamp(y)) == Pad4(y) + "-01-01"
  {
    YearStampPadded(y);
    var head := runroot + "/" + finidatCase + "/run/" + finidatCase + ".elm.r.";
    assert RestartPath(runroot, finidatCase, YearStamp(y)) == head + YearStamp(y) + RestartSuffix;
    SliceBeforeSuffix(head, YearStamp(y), RestartSuffix);
  }

  // ----- Root directories (model_ELM/main.py:100-112) -----

  /**
   * The four roots are checked in order: model source, input data, run root, case root.
   * The first missing one stops the run with its diagnostic (the case-root message says
   * "Run root", as the source prints it).
   */
  function RootCheck(modelroot: string, inputdata: string, runroot: string, caseroot: string, existing: set<string>): (r: Option<Failure>)
    ensures r.None? <==> modelroot in existing && inputdata in existing && runroot in existing && caseroot in existing
    ensures modelroot !in existing ==> r == Some(Exit("Error:  Model root " + modelroot + " does not exist."))
    ensures modelroot in existing && inputdata !in existing ==>
      r == Some(Exit("Error:  Input data directory " + inputdata + " does not exist."))
    ensures modelroot in existing && inputdata in existing && runroot !in existing ==>
      r == Some(Exit("Error: Run root " + runroot + " does not exist."))
    ensures modelroot in existing && inputdata in existing && runroot in existing && caseroot !in existing ==>
      r == Some(Exit("Error: Run root " + caseroot + " does not exist."))
  {
    if modelroot !in existing then Some(Exit("Error:  Model root " + modelroot + " does not exist."))
    else if inputdata !in existing then Some(Exit("Error:  Input data directory " + inputdata + " does not exist."))
    else if runroot !in existing then Some(Exit("Error: Run root " + runroot + " does not exist."))
    else if caseroot !in existing then Some(Exit("Error: Run root " + caseroot + " does not exist."))
    else None
  }

  // ----- Case directory collision (model_ELM/main.py:219-225) -----

  datatype Collision = Proceed | RemoveOld

  /**
   * What happens when the case directory already exists, decided by the first character
   * of the operator's reply: 'r' removes the old directory, 'x' exits, anything else
   * proceeds into it. An empty reply has no first character (IndexError).
   */
  function CollisionDecision(dirExists: bool, reply: string): (r: Result<Collision, Failure>)
    ensures !dirExists ==> r == Ok(Proceed)
    ensures dirExists && reply == [] ==> r == Err(Raised(IndexError))
    ensures dirExists && reply != [] ==>
      (r == Ok(RemoveOld) <==> reply[0] == 'r') &&
      (r.Err? <==> reply[0] == 'x') &&
      (r == Ok(Proceed) <==> reply[0] != 'r' && reply[0] != 'x')
  {
    if !dirExists then Ok(Proceed)
    else if reply == [] then Err(Raised(IndexError))
    else if reply[0] == 'r' then Ok(RemoveOld)
    else if reply[0] == 'x' then Err(Exit("Warning:  Case directory exists"))
    else Ok(Proceed)
  }

  // ----- create_newcase command (model_ELM/main.py:227-241) -----

  /** The walltime string the source computes for its fixed walltime of 2 hours. */
  const Walltime: string := "2:0:00"

  /** The shell command that creates the case; project and compiler options only when set. */
  function CreateNewcaseCommand(casedir: string, machine: string, compset: string, res: string, project: string, compiler: string): string {
    NewcaseBase(casedir, machine, compset, res)
    + (NewcaseOpts() + (OptionalFlag(" --project ", project) + (OptionalFlag(" --compiler ", compiler) + NewcaseTail())))
  }

  function NewcaseBase(casedir: string, machine: string, compset: string, res: string): string {
    "./create_newcase --case " + casedir + " --mach " + machine + " --compset " + compset + " --res " + res
  }

  function NewcaseOpts(): string {
    " --walltime " + Walltime + " --handle-preexisting-dirs u"
  }

  function NewcaseTail(): string {
    " --mpilib mpi-serial" + " > create_newcase.log"
  }

  function OptionalFlag(flag: string, value: string): string {
    if value != "" then flag + value else ""
  }

  /**
   * The command names the case directory, machine, compset and resolution first, and
   * carries the project and compiler options exactly when they are set.
   */
  lemma CreateNewcaseCommandOptions(casedir: string, machine: string, compset: string, res: string, project: string, compiler: string)
    ensures IsPrefix(NewcaseBase(casedir, machine, compset, res), CreateNewcaseCommand(casedir, machine, compset, res, project, compiler))
    ensures project != "" ==> Contains(CreateNewcaseCommand(casedir, machine, compset, res, project, compiler), " --project " + project)
    ensures compiler != "" ==> Contains(CreateNewcaseCommand(casedir, machine, compset, res, project, compiler), " --compiler " + compiler)
  {
    CommandShape(NewcaseBase(casedir, machine, compset, res), NewcaseOpts(),
                 OptionalFlag(" --project ", project), OptionalFlag(" --compiler ", compiler), NewcaseTail());
  }

  lemma CommandShape(base: string, opts: string, first: string, second: string, tail: string)
    ensures IsPrefix(base, base + (opts + (first + (second + tail))))
    ensures Contains(base + (opts + (first + (second + tail))), first)
    ensures Contains(base + (opts + (first + (second + tail))), second)
  {
    var cmd := base + (opts + (first + (second + tail)));
    assert cmd[..|base|] == base;
    ContainsSelf(first);
    ContainsInfix(base + opts, first, second + tail, first);
    assert cmd == base + opts + first + (second + tail);
    ContainsSelf(second);
    ContainsInfix(base + (opts + first), second, tail, second);
    assert cmd == base + (opts + first) + second + tail;
  }

  // ----- Domain, surface and land-use provisioning (model_ELM/main.py:262-279) -----

  datatype InputFile = Surfdata | Domain | Pftdyn

  /** The files generated by makepointdata, in call order: only those not supplied, asked for, and (land use) not suppressed. */
  function GeneratedFiles(makedomain: bool, makesurfdat: bool, makepftdyn: bool, nopftdyn: bool,
                          surffile: string, domainfile: string, pftdynfile: string): (g: seq<InputFile>)
    ensures Surfdata in g <==> surffile == "" && makesurfdat
    ensures Domain in g <==> domainfile == "" && makedomain
    ensures Pftdyn in g <==> pftdynfile == "" && makepftdyn && !nopftdyn
  {
    (if surffile == "" && makesurfdat then [Surfdata] else [])
    + (if domainfile == "" && makedomain then [Domain] else [])
    + (if pftdynfile == "" && makepftdyn && !nopftdyn then [Pftdyn] else [])
  }

  /** The files the caller supplied, in the order the source records them. */
  function SuppliedFiles(surffile: string, domainfile: string, pftdynfile: string): (s: seq<InputFile>)
    ensures Surfdata in s <==> surffile != ""
    ensures Domain in s <==> domainfile != ""
    ensures Pftdyn in s <==> pftdynfile != ""
  {
    (if domainfile != "" then [Domain] else [])
    + (if surffile != "" then [Surfdata] else [])
    + (if pftdynfile != "" then [Pftdyn] else [])
  }

  /** No input file is both generated and supplied. */
  lemma GeneratedAndSuppliedDisjoint(makedomain: bool, makesurfdat: bool, makepftdyn: bool, nopftdyn: bool,
                                     surffile: string, domainfile: string, pftdynfile: string, f: InputFile)
    ensures !(f in GeneratedFiles(makedomain, makesurfdat, makepftdyn, nopftdyn, surffile, domainfile, pftdynfile)
              && f in SuppliedFiles(surffile, domainfile, pftdynfile))
  {
  }

  // ----- Submission (model_ELM/main.py:613-633) -----

  function SubmitScript(ensemble: bool): string {
    if ensemble then "./case.submit_ensemble" else "./case.submit"
  }

  /** The argv handed to the scheduler script: a dependency only for a positive job id with a scheduler. */
  function SubmitArgv(ensemble: bool, depend: int, noslurm: bool): (argv: seq<string>)
    ensures |argv| == 1 || |argv| == 3
    ensures argv[0] == SubmitScript(ensemble)
    ensures ("--prereq" in argv) <==> depend > 0 && !noslurm
    ensures |argv| == 3 <==> depend > 0 && !noslurm
    ensures |argv| == 3 ==> argv[1] == "--prereq" && argv[2] == IntToString(depend)
  {
    if depend > 0 && !noslurm then [SubmitScript(ensemble), "--prereq", IntToString(depend)]
    else [SubmitScript(ensemble)]
  }

  /** The dependency handle passed on the command line reads back as the job id it came from. */
  lemma SubmitDependencyVerbatim(ensemble: bool, depend: int)
    requires depend > 0
    ensures ParseInt(SubmitArgv(ensemble, depend, false)[2]) == Some(depend)
  {
    ParseIntToString(depend);
  }

  /**
   * The job id: `int()` of the last whitespace-separated token of the stripped output, or 0
   * without a scheduler. Empty output is an IndexError, a non-integer token a ValueError.
   */
  function ParseJobNumber(stdout: string, noslurm: bool): (r: Result<int, Failure>)
    ensures noslurm ==> r == Ok(0)
    ensures !noslurm && Words(Strip(stdout)) == [] ==> r == Err(Raised(IndexError))
    ensures !noslurm && Words(Strip(stdout)) != [] ==>
      var last := Words(Strip(stdout))[|Words(Strip(stdout))| - 1];
      && (r.Ok? <==> ParseInt(last).Some?)
      && (r.Ok? ==> ParseInt(last) == Some(r.value))
      && (r.Err? ==> r.error == Raised(ValueError))
  {
    if noslurm then Ok(0)
    else
      var words := Words(Strip(stdout));
      if words == [] then Err(Raised(IndexError))
      else match ParseInt(words[|words| - 1])
        case Some(n) => Ok(n)
        case None => Err(Raised(ValueError))
  }

  /** A scheduler line ending in " <id>" yields that id. */
  lemma JobNumberOfSubmitLine(stdout: string, prefix: string, n: int)
    requires Strip(stdout) == prefix + " " + IntToString(n)
    ensures ParseJobNumber(stdout, false) == Ok(n)
  {
    var w := IntToString(n);
    IntToStringNoSpace(n);
    WordsSpaceWord(prefix, w);
    ParseIntToString(n);
  }

  /** Output that is the id alone, with no text before it, yields that id. */
  lemma JobNumberOfBareId(stdout: string, n: int)
    requires Strip(stdout) == IntToString(n)
    ensures ParseJobNumber(stdout, false) == Ok(n)
  {
    var w := IntToString(n);
    IntToStringNoSpace(n);
    WordsSingle(w);
    ParseIntToString(n);
  }
}
