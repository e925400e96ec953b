/**
 * The ELMcase object (model_ELM/main.py:11-633): the attributes its methods assign one
 * after the other, the log of xmlchange directives it issues, and the user_nl_elm lines
 * it appends. Attributes the source assigns only in some method are Option fields (None
 * until assigned); reading one that is still None is an AttributeError.
 */
module ElmCase {
  import opened Wrappers
  import opened PyStr
  import opened CaseRules
  import opened Forcing
  import opened Namelist
  import opened Directives
  import opened Rewriters
  import opened SetupCase

  /**
   * What `get_metdata_year_range` (main.py:281-305) does to the met-data attributes: the
   * site table is read only for a single-site case; the rest is FinishYearRange, except
   * that with the forcing never assigned the test on line 295 raises after line 294 ran.
   */
  function MetdataYearRange(site: string, rows: seq<seq<string>>, m: MetYears, nyears: Option<int>,
                            forcing: Option<string>, casename: Option<string>): (r: Scan<YearRange>)
    ensures site == "" && forcing.Some? ==> r == FinishYearRange(m, nyears, forcing.value, casename)
    ensures site != "" && SiteScan(rows, site, m).failure.Some? ==>
      r == Scan(YearRange(SiteScan(rows, site, m).state, nyears), SiteScan(rows, site, m).failure)
    ensures (site == "" || SiteScan(rows, site, m).failure.None?) && forcing.None? ==> r.failure == Some(Unassigned)
  {
    var sc := if site != "" then SiteScan(rows, site, m) else Scan(m, None);
    if sc.failure.Some? then Scan(YearRange(sc.state, nyears), sc.failure)
    else if forcing.None? then
      Scan(FinishYearRange(sc.state, nyears, "site", casename).state, Some(Unassigned))
    else FinishYearRange(sc.state, nyears, forcing.value, casename)
  }

  /**
   * `get_forcing` as a whole: the forcing type and directory, then, unless that stopped,
   * the met-data years; with where it stopped, if it did.
   */
  function ForcingAndYears(site: string, inputdata: string, casename: Option<string>, metdirArg: string, mettype: string,
                           metinfo: seq<string>, siteRows: seq<seq<string>>, prior: ForcingState, m: MetYears,
                           nyears: Option<int>): (r: (ForcingState, YearRange, Option<Failure>))
    ensures r.0 == ResolveForcing(site, inputdata, metdirArg, mettype, metinfo, prior).state
    ensures ResolveForcing(site, inputdata, metdirArg, mettype, metinfo, prior).failure.Some? ==>
      r.1 == YearRange(m, nyears) && r.2 == ResolveForcing(site, inputdata, metdirArg, mettype, metinfo, prior).failure
    ensures ResolveForcing(site, inputdata, metdirArg, mettype, metinfo, prior).failure.None? ==>
      Scan(r.1, r.2) == MetdataYearRange(site, siteRows, m, nyears, r.0.forcing, casename)
    ensures r.0.forcing.Some?
  {
    var res := ResolveForcing(site, inputdata, metdirArg, mettype, metinfo, prior);
    if res.failure.Some? then (res.state, YearRange(m, nyears), res.failure)
    else
      var y := MetdataYearRange(site, siteRows, m, nyears, res.state.forcing, casename);
      (res.state, y.state, y.failure)
  }

  /**
   * For a single-site case read without an exception, the last row of the site decides:
   * start, end and align years from columns 6-8, and a spinup of end - start + 1 years.
   */
  lemma SiteYearRangeFromLastRow(rows: seq<seq<string>>, site: string, m: MetYears, nyears: Option<int>, casename: Option<string>)
    requires site != ""
    requires SiteScan(rows, site, m).failure.None? && LastSiteRow(rows, site).Some?
    ensures var y := MetdataYearRange(site, rows, m, nyears, Some("site"), casename);
      var row := rows[LastSiteRow(rows, site).value];
      && |row| >= 9 && y.failure.None?
      && ParseInt(row[6]).Some? && ParseInt(row[7]).Some? && ParseInt(row[8]).Some?
      && y.state.years.start == ParseInt(row[6]) && y.state.years.end == ParseInt(row[7])
      && y.state.years.align == ParseInt(row[8])
      && y.state.nyearsSpinup == Some(ParseInt(row[7]).value - ParseInt(row[6]).value + 1)
  {
    SiteScanLastRowWins(rows, site, m);
  }

  /**
   * A single-site case whose table has no row of the site, and whose met years were never
   * assigned, stops at line 294: the spinup length reads an unassigned end year.
   */
  lemma SiteWithoutRowUnassigned(rows: seq<seq<string>>, site: string, m: MetYears, nyears: Option<int>,
                                 forcing: Option<string>, casename: Option<string>)
    requires site != "" && m.end.None?
    requires SiteScan(rows, site, m).failure.None? && LastSiteRow(rows, site).None?
    ensures MetdataYearRange(site, rows, m, nyears, forcing, casename).failure == Some(Unassigned)
    ensures MetdataYearRange(site, rows, m, nyears, forcing, casename).state.nyearsSpinup == nyears
  {
    SiteScanLastRowWins(rows, site, m);
  }

  /** The generated stream files of `modify_datm_streamfiles`; None for a file it does not write. */
  datatype DatmFiles = DatmFiles(userNlDatm: seq<string>, co2Stream: Option<seq<string>>, clm1ptStream: Option<seq<string>>)

  /** The message of main.py:248-249. */
  const CreateFailed: Failure := Exit("Error:  runcase.py Failed to create case.  See create_newcase.log for details")

  /** The message of main.py:496-499. */
  const BuildFailed: Failure := Exit("Error:  Failed to build case.  Aborting")

  /** The lnd_in default an input file is generated from, as `setup_domain_surfdata` passes it to makepointdata. */
  function GlobalOf(f: InputFile, d: DefaultFiles): Option<string> {
    match f
    case Surfdata => d.surfdataGlobal
    case Domain => d.domainGlobal
    case Pftdyn => d.pftdynGlobal
  }

  /** Every file to be generated has its lnd_in default read. */
  predicate GlobalsRead(generated: seq<InputFile>, d: DefaultFiles) {
    forall i :: 0 <= i < |generated| ==> GlobalOf(generated[i], d).Some?
  }

  class ElmCase {
    var modelroot: string
    var inputdata: string
    var runroot: string
    var caseroot: string
    var exeroot: string
    var site: string
    var sitegroup: string
    var res: string
    var region: string
    var caseid: string
    var machine: Option<string>
    var compiler: string
    var pioVersion: int
    var project: string
    var compset: string
    var suffix: string
    var surffile: string
    var pftdynfile: string
    var nopftdyn: bool
    var domainfile: string
    var runN: int
    var startyear: int
    var np: int
    var tstep: int
    var hasFinidat: bool
    var co2File: string
    var cppdefs: string
    var srcmods: string

    // Assigned by later methods.
    var forcing: Option<string>
    var metdir: Option<string>
    var metYears: MetYears
    var nyearsSpinup: Option<int>
    var finidat: Option<string>
    var finidatYst: Option<string>
    var finidatYear: Option<int>
    var casename: Option<string>
    var casedir: Option<string>
    var rundir: Option<string>
    var dobuild: Option<bool>
    var defaults: DefaultFiles
    var fatesParamfile: Option<string>

    /** The xmlchange directives issued so far, in order. */
    var directives: seq<Directive>
    /** The lines appended to user_nl_elm so far, in order. */
    var namelist: seq<string>

    /**
     * `__init__` and `get_machine` (main.py:12-74, 92-98). `today` is the current date as
     * YYYYMMDD and `hostname` the host's name; the other parameters keep the source's defaults.
     */
    constructor (today: string, hostname: string,
                 caseid: string := "", compset: string := "ICBELMBC", suffix: string := "",
                 site: string := "", sitegroup: string := "AmeriFlux", res: string := "",
                 tstep: int := 1, np: int := 1, nyears: int := 1, startyear: int := -1,
                 machine: string := "", exeroot: string := "", modelroot: string := "",
                 runroot: string := "", caseroot: string := "", inputdata: string := "",
                 regionName: string := "")
      ensures this.res == DefaultRes(res, site) && this.region == DefaultRegion(regionName)
      ensures this.caseid == DefaultCaseId(caseid, today)
      ensures this.machine == DefaultMachine(machine, hostname)
      ensures this.startyear == DefaultStartYear(startyear, compset, suffix)
      ensures this.co2File == inputdata + "/atm/datm7/CO2/fco2_datm_rcp4.5_1765-2500_c130312.nc"
      ensures this.modelroot == modelroot && this.inputdata == inputdata && this.runroot == runroot
      ensures this.caseroot == caseroot && this.exeroot == exeroot && this.site == site
      ensures this.sitegroup == sitegroup && this.compset == compset && this.suffix == suffix
      ensures this.runN == nyears && this.np == np && this.tstep == tstep
      ensures this.compiler == "" && this.project == "" && this.pioVersion == 2
      ensures this.surffile == "" && this.pftdynfile == "" && this.domainfile == "" && !this.nopftdyn
      ensures this.cppdefs == "" && this.srcmods == "" && !this.hasFinidat
      ensures this.forcing.None? && this.metdir.None? && this.metYears == MetYears(None, None, None, None)
      ensures this.nyearsSpinup.None? && this.finidat.None? && this.finidatYst.None? && this.finidatYear.None?
      ensures this.casename.None? && this.casedir.None? && this.rundir.None? && this.dobuild.None?
      ensures this.defaults == DefaultFiles(None, None, None, None, None) && this.fatesParamfile.None?
      ensures this.directives == [] && this.namelist == []
    {
      this.modelroot := modelroot;
      this.inputdata := inputdata;
      this.runroot := runroot;
      this.caseroot := caseroot;
      this.exeroot := exeroot;
      this.site := site;
      this.res := DefaultRes(res, site);
      this.region := DefaultRegion(regionName);
      this.sitegroup := sitegroup;
      this.caseid := DefaultCaseId(caseid, today);
      this.machine := DefaultMachine(machine, hostname);
      this.compiler := "";
      this.pioVersion := 2;
      this.project := "";
      this.compset := compset;
      this.suffix := suffix;
      this.surffile := "";
      this.pftdynfile := "";
      this.nopftdyn := false;
      this.domainfile := "";
      this.runN := nyears;
      this.startyear := DefaultStartYear(startyear, compset, suffix);
      this.np := np;
      this.tstep := tstep;
      this.hasFinidat := false;
      this.co2File := inputdata + "/atm/datm7/CO2/fco2_datm_rcp4.5_1765-2500_c130312.nc";
      this.cppdefs := "";
      this.srcmods := "";
      this.forcing := None;
      this.metdir := None;
      this.metYears := MetYears(None, None, None, None);
      this.nyearsSpinup := None;
      this.finidat := None;
      this.finidatYst := None;
      this.finidatYear := None;
      this.casename := None;
      this.casedir := None;
      this.rundir := None;
      this.dobuild := None;
      this.defaults := DefaultFiles(None, None, None, None, None);
      this.fatesParamfile := None;
      this.directives := [];
      this.namelist := [];
    }

    /** The attributes `setup_case` reads. */
    function View(): CaseView
      reads this
    {
      CaseView(casedir, exeroot, pioVersion, rundir, inputdata, site, casename, startyear, compset,
               forcing, metYears.start, tstep, hasFinidat, finidat, finidatYst, np, runN, machine,
               surffile, pftdynfile, nopftdyn, fatesParamfile, metdir, co2File, domainfile, cppdefs,
               srcmods, defaults)
    }

    /** `get_model_directories` (main.py:100-116): `existing` is the set of directories that exist. */
    method GetModelDirectories(existing: set<string>) returns (r: Option<Failure>)
      ensures r.None? <==> modelroot in existing && inputdata in existing && runroot in existing && caseroot in existing
      ensures r == RootCheck(modelroot, inputdata, runroot, caseroot, existing)
    {
      r := RootCheck(modelroot, inputdata, runroot, caseroot, existing);
    }

    /**
     * `get_forcing` (main.py:120-154): the forcing type and directory, then the year range.
     * `metinfo` is metinfo.txt and `siteRows` the site table, as read.
     */
    method GetForcing(metinfo: seq<string>, siteRows: seq<seq<string>>, metdirArg: string := "", mettype: string := "")
      returns (r: Option<Failure>)
      modifies this`forcing, this`metdir, this`metYears, this`nyearsSpinup
      ensures (ForcingState(forcing, metdir), YearRange(metYears, nyearsSpinup), r) ==
        ForcingAndYears(site, inputdata, casename, metdirArg, mettype, metinfo, siteRows,
                        ForcingState(old(forcing), old(metdir)), old(metYears), old(nyearsSpinup))
    {
      r := ChooseForcing(metdirArg, mettype, metinfo);
      if r.None? {
        r := GetMetdataYearRange(siteRows);
      }
    }

    /** The first part of `get_forcing` (main.py:121-153): the forcing type and its directory. */
    method ChooseForcing(metdirArg: string, mettype: string, metinfo: seq<string>) returns (r: Option<Failure>)
      modifies this`forcing, this`metdir
      ensures Scan(ForcingState(forcing, metdir), r) ==
        ResolveForcing(site, inputdata, metdirArg, mettype, metinfo, ForcingState(old(forcing), old(metdir)))
    {
      r := None;
      if metdirArg == "" {
        if site != "" && (mettype == "" || mettype == "site") {
          forcing := Some("site");
          metdir := Some(SiteMetdir(inputdata, site));
        } else if mettype != "" {
          forcing := Some(mettype);
          r := ReadMetinfo(mettype, metinfo);
        } else {
          forcing := Some("gswp3");
          metdir := Some(Gswp3Metdir(inputdata));
        }
      } else {
        if site != "" && mettype == "" {
          forcing := Some("site");
        } else {
          forcing := Some(mettype);
          if mettype == "" {
            return Some(Exit("Error: When specifying metdir, Must also specify met type (e.g. gswp3)"));
          }
        }
        metdir := Some(metdirArg);
      }
    }

    /**
     * The metinfo.txt loop of `get_forcing` (main.py:128-136): each line naming the type
     * sets the directory; a naming line without ':' raises.
     */
    method ReadMetinfo(mettype: string, metinfo: seq<string>) returns (r: Option<Failure>)
      modifies this`metdir
      ensures Scan(metdir, r) == MetinfoScan(metinfo, mettype, inputdata, old(metdir))
    {
      var i := 0;
      while i < |metinfo|
        invariant 0 <= i <= |metinfo|
        invariant MetinfoScan(metinfo[..i], mettype, inputdata, old(metdir)) == Scan(metdir, None)
      {
        assert metinfo[..i + 1][..i] == metinfo[..i];
        var parts := Split(metinfo[i], ':');
        if parts[0] == mettype {
          if |parts| < 2 {
            MetinfoScanStaysFailed(metinfo, mettype, inputdata, old(metdir), i + 1);
            return Some(Raised(IndexError));
          }
          metdir := Some(inputdata + "/" + Strip(parts[1]));
          // the uncalled `is_bypass` guard is always true
          metdir := Some(metdir.value + BypassSubdir);
        }
        i := i + 1;
      }
      assert metinfo[..|metinfo|] == metinfo;
      r := None;
    }

    /** `get_metdata_year_range` (main.py:281-305), reading the site table row by row. */
    method GetMetdataYearRange(rows: seq<seq<string>>) returns (r: Option<Failure>)
      modifies this`metYears, this`nyearsSpinup
      ensures Scan(YearRange(metYears, nyearsSpinup), r) ==
        MetdataYearRange(site, rows, old(metYears), old(nyearsSpinup), forcing, casename)
    {
      var m := metYears;
      if site != "" {
        var i := 0;
        while i < |rows|
          invariant 0 <= i <= |rows|
          invariant SiteScan(rows[..i], site, old(metYears)) == Scan(m, None)
        {
          assert rows[..i + 1][..i] == rows[..i];
          var step := SiteRowStep(rows[i], site, m);
          if step.failure.Some? {
            metYears := step.state;
            SiteScanStaysFailed(rows, site, old(metYears), i + 1);
            return step.failure;
          }
          m := step.state;
          i := i + 1;
        }
        assert rows[..|rows|] == rows;
      }
      if m.start.None? || m.end.None? {
        metYears := m;
        return Some(Unassigned);
      }
      nyearsSpinup := Some(m.end.value - m.start.value + 1);
      if forcing.None? {
        metYears := m;
        return Some(Unassigned);
      }
      if forcing.value != "site" {
        // reanalysis years; the local end year of line 302 is never read
        var start := 1901;
        if Contains(forcing.value, "daymet") {
          start := 1980;
        }
        if Contains(forcing.value, "Qian") {
          start := 1948;
        }
        m := m.(start := Some(start));
        if casename.None? {
          metYears := m;
          return Some(Unassigned);
        }
        if IsTransientName(casename.value) {
          m := m.(end := Some(2014));
        }
        nyearsSpinup := Some(20);
      }
      metYears := m;
      r := None;
    }

    /**
     * `set_finidat_file` (main.py:197-207). A path whose year field is not an integer
     * raises after the path is stored and before the flag is set.
     */
    method SetFinidatFile(finidatCase: string := "", year: int := 0, path: string := "") returns (r: Option<Failure>)
      modifies this`finidat, this`finidatYst, this`finidatYear, this`hasFinidat
      ensures finidatCase != "" ==>
        && r.None? && hasFinidat
        && finidatYst == Some(YearStamp(year)) && finidatYear == Some(year)
        && finidat == Some(RestartPath(runroot, finidatCase, YearStamp(year)))
      ensures finidatCase == "" && path != "" ==>
        && finidat == Some(path)
        && (r.None? <==> RestartYearOfPath(path).Some?)
        && (r.Some? ==> r == Some(Raised(ValueError)) && hasFinidat == old(hasFinidat)
                        && finidatYst == old(finidatYst) && finidatYear == old(finidatYear))
        && (r.None? ==> hasFinidat && finidatYear == RestartYearOfPath(path) && finidatYst == Some(YearStamp(year)))
      ensures finidatCase == "" && path == "" ==>
        && r.None? && hasFinidat
        && finidat == old(finidat) && finidatYst == old(finidatYst) && finidatYear == old(finidatYear)
    {
      if finidatCase != "" {
        finidatYst := Some(YearStamp(year));
        finidat := Some(RestartPath(runroot, finidatCase, finidatYst.value));
        finidatYear := Some(year);
      } else if path != "" {
        finidat := Some(path);
        var y := RestartYearOfPath(path);
        if y.None? {
          return Some(Raised(ValueError));
        }
        finidatYear := y;
        // the stamp is built from the argument, not from the year just read
        finidatYst := Some(YearStamp(year));
      }
      hasFinidat := true;
      r := None;
    }

    /**
     * `create_case` (main.py:210-254): `dirExists` says whether the case directory is
     * already there, `reply` is the operator's answer, `created` whether create_newcase
     * left a case directory. `cmd` is the create_newcase command, when it is reached.
     */
    method CreateCase(dirExists: bool, reply: string, created: bool) returns (cmd: Option<string>, r: Option<Failure>)
      modifies this`casename, this`casedir, this`rundir, this`dobuild, this`exeroot
      ensures casename == Some(CaseName(caseid, site, region, compset, suffix))
      ensures casedir == Some(caseroot + "/" + casename.value)
      ensures r.None? <==> CollisionDecision(dirExists, reply).Ok? && machine.Some? && created
      ensures CollisionDecision(dirExists, reply).Err? ==> r == Some(CollisionDecision(dirExists, reply).error) && cmd.None?
      ensures CollisionDecision(dirExists, reply).Ok? && machine.None? ==> r == Some(Unassigned) && cmd.None?
      ensures CollisionDecision(dirExists, reply).Ok? && machine.Some? ==>
        cmd == Some(CreateNewcaseCommand(casedir.value, machine.value, compset, res, project, compiler))
      ensures CollisionDecision(dirExists, reply).Ok? && machine.Some? && !created ==> r == Some(CreateFailed)
      ensures r.None? ==>
        && rundir == Some(runroot + "/" + casename.value + "/run")
        && dobuild == Some(old(exeroot) == "")
        && exeroot == (if old(exeroot) == "" then runroot + "/" + casename.value + "/bld" else old(exeroot))
      ensures r.Some? ==> rundir == old(rundir) && dobuild == old(dobuild) && exeroot == old(exeroot)
    {
      casename := Some(CaseName(caseid, site, region, compset, suffix));
      casedir := Some(caseroot + "/" + casename.value);
      cmd := None;
      var decision := CollisionDecision(dirExists, reply);
      if decision.Err? {
        return cmd, Some(decision.error);
      }
      if machine.None? {
        return cmd, Some(Unassigned);
      }
      cmd := Some(CreateNewcaseCommand(casedir.value, machine.value, compset, res, project, compiler));
      if !created {
        return cmd, Some(CreateFailed);
      }
      rundir := Some(runroot + "/" + casename.value + "/run");
      dobuild := Some(false);
      if exeroot == "" {
        dobuild := Some(true);
        exeroot := runroot + "/" + casename.value + "/bld";
      }
      r := None;
    }

    /**
     * `setup_domain_surfdata` (main.py:256-279). `generated` lists the files handed to
     * makepointdata, in call order; each call reads the lnd_in default of its file, so an
     * unread default stops the method before any supplied file is recorded. A file is
     * recorded exactly when it is among SuppliedFiles.
     */
    method SetupDomainSurfdata(makedomain: bool := false, makesurfdat: bool := false, makepftdyn: bool := false,
                               surffileArg: string := "", domainfileArg: string := "", pftdynfileArg: string := "")
      returns (generated: seq<InputFile>, r: Option<Failure>)
      modifies this`surffile, this`domainfile, this`pftdynfile
      ensures generated == GeneratedFiles(makedomain, makesurfdat, makepftdyn, nopftdyn, surffileArg, domainfileArg, pftdynfileArg)
      ensures r.None? <==> GlobalsRead(generated, defaults)
      ensures r.Some? ==> r == Some(Unassigned) && surffile == old(surffile) && domainfile == old(domainfile) && pftdynfile == old(pftdynfile)
      ensures r.None? ==>
        var supplied := SuppliedFiles(surffileArg, domainfileArg, pftdynfileArg);
        && domainfile == (if Domain in supplied then domainfileArg else old(domainfile))
        && surffile == (if Surfdata in supplied then surffileArg else old(surffile))
        && pftdynfile == (if Pftdyn in supplied then pftdynfileArg else old(pftdynfile))
    {
      generated := GeneratedFiles(makedomain, makesurfdat, makepftdyn, nopftdyn, surffileArg, domainfileArg, pftdynfileArg);
      var ok := FindGlobals(generated);
      if !ok {
        return generated, Some(Unassigned);
      }
      if domainfileArg != "" {
        domainfile := domainfileArg;
      }
      if surffileArg != "" {
        surffile := surffileArg;
      }
      if pftdynfileArg != "" {
        pftdynfile := pftdynfileArg;
      }
      r := None;
    }

    /** The makepointdata calls of `setup_domain_surfdata` (main.py:262-267), each reading its lnd_in default. */
    method FindGlobals(generated: seq<InputFile>) returns (ok: bool)
      ensures ok <==> GlobalsRead(generated, defaults)
    {
      var i := 0;
      while i < |generated|
        invariant 0 <= i <= |generated|
        invariant GlobalsRead(generated[..i], defaults)
      {
        if GlobalOf(generated[i], defaults).None? {
          return false;
        }
        i := i + 1;
        assert generated[..i] == generated[..i - 1] + [generated[i - 1]];
      }
      assert generated[..|generated|] == generated;
      ok := true;
    }

    /** `xmlchange` (main.py:308-313): it first enters the case directory. */
    method IssueXmlChange(variable: string, value: string := "", append: string := "") returns (r: Option<Failure>)
      modifies this`directives
      ensures r.None? <==> casedir.Some?
      ensures r.Some? ==> r == Some(Unassigned) && directives == old(directives)
      ensures r.None? ==> directives == old(directives) + XmlChange(variable, value, append)
      ensures r.None? && value != "" ==> LastSet(directives, variable) == Some(value)
    {
      if casedir.None? {
        return Some(Unassigned);
      }
      directives := directives + XmlChange(variable, value, append);
      LastSetConcat(old(directives), XmlChange(variable, value, append), variable);
      r := None;
    }

    /**
     * `setup_case` (main.py:315-478), as SetupTrace describes it: everything it issues is
     * appended to the logs, the lnd_in defaults it reads are recorded, and it stops where
     * the trace stops. `macros` is the content of the case's Macros files afterwards: the
     * rewritten files once the run gets as far as the rewrite, `env.macros` unchanged otherwise.
     */
    method SetupCase(env: CaseEnv) returns (r: Option<Failure>, macros: MacroFiles)
      modifies this`directives, this`namelist, this`defaults
      ensures var t := SetupTrace(old(View()), env);
        && directives == old(directives) + t.directives && namelist == old(namelist) + t.namelist
        && defaults == t.defaults && r == t.failure && macros == t.macros
      ensures r.None? <==> Ready(old(View())) && SetupConditions(old(View()), env)
      ensures r.None? ==> macros == RewrittenMacros(env.macros)
      ensures macros == env.macros || macros == RewrittenMacros(env.macros)
    {
      var v := View();
      SetupSucceedsIff(v, env);
      var t := SetupTrace(v, env);
      directives := directives + t.directives;
      namelist := namelist + t.namelist;
      defaults := t.defaults;
      r := t.failure;
      macros := t.macros;
    }

    /**
     * `customize_namelist` (main.py:480-488): the lines of a namelist file, copied one by
     * one, or else one override line. `fileLines` is the file's content.
     */
    method CustomizeNamelist(fileLines: seq<string>, namelistFile: string := "", variable: string := "", value: string := "")
      modifies this`namelist
      ensures namelist == old(namelist) + (if namelistFile != "" then fileLines else [OverrideLine(variable, value)])
      ensures namelistFile == "" && IsName(variable) && Unpadded(value) ==>
        && LastValue(namelist, variable) == Some(value)
        && forall other :: other != variable ==> LastValue(namelist, other) == LastValue(old(namelist), other)
    {
      if namelistFile != "" {
        var i := 0;
        while i < |fileLines|
          invariant 0 <= i <= |fileLines|
          invariant namelist == old(namelist) + fileLines[..i]
        {
          namelist := namelist + [fileLines[i]];
          i := i + 1;
          assert fileLines[..i] == fileLines[..i - 1] + [fileLines[i - 1]];
        }
        assert fileLines[..|fileLines|] == fileLines;
      } else {
        namelist := namelist + [OverrideLine(variable, value)];
        if IsName(variable) && Unpadded(value) {
          OverrideWins(old(namelist), variable, value);
          forall other | other != variable
            ensures LastValue(namelist, other) == LastValue(old(namelist), other)
          {
            OverrideKeepsOthers(old(namelist), variable, value, other);
          }
        }
      }
    }

    /** `get_namelist_variable` (main.py:163-170) on the case's lnd_in, given as `lndIn`. */
    method NamelistValue(vname: string, lndIn: seq<string>) returns (r: Result<string, Failure>)
      ensures casedir.None? ==> r == Err(Unassigned)
      ensures casedir.Some? ==> r == NamelistVariable(lndIn, vname)
    {
      if casedir.None? {
        return Err(Unassigned);
      }
      r := Namelist.GetNamelistVariable(lndIn, vname);
    }

    /**
     * `build_case` (main.py:490-513): `buildStatus` is what case.build returns. The stream
     * rewrite guarded by the uncalled `is_bypass` (line 503) is never reached.
     */
    method BuildCase(buildStatus: int) returns (r: Option<Failure>)
      modifies this`directives
      ensures r.None? <==> casedir.Some? && dobuild.Some? && (dobuild.value ==> buildStatus <= 0)
      ensures casedir.Some? && dobuild.Some? && dobuild.value && buildStatus > 0 ==> r == Some(BuildFailed)
      ensures (casedir.None? || dobuild.None?) ==> r == Some(Unassigned)
      ensures casedir.Some? && dobuild == Some(false) ==>
        directives == old(directives) + [Directive("BUILD_COMPLETE", "TRUE", false)]
      ensures !(casedir.Some? && dobuild == Some(false)) ==> directives == old(directives)
    {
      if casedir.None? || dobuild.None? {
        return Some(Unassigned);
      }
      if dobuild.value {
        if buildStatus > 0 {
          return Some(BuildFailed);
        }
      } else {
        r := IssueXmlChange("BUILD_COMPLETE", value := "TRUE");
      }
      r := None;
    }

    /**
     * `modify_datm_streamfiles` (main.py:515-604) when called directly: its own bypass
     * guard (line 518) is always taken. The streams line and the point grid size are
     * parameters, as are the CLM1PT test on an undefined `options`, the stream templates
     * and datm_in. The aerosol rewrite (line 560) is never reached.
     */
    method ModifyDatmStreamfiles(datmIn: seq<string>, co2Template: seq<string>, clm1ptTemplate: seq<string>,
                                 streamsLine: string, siteForcing: bool, numxpts: int, numypts: int)
      returns (r: Result<DatmFiles, Failure>)
      ensures casedir.None? || casename.None? ==> r == Err(Unassigned)
      ensures casedir.Some? && casename.Some? ==> r.Ok?
      ensures r.Ok? ==>
        && r.value.userNlDatm == DatmRewrite(datmIn, streamsLine, StreamTransient(casename.value, compset))
        && r.value.co2Stream == (if Contains(compset, "20TR") then Some(Co2Rewrite(co2Template, co2File)) else None)
        && r.value.clm1ptStream ==
             (if siteForcing
              then Some(Clm1ptRewrite(clm1ptTemplate, PointToken(numxpts, numypts, site),
                                      Contains(compset, "ED") || Contains(compset, "FATES")))
              else None)
    {
      if casedir.None? || casename.None? {
        return Err(Unassigned);
      }
      var user := RewriteDatmIn(datmIn, streamsLine, StreamTransient(casename.value, compset));
      var co2: Option<seq<string>> := None;
      if Contains(compset, "20TR") {
        co2 := Some(Co2Rewrite(co2Template, co2File));
      }
      var clm1pt: Option<seq<string>> := None;
      if siteForcing {
        clm1pt := Some(Clm1ptRewrite(clm1ptTemplate, PointToken(numxpts, numypts, site),
                                     Contains(compset, "ED") || Contains(compset, "FATES")));
      }
      r := Ok(DatmFiles(user, co2, clm1pt));
    }

    /**
     * `submit_case` (main.py:606-633): the argv handed to the scheduler script and the job
     * id read from its output `stdout`. Pickling the object first needs the case directory.
     */
    method SubmitCase(stdout: string, depend: int := -1, noslurm: bool := false, ensemble: bool := false)
      returns (argv: seq<string>, jobnum: Result<int, Failure>)
      ensures casedir.None? ==> argv == [] && jobnum == Err(Unassigned)
      ensures casedir.Some? ==> argv == SubmitArgv(ensemble, depend, noslurm) && jobnum == ParseJobNumber(stdout, noslurm)
      ensures casedir.Some? ==> (|argv| == 3 <==> depend > 0 && !noslurm)
      ensures casedir.Some? && noslurm ==> jobnum == Ok(0)
    {
      if casedir.None? {
        return [], Err(Unassigned);
      }
      argv := SubmitArgv(ensemble, depend, noslurm);
      jobnum := ParseJobNumber(stdout, noslurm);
    }
  }
}
