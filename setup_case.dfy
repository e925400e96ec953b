/**
 * What `setup_case` (model_ELM/main.py:315-478) does to a case, as a trace: the xmlchange
 * directives it issues, the user_nl_elm lines it appends, the default input files it
 * looks up in lnd_in, the Macros files it rewrites, and where it stops if it stops.
 * Python runs the statements one by one, so a failure keeps everything issued before it.
 */
module SetupCase {
  import opened Wrappers
  import opened PyStr
  import opened CaseRules
  import opened Namelist
  import opened Directives
  import opened Rewriters

  /** The file names `setup_case` reads back out of lnd_in (main.py:392-395). */
  datatype DefaultFiles = DefaultFiles(parmFile: Option<string>, cnpParmFile: Option<string>,
                                       surfdataGlobal: Option<string>, domainGlobal: Option<string>,
                                       pftdynGlobal: Option<string>)

  /** Macros.make, Macros.cmake and cmake_macros/universal.cmake, each None when the file does not exist. */
  datatype MacroFiles = MacroFiles(make: Option<seq<string>>, cmake: Option<seq<string>>, universal: Option<seq<string>>)

  /** The attributes of the case object `setup_case` reads; None is an attribute never assigned. */
  datatype CaseView = CaseView(
    casedir: Option<string>, exeroot: string, pioVersion: int, rundir: Option<string>,
    inputdata: string, site: string, casename: Option<string>, startyear: int, compset: string,
    forcing: Option<string>, metStart: Option<int>, tstep: int,
    hasFinidat: bool, finidat: Option<string>, finidatYst: Option<string>,
    np: int, runN: int, machine: Option<string>,
    surffile: string, pftdynfile: string, nopftdyn: bool, fatesParamfile: Option<string>,
    metdir: Option<string>, co2File: string, domainfile: string, cppdefs: string, srcmods: string,
    defaults: DefaultFiles)

  /**
   * What `setup_case` finds outside the case object: whether case.setup failed, the lnd_in
   * it generated, the lines the (external) spinup history-variable setup appends, the
   * Macros files, and whether the source-modifications directory exists.
   */
  datatype CaseEnv = CaseEnv(caseSetupFailed: bool, lndIn: seq<string>, spinupHistvars: seq<string>,
                             macros: MacroFiles, srcmodsExists: bool)

  datatype Trace = Trace(directives: seq<Directive>, namelist: seq<string>, defaults: DefaultFiles,
                         macros: MacroFiles, failure: Option<Failure>)

  lemma Append5<T>(a: seq<T>, b: seq<T>, c: seq<T>, d: seq<T>, e: seq<T>, f: seq<T>)
    ensures a + b + c + d + e + f == a + (b + c + d + e + f)
  {
  }

  lemma Append4<T>(a: seq<T>, b: seq<T>, c: seq<T>, d: seq<T>, e: seq<T>)
    ensures a + b + c + d + e == a + (b + c + d + e)
  {
  }

  lemma Append3<T>(a: seq<T>, b: seq<T>, c: seq<T>, d: seq<T>)
    ensures a + b + c + d == a + (b + c + d)
  {
  }

  /** `r` continues `t`: it only appends, and a stopped trace stays as it is. */
  predicate Extends(t: Trace, r: Trace) {
    && t.directives <= r.directives
    && t.namelist <= r.namelist
    && (t.failure.Some? ==> r == t)
  }

  function Emit(t: Trace, ds: seq<Directive>): (r: Trace)
    ensures Extends(t, r)
    ensures t.failure.None? ==> r == t.(directives := t.directives + ds)
  {
    if t.failure.Some? then t else t.(directives := t.directives + ds)
  }

  function Write(t: Trace, lines: seq<string>): (r: Trace)
    ensures Extends(t, r)
    ensures t.failure.None? ==> r == t.(namelist := t.namelist + lines)
  {
    if t.failure.Some? then t else t.(namelist := t.namelist + lines)
  }

  function Fail(t: Trace, f: Failure): (r: Trace)
    ensures Extends(t, r) && r.failure.Some?
    ensures t.failure.None? ==> r == t.(failure := Some(f))
  {
    if t.failure.Some? then t else t.(failure := Some(f))
  }

  const Unassigned: Failure := Raised(AttributeError)

  // ----- Directive and override segments, as issued when nothing fails -----

  /** env_build settings (main.py:319-322). */
  function BuildDirectives(exeroot: string, pioVersion: int): seq<Directive> {
    XmlChange("SAVE_TIMING", "FALSE", "") + XmlChange("EXEROOT", exeroot, "")
    + XmlChange("PIO_VERSION", IntToString(pioVersion), "") + XmlChange("MOSART_MODE", "NULL", "")
  }

  /** Run directory, input roots and the single-point mask (main.py:326-331). */
  function RootDirectives(rundir: string, inputdata: string, site: string): seq<Directive> {
    XmlChange("RUNDIR", rundir, "") + XmlChange("DIN_LOC_ROOT", inputdata, "")
    + XmlChange("DIN_LOC_ROOT_CLMFORC", inputdata + "/atm/datm7/", "")
    + (if site != "" then XmlChange("ELM_USRDAT_NAME", "1x1pt_" + site, "") else [])
  }

  /** `str(startyear) + '-01-01'`: no zero padding. */
  function StartDate(startyear: int): string {
    IntToString(startyear) + "-01-01"
  }

  /** The spinup build option, start date and archiving (main.py:332-338). */
  function StartDirectives(casename: string, startyear: int): seq<Directive> {
    (if Contains(casename, "ad_spinup") then XmlChange("ELM_BLDNML_OPTS", "", "'-bgc_spinup on'") else [])
    + XmlChange("RUN_STARTDATE", StartDate(startyear), "") + XmlChange("DOUT_S", "FALSE", "")
  }

  /** `int(24 / float(tstep))`: coupling intervals per day, truncated toward zero. */
  function Ncpl(tstep: int): int
    requires tstep != 0
  {
    if tstep > 0 then 24 / tstep else -(24 / -tstep)
  }

  /** For a positive step, the interval count is the largest whose steps fit in a day; a negative step mirrors it. */
  lemma NcplTruncates(tstep: int)
    requires tstep != 0
    ensures tstep > 0 ==> Ncpl(tstep) >= 0 && Ncpl(tstep) * tstep <= 24 < (Ncpl(tstep) + 1) * tstep
    ensures tstep < 0 ==> Ncpl(tstep) == -Ncpl(-tstep)
  {
    if tstep > 0 {
      var q, m := 24 / tstep, 24 % tstep;
      assert q * tstep + m == 24 && 0 <= m < tstep;
      assert (q + 1) * tstep == q * tstep + tstep;
    }
  }

  /** Transient CO2 for transient case names (main.py:354-356). */
  function Co2Directives(casename: string): seq<Directive> {
    if IsTransientName(casename) then
      XmlChange("CCSM_BGC", "CO2A", "") + XmlChange("ELM_CO2_TYPE", "diagnostic", "")
    else []
  }

  /** Run length and restart interval (main.py:363-367). */
  function StopDirectives(site: string, runN: int): seq<Directive> {
    XmlChange("STOP_OPTION", "nyears", "") + XmlChange("STOP_N", IntToString(runN), "")
    + XmlChange("REST_N", IntToString(runN), "")
    + (if site == "" then XmlChange("REST_N", "20", "") else [])
  }

  /** Serial netCDF I/O on workstation-class machines (main.py:377-378). */
  function PioDirectives(machine: string): seq<Directive> {
    if Contains(machine, "mac") || Contains(machine, "cades") || Contains(machine, "linux") then
      XmlChange("PIO_TYPENAME", "netcdf", "")
    else []
  }

  /** The transient land-use and output overrides, in the order they are written (main.py:407-415). */
  function TransientOverrides(nopftdyn: bool, pftdynfile: string): seq<string> {
    [ OverrideLine("flanduse_timeseries", if nopftdyn then "" else Quote(pftdynfile)),
      OverrideLine("check_finidat_fsurdat_consistency", ".false."),
      OverrideLine("check_finidat_year_consistency", ".false."),
      OverrideLine("hist_mfilt", "365"),
      OverrideLine("hist_nhtfrq", "-24") ]
  }

  /**
   * Budgets, surface data, the transient or spinup history settings and the parameter
   * files (main.py:397-419); the surface and land-use files default to the run directory.
   */
  function SurfaceOverrides(rundir: string, surffile: string, pftdynfile: string, nopftdyn: bool,
                            transient: bool, spinupHistvars: seq<string>): seq<string> {
    var surf := if surffile == "" then rundir + "/surfdata.nc" else surffile;
    var pftdyn := if pftdynfile == "" then rundir + "/surfdata.pftdyn.nc" else pftdynfile;
    [OverrideLine("do_budgets", ".false.")] + [OverrideLine("fsurdat", Quote(surf))]
    + (if transient then TransientOverrides(nopftdyn, pftdyn) else spinupHistvars)
    + [ OverrideLine("paramfile", Quote(rundir + "/clm_params.nc")),
        OverrideLine("fsoilordercon", Quote(rundir + "/CNP_parameters.nc")) ]
  }

  /** The accelerated-spinup settings (main.py:426-427). */
  function SpinupOverrides(): seq<string> {
    [OverrideLine("nyears_ad_carbon_only", "25"), OverrideLine("spinup_mortality_factor", "10")]
  }

  function AeroFile(inputdata: string): string {
    inputdata + "/atm/cam/chem/trop_mozart_aero/aero/aerosoldep_rcp4.5_monthly_1849-2104_1.9x2.5_c100402.nc"
  }

  /** The coupler-bypass forcing settings (main.py:428-434); their guard is always true. */
  function BypassOverrides(forcing: string, metdir: string, co2File: string, inputdata: string): seq<string> {
    [ OverrideLine("metdata_type", Quote(forcing)),
      OverrideLine("metdata_bypass", Quote(metdir)),
      OverrideLine("co2_file", Quote(co2File)),
      OverrideLine("aero_file", Quote(AeroFile(inputdata))) ]
  }

  /** `"\${RUNDIR}"` as the source writes it: the backslash is kept. */
  const RundirRef: string := "\"\\${RUNDIR}\""

  /** Atmosphere and land domain location (main.py:436-447). */
  function DomainDirectives(domainfile: string): seq<Directive> {
    if domainfile == "" then
      XmlChange("ATM_DOMAIN_PATH", RundirRef, "") + XmlChange("LND_DOMAIN_PATH", RundirRef, "")
      + (XmlChange("ATM_DOMAIN_FILE", "domain.nc", "") + XmlChange("LND_DOMAIN_FILE", "domain.nc", ""))
    else
      XmlChange("ATM_DOMAIN_PATH", DirName(domainfile), "") + XmlChange("LND_DOMAIN_PATH", DirName(domainfile), "")
      + (XmlChange("ATM_DOMAIN_FILE", BaseName(domainfile), "") + XmlChange("LND_DOMAIN_FILE", BaseName(domainfile), ""))
  }

  /** One appended configure option per comma-separated preprocessor definition (main.py:469-473). */
  function CppdefDirectives(defs: seq<string>): (ds: seq<Directive>)
    ensures |ds| == |defs|
    ensures forall i :: 0 <= i < |defs| ==> ds[i] == Directive("ELM_CONFIG_OPTS", " -cppdefs -D" + defs[i], true)
    decreases |defs|
  {
    if defs == [] then []
    else CppdefDirectives(defs[..|defs| - 1]) + XmlChange("ELM_CONFIG_OPTS", "", " -cppdefs -D" + defs[|defs| - 1])
  }

  function CppdefsDirectives(cppdefs: string): seq<Directive> {
    if cppdefs == "" then [] else CppdefDirectives(Split(cppdefs, ','))
  }

  /** The data-model directive of a non-bypass, non-site run. */
  function DatmDirectives(compset: string): seq<Directive> {
    if IsBypass(compset) then [] else XmlChange("DATM_MODE", "CLMCRUNCEP", "")
  }

  /** The directives main.py:319-349 issue when none of them fails. */
  function XmlSegment(v: CaseView): seq<Directive>
    requires v.rundir.Some? && v.casename.Some? && v.tstep != 0
  {
    BuildDirectives(v.exeroot, v.pioVersion) + RootDirectives(v.rundir.value, v.inputdata, v.site)
    + StartDirectives(v.casename.value, v.startyear) + DatmDirectives(v.compset)
    + XmlChange("ATM_NCPL", IntToString(Ncpl(v.tstep)), "")
  }

  /** The directives main.py:351-378 issue when none of them fails. */
  function RunSegment(v: CaseView): seq<Directive>
    requires v.casename.Some? && v.machine.Some? && (v.hasFinidat ==> v.finidatYst.Some?)
  {
    (if v.hasFinidat then XmlChange("RUN_REFDATE", RefDate(v.finidatYst.value), "") else [])
    + Co2Directives(v.casename.value)
    + (ProcessorDirectives(Comps, v.np) + StopDirectives(v.site, v.runN))
    + PioDirectives(v.machine.value)
  }

  /** The restart override main.py:380-381 writes. */
  function FinidatLines(v: CaseView): seq<string>
    requires v.hasFinidat ==> v.finidat.Some?
  {
    if v.hasFinidat then [OverrideLine("finidat", Quote(v.finidat.value))] else []
  }

  /** The lines main.py:397-434 write when nothing fails. */
  function NamelistSegment(v: CaseView, env: CaseEnv): seq<string>
    requires v.rundir.Some? && v.casename.Some? && v.forcing.Some? && v.metdir.Some?
  {
    SurfaceOverrides(v.rundir.value, v.surffile, v.pftdynfile, v.nopftdyn,
                     IsTransientName(v.casename.value), env.spinupHistvars)
    + SpinupOverrides()
    + BypassOverrides(v.forcing.value, v.metdir.value, v.co2File, v.inputdata)
  }

  // ----- The stages -----

  /** The CLM1PT data-model settings for non-bypass compsets (main.py:340-346). */
  function DatmStage(t: Trace, v: CaseView): (r: Trace)
    ensures r.macros == t.macros
    ensures Extends(t, r) && r.namelist == t.namelist
    ensures r.failure.None? <==>
      t.failure.None? && (IsBypass(v.compset) || (v.forcing.Some? && !Contains(v.forcing.value, "site")))
    ensures r.failure.None? ==> r.directives == t.directives + DatmDirectives(v.compset)
    ensures t.failure.None? && !IsBypass(v.compset) && v.forcing.Some? && Contains(v.forcing.value, "site") ==>
      && r.directives == t.directives + [Directive("DATM_MODE", "CLM1PT", false)]
      && r.failure == Some(if v.metStart.None? then Unassigned else Raised(TypeError))
  {
    if IsBypass(v.compset) then t
    else if v.forcing.None? then Fail(t, Unassigned)
    else if !Contains(v.forcing.value, "site") then Emit(t, XmlChange("DATM_MODE", "CLMCRUNCEP", ""))
    else
      // xmlchange is handed the integer start year and concatenates it to a string
      Fail(Emit(t, XmlChange("DATM_MODE", "CLM1PT", "")),
           if v.metStart.None? then Unassigned else Raised(TypeError))
  }

  function NcplStage(t: Trace, v: CaseView): (r: Trace)
    ensures r.macros == t.macros
    ensures Extends(t, r) && r.namelist == t.namelist
    ensures r.failure.None? <==> t.failure.None? && v.tstep != 0
  {
    if v.tstep == 0 then Fail(t, Raised(ZeroDivisionError))
    else Emit(t, XmlChange("ATM_NCPL", IntToString(Ncpl(v.tstep)), ""))
  }

  function RefdateStage(t: Trace, v: CaseView): (r: Trace)
    ensures r.macros == t.macros
    ensures Extends(t, r) && r.namelist == t.namelist
    ensures r.failure.None? <==> t.failure.None? && (v.hasFinidat ==> v.finidatYst.Some?)
  {
    if !v.hasFinidat then t
    else if v.finidatYst.None? then Fail(t, Unassigned)
    else Emit(t, XmlChange("RUN_REFDATE", RefDate(v.finidatYst.value), ""))
  }

  function FinidatStage(t: Trace, v: CaseView): (r: Trace)
    ensures r.macros == t.macros
    ensures Extends(t, r) && r.directives == t.directives
    ensures r.failure.None? <==> t.failure.None? && (v.hasFinidat ==> v.finidat.Some?)
  {
    if !v.hasFinidat then t
    else if v.finidat.None? then Fail(t, Unassigned)
    else Write(t, [OverrideLine("finidat", Quote(v.finidat.value))])
  }

  /** main.py:319-349: build settings, roots, start date, data model and coupling interval. */
  function XmlPhase(t: Trace, v: CaseView): (r: Trace)
    ensures r.macros == t.macros
    ensures Extends(t, r) && r.namelist == t.namelist
    ensures r.failure.None? <==>
      && t.failure.None? && v.rundir.Some? && v.casename.Some? && v.tstep != 0
      && (IsBypass(v.compset) || (v.forcing.Some? && !Contains(v.forcing.value, "site")))
  {
    var t1 := Emit(t, BuildDirectives(v.exeroot, v.pioVersion));
    var t2 := if v.rundir.None? then Fail(t1, Unassigned) else Emit(t1, RootDirectives(v.rundir.value, v.inputdata, v.site));
    var t3 := if v.casename.None? then Fail(t2, Unassigned) else Emit(t2, StartDirectives(v.casename.value, v.startyear));
    var t4 := DatmStage(t3, v);
    NcplStage(t4, v)
  }

  /** main.py:351-381: reference date, CO2, processor layout, run length, I/O and the restart override. */
  function RunPhase(t: Trace, v: CaseView): (r: Trace)
    ensures r.macros == t.macros
    ensures Extends(t, r)
    ensures r.failure.None? <==>
      && t.failure.None? && v.casename.Some? && v.machine.Some?
      && (v.hasFinidat ==> v.finidatYst.Some? && v.finidat.Some?)
  {
    var t1 := RefdateStage(t, v);
    var t2 := if v.casename.None? then Fail(t1, Unassigned) else Emit(t1, Co2Directives(v.casename.value));
    var t3 := Emit(t2, ProcessorDirectives(Comps, v.np) + StopDirectives(v.site, v.runN));
    var t4 := if v.machine.None? then Fail(t3, Unassigned) else Emit(t3, PioDirectives(v.machine.value));
    FinidatStage(t4, v)
  }

  const SetupFailed: Failure := Exit("Error: runcase.py failed to setup case")

  /**
   * The default input files read back from lnd_in (main.py:388-395), one lookup after
   * the other: the parameter files through `set_param_file` and `set_CNP_param_file`
   * with no file name (main.py:176, 185), then the surface and domain files, and the
   * land-use file only for a transient case name.
   */
  function LookupStage(t: Trace, lndIn: seq<string>, transient: bool): (r: Trace)
    ensures r.macros == t.macros
    ensures Extends(t, r)
    ensures r.directives == t.directives && r.namelist == t.namelist
    ensures r.failure.None? <==> t.failure.None? && LookupsSucceed(lndIn, transient)
    ensures r.failure.None? ==>
      && r.defaults.parmFile == Some(NamelistVariable(lndIn, "paramfile").value)
      && r.defaults.cnpParmFile == Some(NamelistVariable(lndIn, "fsoilordercon").value)
      && r.defaults.surfdataGlobal == Some(NamelistVariable(lndIn, "fsurdat").value)
      && r.defaults.domainGlobal == Some(NamelistVariable(lndIn, "fatmlndfrc").value)
      && r.defaults.pftdynGlobal ==
           (if transient then Some(NamelistVariable(lndIn, "flanduse_timeseries").value)
            else t.defaults.pftdynGlobal)
  {
    if t.failure.Some? then t
    else
      var p := NamelistVariable(lndIn, "paramfile");
      if p.Err? then t.(failure := Some(p.error)) else
      var t := t.(defaults := t.defaults.(parmFile := Some(p.value)));
      var c := NamelistVariable(lndIn, "fsoilordercon");
      if c.Err? then t.(failure := Some(c.error)) else
      var t := t.(defaults := t.defaults.(cnpParmFile := Some(c.value)));
      var s := NamelistVariable(lndIn, "fsurdat");
      if s.Err? then t.(failure := Some(s.error)) else
      var t := t.(defaults := t.defaults.(surfdataGlobal := Some(s.value)));
      var d := NamelistVariable(lndIn, "fatmlndfrc");
      if d.Err? then t.(failure := Some(d.error)) else
      var t := t.(defaults := t.defaults.(domainGlobal := Some(d.value)));
      if !transient then t
      else
        var l := NamelistVariable(lndIn, "flanduse_timeseries");
        if l.Err? then t.(failure := Some(l.error))
        else t.(defaults := t.defaults.(pftdynGlobal := Some(l.value)))
  }

  /** Every lookup the stage makes succeeds. */
  predicate LookupsSucceed(lndIn: seq<string>, transient: bool) {
    && NamelistVariable(lndIn, "paramfile").Ok?
    && NamelistVariable(lndIn, "fsoilordercon").Ok?
    && NamelistVariable(lndIn, "fsurdat").Ok?
    && NamelistVariable(lndIn, "fatmlndfrc").Ok?
    && (transient ==> NamelistVariable(lndIn, "flanduse_timeseries").Ok?)
  }

  /**
   * The FATES parameter branch (main.py:421-423): for an ED or FATES compset it reads an
   * attribute nothing assigns, and when that is set and non-empty, the call on line 192
   * passes one argument too many.
   */
  function FatesStage(t: Trace, v: CaseView): (r: Trace)
    ensures r.macros == t.macros
    ensures Extends(t, r) && r.directives == t.directives && r.namelist == t.namelist
    ensures r.failure.None? <==> t.failure.None? && FatesPasses(v.compset, v.fatesParamfile)
  {
    if !(Contains(v.compset, "ED") || Contains(v.compset, "FATES")) then t
    else if v.fatesParamfile.None? then Fail(t, Unassigned)
    else if v.fatesParamfile.value != "" then Fail(t, Raised(TypeError))
    else t
  }

  predicate FatesPasses(compset: string, fatesParamfile: Option<string>) {
    !(Contains(compset, "ED") || Contains(compset, "FATES")) || fatesParamfile == Some("")
  }

  function BypassStage(t: Trace, v: CaseView): (r: Trace)
    ensures r.macros == t.macros
    ensures Extends(t, r) && r.directives == t.directives
    ensures r.failure.None? <==> t.failure.None? && v.forcing.Some? && v.metdir.Some?
    ensures r.failure.None? ==>
      r.namelist == t.namelist + BypassOverrides(v.forcing.value, v.metdir.value, v.co2File, v.inputdata)
  {
    if v.forcing.None? then Fail(t, Unassigned)
    else
      var t := Write(t, [OverrideLine("metdata_type", Quote(v.forcing.value))]);
      if v.metdir.None? then Fail(t, Unassigned)
      else Write(t, BypassOverrides(v.forcing.value, v.metdir.value, v.co2File, v.inputdata)[1..])
  }

  /** main.py:392-434: lookups in lnd_in, then the namelist overrides. */
  function NamelistPhase(t: Trace, v: CaseView, env: CaseEnv): (r: Trace)
    ensures r.macros == t.macros
    ensures Extends(t, r) && r.directives == t.directives
    ensures r.failure.None? <==>
      && t.failure.None? && v.rundir.Some? && v.casename.Some? && v.forcing.Some? && v.metdir.Some?
      && LookupsSucceed(env.lndIn, IsTransientName(v.casename.value))
      && FatesPasses(v.compset, v.fatesParamfile)
  {
    if v.rundir.None? || v.casename.None? then Fail(t, Unassigned)
    else
      var transient := IsTransientName(v.casename.value);
      var t := LookupStage(t, env.lndIn, transient);
      var t := Write(t, SurfaceOverrides(v.rundir.value, v.surffile, v.pftdynfile, v.nopftdyn, transient, env.spinupHistvars));
      var t := FatesStage(t, v);
      var t := Write(t, SpinupOverrides());
      BypassStage(t, v)
  }

  /**
   * One Macros file after the rewrite, None when it does not exist: Macros.make and
   * Macros.cmake are rewritten line by line, universal.cmake gets the bypass line appended.
   */
  function MapFile(f: Option<seq<string>>, universal: bool): (r: Option<seq<string>>)
    ensures r.None? <==> f.None?
    ensures f.Some? && !universal ==>
      |r.value| == |f.value| && forall i :: 0 <= i < |f.value| ==> r.value[i] == MacroLine(f.value[i])
    ensures f.Some? && universal ==>
      && |r.value| == |f.value| + 1 && r.value[..|f.value|] == f.value
      && Contains(r.value[|f.value|], "CPPDEFS")
  {
    if f.None? then None
    else if universal then Some(UniversalCmake(f.value))
    else Some(MacroRewrite(f.value))
  }

  /** The three Macros files after the rewrite. */
  function RewrittenMacros(m: MacroFiles): MacroFiles {
    MacroFiles(MapFile(m.make, false), MapFile(m.cmake, false), MapFile(m.universal, true))
  }

  /** The Macros rewrite and the universal.cmake append (main.py:450-468); their guard is always true. */
  function MacrosStage(t: Trace): (r: Trace)
    ensures Extends(t, r) && r.directives == t.directives && r.namelist == t.namelist && r.failure == t.failure
    ensures t.failure.None? ==> r.macros == RewrittenMacros(t.macros)
  {
    if t.failure.Some? then t
    else t.(macros := RewrittenMacros(t.macros))
  }

  const BadSrcmods: Failure := Exit("Invalid srcmods directory.  Exiting")

  /** main.py:436-478: domain, Macros, preprocessor definitions and source modifications. */
  function BuildConfigPhase(t: Trace, v: CaseView, env: CaseEnv): (r: Trace)
    ensures Extends(t, r) && r.namelist == t.namelist
    ensures r.failure.None? <==> t.failure.None? && (v.srcmods == "" || env.srcmodsExists)
    ensures r.failure.None? ==>
      r.directives == t.directives + DomainDirectives(v.domainfile) + CppdefsDirectives(v.cppdefs)
    ensures t.failure.None? ==> r.macros == RewrittenMacros(t.macros)
  {
    var t := Emit(t, DomainDirectives(v.domainfile));
    var t := MacrosStage(t);
    var t := Emit(t, CppdefsDirectives(v.cppdefs));
    if v.srcmods != "" && !env.srcmodsExists then Fail(t, BadSrcmods) else t
  }

  /** Everything `setup_case` does, in order. */
  function SetupTrace(v: CaseView, env: CaseEnv): (r: Trace)
    ensures r.failure.None? ==> v.casedir.Some?
    ensures r.failure.None? ==> r.macros == RewrittenMacros(env.macros)
    ensures r.macros == env.macros || r.macros == RewrittenMacros(env.macros)
  {
    var t := Trace([], [], v.defaults, env.macros, None);
    if v.casedir.None? then Fail(t, Unassigned)
    else
      var t := RunPhase(XmlPhase(t, v), v);
      var t := if env.caseSetupFailed then Fail(t, SetupFailed) else t;
      var t := NamelistPhase(t, v, env);
      BuildConfigPhase(t, v, env)
  }

  // ----- What a run of setup_case guarantees -----

  /** The case attributes `setup_case` reads that earlier steps of a run assign. */
  predicate Ready(v: CaseView) {
    && v.casedir.Some? && v.rundir.Some? && v.casename.Some?
    && v.forcing.Some? && v.machine.Some? && v.metdir.Some?
  }

  /** Everything `setup_case` checks, directly or by raising, on a case whose attributes are assigned. */
  predicate SetupConditions(v: CaseView, env: CaseEnv)
    requires Ready(v)
  {
    && (IsBypass(v.compset) || !Contains(v.forcing.value, "site"))
    && v.tstep != 0
    && (v.hasFinidat ==> v.finidatYst.Some? && v.finidat.Some?)
    && !env.caseSetupFailed
    && LookupsSucceed(env.lndIn, IsTransientName(v.casename.value))
    && FatesPasses(v.compset, v.fatesParamfile)
    && (v.srcmods == "" || env.srcmodsExists)
  }

  /** `setup_case` runs to the end exactly when the attributes are assigned and every check passes. */
  lemma SetupSucceedsIff(v: CaseView, env: CaseEnv)
    ensures SetupTrace(v, env).failure.None? <==> Ready(v) && SetupConditions(v, env)
  {
    if v.casedir.Some? {
      var t0 := Trace([], [], v.defaults, env.macros, None);
      var r := RunPhase(XmlPhase(t0, v), v);
      var c := if env.caseSetupFailed then Fail(r, SetupFailed) else r;
      var n := NamelistPhase(c, v, env);
      assert SetupTrace(v, env) == BuildConfigPhase(n, v, env);
    }
  }

  /** On success the first phase issues its segment, in order. */
  lemma XmlPhaseCompletes(t: Trace, v: CaseView)
    requires XmlPhase(t, v).failure.None?
    ensures XmlPhase(t, v).directives == t.directives + XmlSegment(v)
  {
    var B, R, S := BuildDirectives(v.exeroot, v.pioVersion), RootDirectives(v.rundir.value, v.inputdata, v.site),
                   StartDirectives(v.casename.value, v.startyear);
    var D, N := DatmDirectives(v.compset), XmlChange("ATM_NCPL", IntToString(Ncpl(v.tstep)), "");
    var t1 := Emit(t, B);
    var t2 := Emit(t1, R);
    var t3 := Emit(t2, S);
    var t4 := DatmStage(t3, v);
    assert XmlPhase(t, v) == NcplStage(t4, v);
    assert t3.directives == t.directives + B + R + S;
    assert t4.directives == t3.directives + D;
    Append5(t.directives, B, R, S, D, N);
  }

  /** On success the second phase issues its segment and the restart override. */
  lemma RunPhaseCompletes(t: Trace, v: CaseView)
    requires RunPhase(t, v).failure.None?
    ensures RunPhase(t, v).directives == t.directives + RunSegment(v)
    ensures RunPhase(t, v).namelist == t.namelist + FinidatLines(v)
  {
    RunPhaseDirectives(t, v);
    var C, P, M := Co2Directives(v.casename.value), ProcessorDirectives(Comps, v.np) + StopDirectives(v.site, v.runN),
                   PioDirectives(v.machine.value);
    RunPhaseUnfolds(t, v);
    EmitsAppend(t.directives, RefdateStage(t, v), RefdateStage(t, v).directives[|t.directives|..], C, P, M);
  }

  lemma RunPhaseDirectives(t: Trace, v: CaseView)
    requires RunPhase(t, v).failure.None?
    ensures RunPhase(t, v).directives == t.directives + RunSegment(v)
  {
    var F := if v.hasFinidat then XmlChange("RUN_REFDATE", RefDate(v.finidatYst.value), "") else [];
    var C, P, M := Co2Directives(v.casename.value), ProcessorDirectives(Comps, v.np) + StopDirectives(v.site, v.runN),
                   PioDirectives(v.machine.value);
    var t1 := RefdateStage(t, v);
    RunPhaseUnfolds(t, v);
    RefdateAppends(t, v);
    EmitsAppend(t.directives, t1, F, C, P, M);
    Append4(t.directives, F, C, P, M);
    RunSegmentParts(v, F + C + P + M);
  }

  lemma RunPhaseUnfolds(t: Trace, v: CaseView)
    requires RunPhase(t, v).failure.None?
    ensures RunPhase(t, v) == FinidatStage(Emit(Emit(Emit(RefdateStage(t, v), Co2Directives(v.casename.value)),
                                                     ProcessorDirectives(Comps, v.np) + StopDirectives(v.site, v.runN)),
                                                PioDirectives(v.machine.value)), v)
  {
  }

  lemma RunSegmentParts(v: CaseView, ds: seq<Directive>)
    requires v.casename.Some? && v.machine.Some? && (v.hasFinidat ==> v.finidatYst.Some?)
    requires ds == (if v.hasFinidat then XmlChange("RUN_REFDATE", RefDate(v.finidatYst.value), "") else [])
                   + Co2Directives(v.casename.value) + (ProcessorDirectives(Comps, v.np) + StopDirectives(v.site, v.runN))
                   + PioDirectives(v.machine.value)
    ensures ds == RunSegment(v)
  {
  }

  lemma RefdateAppends(t: Trace, v: CaseView)
    requires RefdateStage(t, v).failure.None?
    ensures RefdateStage(t, v).directives ==
      t.directives + (if v.hasFinidat then XmlChange("RUN_REFDATE", RefDate(v.finidatYst.value), "") else [])
  {
  }

  lemma EmitsAppend(ds: seq<Directive>, t1: Trace, a: seq<Directive>, b: seq<Directive>, c: seq<Directive>, d: seq<Directive>)
    requires t1.directives == ds + a && t1.failure.None?
    ensures Emit(Emit(Emit(t1, b), c), d).directives == ds + a + b + c + d
    ensures Emit(Emit(Emit(t1, b), c), d).namelist == t1.namelist
  {
  }

  /** On success the namelist phase writes its segment and issues no directive. */
  lemma NamelistPhaseCompletes(t: Trace, v: CaseView, env: CaseEnv)
    requires NamelistPhase(t, v, env).failure.None?
    ensures NamelistPhase(t, v, env).namelist == t.namelist + NamelistSegment(v, env)
  {
    var U := SurfaceOverrides(v.rundir.value, v.surffile, v.pftdynfile, v.nopftdyn,
                              IsTransientName(v.casename.value), env.spinupHistvars);
    var B := BypassOverrides(v.forcing.value, v.metdir.value, v.co2File, v.inputdata);
    NamelistPhaseUnfolds(t, v, env);
    Append3(t.namelist, U, SpinupOverrides(), B);
  }

  lemma NamelistPhaseUnfolds(t: Trace, v: CaseView, env: CaseEnv)
    requires NamelistPhase(t, v, env).failure.None?
    ensures NamelistPhase(t, v, env).namelist ==
      t.namelist + SurfaceOverrides(v.rundir.value, v.surffile, v.pftdynfile, v.nopftdyn,
                                    IsTransientName(v.casename.value), env.spinupHistvars)
      + SpinupOverrides() + BypassOverrides(v.forcing.value, v.metdir.value, v.co2File, v.inputdata)
  {
  }

  /** A run that completes issues exactly these directives and writes exactly these lines. */
  lemma CompletedRun(v: CaseView, env: CaseEnv)
    requires SetupTrace(v, env).failure.None?
    ensures Ready(v) && SetupConditions(v, env)
    ensures SetupTrace(v, env).directives ==
      XmlSegment(v) + RunSegment(v) + DomainDirectives(v.domainfile) + CppdefsDirectives(v.cppdefs)
    ensures SetupTrace(v, env).namelist == FinidatLines(v) + NamelistSegment(v, env)
  {
    SetupSucceedsIff(v, env);
    var t0 := Trace([], [], v.defaults, env.macros, None);
    var x := XmlPhase(t0, v);
    var r := RunPhase(x, v);
    var n := NamelistPhase(r, v, env);
    assert SetupTrace(v, env) == BuildConfigPhase(n, v, env);
    XmlPhaseCompletes(t0, v);
    RunPhaseCompletes(x, v);
    NamelistPhaseCompletes(r, v, env);
    assert t0.directives + XmlSegment(v) == XmlSegment(v);
    assert t0.namelist + FinidatLines(v) == FinidatLines(v);
  }
}
