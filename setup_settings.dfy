/**
 * What a completed `setup_case` run leaves in the case configuration (model_ELM/main.py:315-478):
 * the final value of the settings the rest of the workflow depends on, the processor layout,
 * where the domain file is looked for, and the forcing overrides that end user_nl_elm.
 */
module SetupSettings {
  import opened Wrappers
  import opened PyStr
  import opened CaseRules
  import opened Namelist
  import opened Directives
  import opened SetupCase

  /** No directive in `ds` names `x`. */
  predicate Avoids(ds: seq<Directive>, x: string) {
    forall i :: 0 <= i < |ds| ==> ds[i].variable != x
  }

  lemma AvoidsAppend(a: seq<Directive>, b: seq<Directive>, x: string)
    requires Avoids(a, x) && Avoids(b, x)
    ensures Avoids(a + b, x)
  {
    forall i | 0 <= i < |a + b| ensures (a + b)[i].variable != x {
      if i >= |a| {
        assert (a + b)[i] == b[i - |a|];
      }
    }
  }

  /** A setting made in `seg` and not touched afterwards is the one that counts. */
  lemma {:induction false} LastSetWithin(pre: seq<Directive>, seg: seq<Directive>, post: seq<Directive>, x: string)
    requires LastSet(seg, x).Some? && Avoids(post, x)
    ensures LastSet(pre + seg + post, x) == LastSet(seg, x)
  {
    LastSetUntouched(pre + seg, post, x);
    LastSetConcat(pre, seg, x);
  }

  /** A sequence that never names `x` leaves it unset. */
  lemma NeverSet(ds: seq<Directive>, x: string)
    requires Avoids(ds, x)
    ensures LastSet(ds, x) == None
  {
    LastSetUntouched([], ds, x);
    assert [] + ds == ds;
  }

  /** The processor layout names only task and thread counts. */
  lemma ProcessorAvoids(np: int, x: string)
    requires x == [] || x[0] != 'N'
    ensures Avoids(ProcessorDirectives(Comps, np), x)
  {
    forall i | 0 <= i < |ProcessorDirectives(Comps, np)|
      ensures ProcessorDirectives(Comps, np)[i].variable != x
    {
      ProcessorVariables(Comps, np, i);
      var w := ProcessorDirectives(Comps, np)[i].variable;
      assert w[0] == 'N' by {
        if IsPrefix("NTASKS_", w) { assert w[..7][0] == 'N'; } else { assert w[..7][0] == 'N'; }
      }
    }
  }

  /** The domain directives name only the four domain settings. */
  lemma DomainAvoids(d: string, x: string)
    requires x !in {"ATM_DOMAIN_PATH", "LND_DOMAIN_PATH", "ATM_DOMAIN_FILE", "LND_DOMAIN_FILE"}
    ensures Avoids(DomainDirectives(d), x)
  {
    var dom := if d == "" then RundirRef else DirName(d);
    var file := if d == "" then "domain.nc" else BaseName(d);
    var paths := XmlChange("ATM_DOMAIN_PATH", dom, "") + XmlChange("LND_DOMAIN_PATH", dom, "");
    var files := XmlChange("ATM_DOMAIN_FILE", file, "") + XmlChange("LND_DOMAIN_FILE", file, "");
    assert DomainDirectives(d) == paths + files;
    PairAvoids("ATM_DOMAIN_PATH", "LND_DOMAIN_PATH", dom, x);
    PairAvoids("ATM_DOMAIN_FILE", "LND_DOMAIN_FILE", file, x);
    AvoidsAppend(paths, files, x);
  }

  /** The directives after the run-length settings: I/O type, domain and preprocessor options. */
  lemma LateAvoids(v: CaseView, x: string)
    requires v.machine.Some?
    requires x in {"RUN_STARTDATE", "DATM_MODE", "ATM_NCPL", "STOP_N", "REST_N", "CCSM_BGC", "ELM_CO2_TYPE"}
    ensures Avoids(PioDirectives(v.machine.value), x)
    ensures Avoids(DomainDirectives(v.domainfile), x)
    ensures Avoids(CppdefsDirectives(v.cppdefs), x)
  {
    var defs := CppdefsDirectives(v.cppdefs);
    if v.cppdefs != "" {
      assert forall i :: 0 <= i < |defs| ==> defs[i].variable == "ELM_CONFIG_OPTS";
    }
    DomainAvoids(v.domainfile, x);
  }

  /** The reference date, CO2, processor and run-length directives. */
  lemma EarlyRunAvoids(v: CaseView, x: string)
    requires v.casename.Some? && (v.hasFinidat ==> v.finidatYst.Some?)
    requires x in {"RUN_STARTDATE", "DATM_MODE", "ATM_NCPL"}
    ensures Avoids((if v.hasFinidat then XmlChange("RUN_REFDATE", RefDate(v.finidatYst.value), "") else [])
                   + Co2Directives(v.casename.value)
                   + (ProcessorDirectives(Comps, v.np) + StopDirectives(v.site, v.runN)), x)
  {
    var F := if v.hasFinidat then XmlChange("RUN_REFDATE", RefDate(v.finidatYst.value), "") else [];
    var C := Co2Directives(v.casename.value);
    var P, S := ProcessorDirectives(Comps, v.np), StopDirectives(v.site, v.runN);
    ProcessorAvoids(v.np, x);
    assert Avoids(S, x);
    AvoidsAppend(F, C, x);
    AvoidsAppend(P, S, x);
    AvoidsAppend(F + C, P + S, x);
  }

  /** Nothing from the reference date to the end sets the start date, data model or coupling. */
  lemma RunAvoids(v: CaseView, x: string)
    requires v.casename.Some? && v.machine.Some? && (v.hasFinidat ==> v.finidatYst.Some?)
    requires x in {"RUN_STARTDATE", "DATM_MODE", "ATM_NCPL"}
    ensures Avoids(RunSegment(v) + DomainDirectives(v.domainfile) + CppdefsDirectives(v.cppdefs), x)
  {
    var F := if v.hasFinidat then XmlChange("RUN_REFDATE", RefDate(v.finidatYst.value), "") else [];
    var E := F + Co2Directives(v.casename.value) + (ProcessorDirectives(Comps, v.np) + StopDirectives(v.site, v.runN));
    var M := PioDirectives(v.machine.value);
    EarlyRunAvoids(v, x);
    LateAvoids(v, x);
    RunSegmentParts(v, E + M);
    AvoidsAppend(E, M, x);
    AvoidsAppend(E + M, DomainDirectives(v.domainfile), x);
    AvoidsAppend(E + M + DomainDirectives(v.domainfile), CppdefsDirectives(v.cppdefs), x);
  }

  /** The start-date directives set RUN_STARTDATE to the unpadded start date. */
  lemma StartDirectivesSet(casename: string, startyear: int)
    ensures LastSet(StartDirectives(casename, startyear), "RUN_STARTDATE") == Some(StartDate(startyear))
  {
    var opt := if Contains(casename, "ad_spinup") then XmlChange("ELM_BLDNML_OPTS", "", "'-bgc_spinup on'") else [];
    var a, b := Directive("RUN_STARTDATE", StartDate(startyear), false), Directive("DOUT_S", "FALSE", false);
    assert StartDirectives(casename, startyear) == opt + [a] + [b];
    LastSetConcat(opt + [a], [b], "RUN_STARTDATE");
    LastSetConcat(opt, [a], "RUN_STARTDATE");
  }

  /** The run-length directives: STOP_N is the run length, and so is REST_N unless there is no site. */
  lemma StopDirectivesSet(site: string, runN: int)
    ensures LastSet(StopDirectives(site, runN), "STOP_N") == Some(IntToString(runN))
    ensures LastSet(StopDirectives(site, runN), "REST_N") == Some(if site == "" then "20" else IntToString(runN))
  {
    var n := IntToString(runN);
    var o, p, q := Directive("STOP_OPTION", "nyears", false), Directive("STOP_N", n, false), Directive("REST_N", n, false);
    var tail := if site == "" then [Directive("REST_N", "20", false)] else [];
    assert StopDirectives(site, runN) == [o, p] + [q] + tail;
    assert LastSet([o, p], "STOP_N") == Some(n) by {
      assert [o, p][..1] == [o];
    }
    LastSetConcat([o, p], [q] + tail, "STOP_N");
    LastSetConcat([o, p] + [q], tail, "REST_N");
    LastSetConcat([o, p], [q], "REST_N");
    LastSetConcat([o, p] + [q], tail, "STOP_N");
    LastSetConcat([q], tail, "STOP_N");
  }

  lemma Regroup<T>(x: seq<T>, f: seq<T>, c: seq<T>, p: seq<T>, s: seq<T>, m: seq<T>, d: seq<T>, k: seq<T>)
    ensures x + (f + c + (p + s) + m) + d + k == (x + (f + c)) + p + s + (m + d + k)
  {
  }

  /** The directives of a completed run around the processor layout and run length. */
  lemma CompletedRunLayout(v: CaseView, env: CaseEnv)
    requires SetupTrace(v, env).failure.None?
    ensures Ready(v) && v.tstep != 0 && (v.hasFinidat ==> v.finidatYst.Some?)
    ensures
      var pre := XmlSegment(v) + ((if v.hasFinidat then XmlChange("RUN_REFDATE", RefDate(v.finidatYst.value), "") else [])
                                  + Co2Directives(v.casename.value));
      SetupTrace(v, env).directives ==
        pre + ProcessorDirectives(Comps, v.np) + StopDirectives(v.site, v.runN)
        + (PioDirectives(v.machine.value) + DomainDirectives(v.domainfile) + CppdefsDirectives(v.cppdefs))
  {
    CompletedRun(v, env);
    var F := if v.hasFinidat then XmlChange("RUN_REFDATE", RefDate(v.finidatYst.value), "") else [];
    var C, P, S := Co2Directives(v.casename.value), ProcessorDirectives(Comps, v.np), StopDirectives(v.site, v.runN);
    var M := PioDirectives(v.machine.value);
    RunSegmentParts(v, F + C + (P + S) + M);
    Regroup(XmlSegment(v), F, C, P, S, M, DomainDirectives(v.domainfile), CppdefsDirectives(v.cppdefs));
  }

  /** `part` occurs contiguously in `whole`. */
  predicate Infix<T(==)>(part: seq<T>, whole: seq<T>) {
    exists k :: 0 <= k <= |whole| && part <= whole[k..]
  }

  lemma InfixAt<T>(a: seq<T>, b: seq<T>, c: seq<T>)
    ensures Infix(b, a + b + c)
  {
    assert b <= (a + b + c)[|a|..];
  }

  /** In a completed run the start date, data model and coupling are as the first phase set them. */
  lemma SettledInXmlPhase(v: CaseView, env: CaseEnv, x: string)
    requires SetupTrace(v, env).failure.None?
    requires x in {"RUN_STARTDATE", "DATM_MODE", "ATM_NCPL"}
    ensures Ready(v) && v.tstep != 0
    ensures LastSet(SetupTrace(v, env).directives, x) == LastSet(XmlSegment(v), x)
  {
    CompletedRun(v, env);
    var D, K := DomainDirectives(v.domainfile), CppdefsDirectives(v.cppdefs);
    RunAvoids(v, x);
    Append3(XmlSegment(v), RunSegment(v), D, K);
    LastSetUntouched(XmlSegment(v), RunSegment(v) + D + K, x);
  }

  /** The first phase sets the unpadded start date. */
  lemma XmlSegmentStartDate(v: CaseView)
    requires v.rundir.Some? && v.casename.Some? && v.tstep != 0
    ensures LastSet(XmlSegment(v), "RUN_STARTDATE") == Some(StartDate(v.startyear))
  {
    var B, R := BuildDirectives(v.exeroot, v.pioVersion), RootDirectives(v.rundir.value, v.inputdata, v.site);
    var S := StartDirectives(v.casename.value, v.startyear);
    var Dm, N := DatmDirectives(v.compset), XmlChange("ATM_NCPL", IntToString(Ncpl(v.tstep)), "");
    StartDirectivesSet(v.casename.value, v.startyear);
    AvoidsAppend(Dm, N, "RUN_STARTDATE");
    assert XmlSegment(v) == B + R + S + (Dm + N);
    LastSetWithin(B + R, S, Dm + N, "RUN_STARTDATE");
  }

  /** A completed run starts on 1 January of the start year, written without zero padding. */
  lemma CompletedStartDate(v: CaseView, env: CaseEnv)
    requires SetupTrace(v, env).failure.None?
    ensures LastSet(SetupTrace(v, env).directives, "RUN_STARTDATE") == Some(IntToString(v.startyear) + "-01-01")
  {
    SettledInXmlPhase(v, env, "RUN_STARTDATE");
    XmlSegmentStartDate(v);
  }

  /** The first phase ends with the coupling interval count. */
  lemma XmlSegmentCoupling(v: CaseView)
    requires v.rundir.Some? && v.casename.Some? && v.tstep != 0
    ensures LastSet(XmlSegment(v), "ATM_NCPL") == Some(IntToString(Ncpl(v.tstep)))
  {
    var N := XmlChange("ATM_NCPL", IntToString(Ncpl(v.tstep)), "");
    var pre := XmlSegment(v)[..|XmlSegment(v)| - 1];
    assert XmlSegment(v) == pre + N;
    LastSetConcat(pre, N, "ATM_NCPL");
  }

  /** A completed run sets the coupling interval count from the time step. */
  lemma CompletedCoupling(v: CaseView, env: CaseEnv)
    requires SetupTrace(v, env).failure.None?
    ensures v.tstep != 0
    ensures LastSet(SetupTrace(v, env).directives, "ATM_NCPL") == Some(IntToString(Ncpl(v.tstep)))
  {
    SettledInXmlPhase(v, env, "ATM_NCPL");
    XmlSegmentCoupling(v);
  }

  /** The settings no directive before the data model or the CO2 directives names. */
  predicate LateSetting(x: string) {
    x == "DATM_MODE" || x == "CCSM_BGC" || x == "ELM_CO2_TYPE"
  }

  // ----- CO2 (model_ELM/main.py:354-356) -----

  /** The CO2 directives set the BGC mode and the CO2 type, and only for a transient case. */
  lemma Co2Settings(casename: string)
    ensures IsTransientName(casename) ==>
      && LastSet(Co2Directives(casename), "CCSM_BGC") == Some("CO2A")
      && LastSet(Co2Directives(casename), "ELM_CO2_TYPE") == Some("diagnostic")
    ensures !IsTransientName(casename) ==> Co2Directives(casename) == []
  {
    if IsTransientName(casename) {
      var ds := Co2Directives(casename);
      assert ds == [Directive("CCSM_BGC", "CO2A", false), Directive("ELM_CO2_TYPE", "diagnostic", false)];
      assert ds[..1] == [Directive("CCSM_BGC", "CO2A", false)];
    }
  }

  /** The first phase never names the CO2 settings. */
  lemma XmlSegmentAvoids(v: CaseView, x: string)
    requires v.rundir.Some? && v.casename.Some? && v.tstep != 0
    requires x == "CCSM_BGC" || x == "ELM_CO2_TYPE"
    ensures Avoids(XmlSegment(v), x)
  {
    var E := BuildDirectives(v.exeroot, v.pioVersion) + RootDirectives(v.rundir.value, v.inputdata, v.site)
             + StartDirectives(v.casename.value, v.startyear);
    var N := XmlChange("ATM_NCPL", IntToString(Ncpl(v.tstep)), "");
    EarlyXmlAvoids(v, x);
    AvoidsAppend(E, DatmDirectives(v.compset), x);
    AvoidsAppend(E + DatmDirectives(v.compset), N, x);
  }

  /** The directives after the CO2 ones never name the CO2 settings. */
  lemma AfterCo2Avoids(v: CaseView, x: string)
    requires v.machine.Some?
    requires x == "CCSM_BGC" || x == "ELM_CO2_TYPE"
    ensures Avoids(ProcessorDirectives(Comps, v.np) + StopDirectives(v.site, v.runN)
                   + (PioDirectives(v.machine.value) + DomainDirectives(v.domainfile) + CppdefsDirectives(v.cppdefs)), x)
  {
    var P, S := ProcessorDirectives(Comps, v.np), StopDirectives(v.site, v.runN);
    var M, D, K := PioDirectives(v.machine.value), DomainDirectives(v.domainfile), CppdefsDirectives(v.cppdefs);
    ProcessorAvoids(v.np, x);
    LateAvoids(v, x);
    AvoidsAppend(P, S, x);
    AvoidsAppend(M, D, x);
    AvoidsAppend(M + D, K, x);
    AvoidsAppend(P + S, M + D + K, x);
  }

  /** A setting made in the middle, or never made around it, is decided by the middle. */
  lemma MiddleDecides(a: seq<Directive>, c: seq<Directive>, b: seq<Directive>, x: string)
    requires Avoids(b, x) && (LastSet(c, x).Some? || Avoids(a, x))
    ensures LastSet(a + c + b, x) == LastSet(c, x)
  {
    LastSetUntouched(a + c, b, x);
    LastSetConcat(a, c, x);
    if LastSet(c, x).None? {
      NeverSet(a, x);
    }
  }

  /** The directives of a completed run around the CO2 directives. */
  lemma Co2Layout(v: CaseView, env: CaseEnv)
    requires SetupTrace(v, env).failure.None?
    ensures Ready(v) && v.tstep != 0 && (v.hasFinidat ==> v.finidatYst.Some?)
    ensures SetupTrace(v, env).directives ==
      XmlSegment(v) + (if v.hasFinidat then XmlChange("RUN_REFDATE", RefDate(v.finidatYst.value), "") else [])
      + Co2Directives(v.casename.value)
      + (ProcessorDirectives(Comps, v.np) + StopDirectives(v.site, v.runN)
         + (PioDirectives(v.machine.value) + DomainDirectives(v.domainfile) + CppdefsDirectives(v.cppdefs)))
  {
    CompletedRunLayout(v, env);
    var F := if v.hasFinidat then XmlChange("RUN_REFDATE", RefDate(v.finidatYst.value), "") else [];
    var P, S := ProcessorDirectives(Comps, v.np), StopDirectives(v.site, v.runN);
    var T := PioDirectives(v.machine.value) + DomainDirectives(v.domainfile) + CppdefsDirectives(v.cppdefs);
    Regroup6(XmlSegment(v), F, Co2Directives(v.casename.value), P, S, T);
  }

  lemma Regroup6<T>(x: seq<T>, f: seq<T>, c: seq<T>, p: seq<T>, s: seq<T>, t: seq<T>)
    ensures x + (f + c) + p + s + t == (x + f) + c + (p + s + t)
  {
  }

  /** Around the CO2 directives nothing names the CO2 settings. */
  lemma Co2Decides(v: CaseView, x: string)
    requires v.rundir.Some? && v.casename.Some? && v.machine.Some? && v.tstep != 0
    requires v.hasFinidat ==> v.finidatYst.Some?
    requires x == "CCSM_BGC" || x == "ELM_CO2_TYPE"
    ensures LastSet(XmlSegment(v) + (if v.hasFinidat then XmlChange("RUN_REFDATE", RefDate(v.finidatYst.value), "") else [])
                    + Co2Directives(v.casename.value)
                    + (ProcessorDirectives(Comps, v.np) + StopDirectives(v.site, v.runN)
                       + (PioDirectives(v.machine.value) + DomainDirectives(v.domainfile) + CppdefsDirectives(v.cppdefs))), x)
            == LastSet(Co2Directives(v.casename.value), x)
  {
    var F := if v.hasFinidat then XmlChange("RUN_REFDATE", RefDate(v.finidatYst.value), "") else [];
    AfterCo2Avoids(v, x);
    Co2Settings(v.casename.value);
    if !IsTransientName(v.casename.value) {
      XmlSegmentAvoids(v, x);
      AvoidsAppend(XmlSegment(v), F, x);
    }
    MiddleDecides(XmlSegment(v) + F, Co2Directives(v.casename.value),
                  ProcessorDirectives(Comps, v.np) + StopDirectives(v.site, v.runN)
                  + (PioDirectives(v.machine.value) + DomainDirectives(v.domainfile) + CppdefsDirectives(v.cppdefs)), x);
  }

  /** In a completed run a CO2 setting has the value the CO2 directives give it. */
  lemma Co2Settled(v: CaseView, env: CaseEnv, x: string)
    requires SetupTrace(v, env).failure.None?
    requires x == "CCSM_BGC" || x == "ELM_CO2_TYPE"
    ensures v.casename.Some?
    ensures LastSet(SetupTrace(v, env).directives, x) == LastSet(Co2Directives(v.casename.value), x)
  {
    Co2Layout(v, env);
    Co2Decides(v, x);
  }

  /**
   * A completed run of a transient case (its name says 20TR or trans) sets the CO2A BGC mode
   * with diagnostic CO2; any other case leaves both settings as the case was created.
   */
  lemma CompletedCo2(v: CaseView, env: CaseEnv)
    requires SetupTrace(v, env).failure.None?
    ensures v.casename.Some?
    ensures LastSet(SetupTrace(v, env).directives, "CCSM_BGC") ==
      (if IsTransientName(v.casename.value) then Some("CO2A") else None)
    ensures LastSet(SetupTrace(v, env).directives, "ELM_CO2_TYPE") ==
      (if IsTransientName(v.casename.value) then Some("diagnostic") else None)
  {
    Co2Settled(v, env, "CCSM_BGC");
    Co2Settled(v, env, "ELM_CO2_TYPE");
    Co2Settings(v.casename.value);
  }

  lemma StartAvoids(casename: string, startyear: int, x: string)
    requires LateSetting(x)
    ensures Avoids(StartDirectives(casename, startyear), x)
  {
    var opt := if Contains(casename, "ad_spinup") then XmlChange("ELM_BLDNML_OPTS", "", "'-bgc_spinup on'") else [];
    var a, b := XmlChange("RUN_STARTDATE", StartDate(startyear), ""), XmlChange("DOUT_S", "FALSE", "");
    assert StartDirectives(casename, startyear) == opt + a + b;
    AvoidsAppend(opt, a, x);
    AvoidsAppend(opt + a, b, x);
  }

  lemma BuildAvoids(exeroot: string, pioVersion: int, x: string)
    requires LateSetting(x)
    ensures Avoids(BuildDirectives(exeroot, pioVersion), x)
  {
    var a, b := XmlChange("SAVE_TIMING", "FALSE", ""), XmlChange("EXEROOT", exeroot, "");
    var c, d := XmlChange("PIO_VERSION", IntToString(pioVersion), ""), XmlChange("MOSART_MODE", "NULL", "");
    assert BuildDirectives(exeroot, pioVersion) == a + b + c + d;
    AvoidsAppend(a, b, x);
    AvoidsAppend(a + b, c, x);
    AvoidsAppend(a + b + c, d, x);
  }

  lemma RootAvoids(rundir: string, inputdata: string, site: string, x: string)
    requires LateSetting(x)
    ensures Avoids(RootDirectives(rundir, inputdata, site), x)
  {
    var a, b := XmlChange("RUNDIR", rundir, ""), XmlChange("DIN_LOC_ROOT", inputdata, "");
    var c := XmlChange("DIN_LOC_ROOT_CLMFORC", inputdata + "/atm/datm7/", "");
    var d := if site != "" then XmlChange("ELM_USRDAT_NAME", "1x1pt_" + site, "") else [];
    assert RootDirectives(rundir, inputdata, site) == a + b + c + d;
    AvoidsAppend(a, b, x);
    AvoidsAppend(a + b, c, x);
    AvoidsAppend(a + b + c, d, x);
  }

  /** Build settings, roots and start date never name the data-model mode or the CO2 settings. */
  lemma EarlyXmlAvoids(v: CaseView, x: string)
    requires v.rundir.Some? && v.casename.Some?
    requires LateSetting(x)
    ensures Avoids(BuildDirectives(v.exeroot, v.pioVersion) + RootDirectives(v.rundir.value, v.inputdata, v.site)
                   + StartDirectives(v.casename.value, v.startyear), x)
  {
    var B, R := BuildDirectives(v.exeroot, v.pioVersion), RootDirectives(v.rundir.value, v.inputdata, v.site);
    var S := StartDirectives(v.casename.value, v.startyear);
    StartAvoids(v.casename.value, v.startyear, x);
    RootAvoids(v.rundir.value, v.inputdata, v.site, x);
    BuildAvoids(v.exeroot, v.pioVersion, x);
    AvoidsAppend(B, R, x);
    AvoidsAppend(B + R, S, x);
  }

  /** The first phase sets CRUNCEP mode unless the compset bypasses the coupler. */
  lemma XmlSegmentDataMode(v: CaseView)
    requires v.rundir.Some? && v.casename.Some? && v.tstep != 0
    ensures LastSet(XmlSegment(v), "DATM_MODE") == if IsBypass(v.compset) then None else Some("CLMCRUNCEP")
  {
    var E := BuildDirectives(v.exeroot, v.pioVersion) + RootDirectives(v.rundir.value, v.inputdata, v.site)
             + StartDirectives(v.casename.value, v.startyear);
    var Dm, N := DatmDirectives(v.compset), XmlChange("ATM_NCPL", IntToString(Ncpl(v.tstep)), "");
    assert XmlSegment(v) == E + Dm + N;
    LastSetUntouched(E + Dm, N, "DATM_MODE");
    EarlyXmlAvoids(v, "DATM_MODE");
    if IsBypass(v.compset) {
      assert E + Dm == E;
      NeverSet(E, "DATM_MODE");
    } else {
      LastSetConcat(E, Dm, "DATM_MODE");
    }
  }

  /**
   * A completed run uses the CRUNCEP data-model mode unless the compset bypasses the
   * coupler, in which case it never sets the mode.
   */
  lemma CompletedDataMode(v: CaseView, env: CaseEnv)
    requires SetupTrace(v, env).failure.None?
    ensures LastSet(SetupTrace(v, env).directives, "DATM_MODE") ==
      if IsBypass(v.compset) then None else Some("CLMCRUNCEP")
  {
    SettledInXmlPhase(v, env, "DATM_MODE");
    XmlSegmentDataMode(v);
  }

  /** The layout and run-length directives followed by ones that never name the run length. */
  lemma RunLengthWithin(pre: seq<Directive>, post: seq<Directive>, np: int, site: string, runN: int)
    requires Avoids(post, "STOP_N") && Avoids(post, "REST_N")
    ensures var ds := pre + ProcessorDirectives(Comps, np) + StopDirectives(site, runN) + post;
      && Infix(ProcessorDirectives(Comps, np), ds)
      && LastSet(ds, "STOP_N") == Some(IntToString(runN))
      && LastSet(ds, "REST_N") == Some(if site == "" then "20" else IntToString(runN))
  {
    var P, S := ProcessorDirectives(Comps, np), StopDirectives(site, runN);
    assert pre + P + S + post == pre + P + (S + post);
    InfixAt(pre, P, S + post);
    StopDirectivesSet(site, runN);
    LastSetWithin(pre + P, S, post, "STOP_N");
    LastSetWithin(pre + P, S, post, "REST_N");
  }

  /**
   * A completed run gives every component `np` tasks of one thread each, runs for `run_n`
   * years, and writes restarts every `run_n` years for a site (every 20 otherwise).
   */
  lemma CompletedRunLength(v: CaseView, env: CaseEnv)
    requires SetupTrace(v, env).failure.None?
    ensures Infix(ProcessorDirectives(Comps, v.np), SetupTrace(v, env).directives)
    ensures LastSet(SetupTrace(v, env).directives, "STOP_N") == Some(IntToString(v.runN))
    ensures LastSet(SetupTrace(v, env).directives, "REST_N") ==
      Some(if v.site == "" then "20" else IntToString(v.runN))
  {
    CompletedRunLayout(v, env);
    var pre := XmlSegment(v) + ((if v.hasFinidat then XmlChange("RUN_REFDATE", RefDate(v.finidatYst.value), "") else [])
                                + Co2Directives(v.casename.value));
    var M, D, K := PioDirectives(v.machine.value), DomainDirectives(v.domainfile), CppdefsDirectives(v.cppdefs);
    LateAvoids(v, "STOP_N");
    LateAvoids(v, "REST_N");
    AvoidsAppend(M, D, "STOP_N");
    AvoidsAppend(M + D, K, "STOP_N");
    AvoidsAppend(M, D, "REST_N");
    AvoidsAppend(M + D, K, "REST_N");
    RunLengthWithin(pre, M + D + K, v.np, v.site, v.runN);
  }

  /** Four overrides of distinct variables appended in turn each read back as written. */
  lemma FourOverridesRead(log: seq<string>, a: string, b: string, c: string, d: string,
                          va: string, vb: string, vc: string, vd: string)
    requires IsName(a) && IsName(b) && IsName(c) && IsName(d)
    requires a != b && a != c && a != d && b != c && b != d && c != d
    requires Unpadded(va) && Unpadded(vb) && Unpadded(vc) && Unpadded(vd)
    ensures var nl := log + [OverrideLine(a, va), OverrideLine(b, vb), OverrideLine(c, vc), OverrideLine(d, vd)];
      && LastValue(nl, a) == Some(va) && LastValue(nl, b) == Some(vb)
      && LastValue(nl, c) == Some(vc) && LastValue(nl, d) == Some(vd)
  {
    var la, lb, lc, ld := OverrideLine(a, va), OverrideLine(b, vb), OverrideLine(c, vc), OverrideLine(d, vd);
    assert log + [la, lb, lc, ld] == log + [la] + [lb] + [lc] + [ld];
    OverrideWins(log, a, va);
    OverrideKeepsOthers(log + [la], b, vb, a);
    OverrideKeepsOthers(log + [la] + [lb], c, vc, a);
    OverrideKeepsOthers(log + [la] + [lb] + [lc], d, vd, a);
    OverrideWins(log + [la], b, vb);
    OverrideKeepsOthers(log + [la] + [lb], c, vc, b);
    OverrideKeepsOthers(log + [la] + [lb] + [lc], d, vd, b);
    OverrideWins(log + [la] + [lb], c, vc);
    OverrideKeepsOthers(log + [la] + [lb] + [lc], d, vd, c);
    OverrideWins(log + [la] + [lb] + [lc], d, vd);
  }

  /** The four forcing overrides each read back as written, whatever came before them. */
  lemma BypassOverridesRead(log: seq<string>, forcing: string, metdir: string, co2File: string, inputdata: string)
    ensures var nl := log + BypassOverrides(forcing, metdir, co2File, inputdata);
      && LastValue(nl, "metdata_type") == Some(Quote(forcing))
      && LastValue(nl, "metdata_bypass") == Some(Quote(metdir))
      && LastValue(nl, "co2_file") == Some(Quote(co2File))
      && LastValue(nl, "aero_file") == Some(Quote(AeroFile(inputdata)))
  {
    QuoteUnpadded(forcing);
    QuoteUnpadded(metdir);
    QuoteUnpadded(co2File);
    QuoteUnpadded(AeroFile(inputdata));
    assert IsName("metdata_type") && IsName("metdata_bypass") && IsName("co2_file") && IsName("aero_file");
    FourOverridesRead(log, "metdata_type", "metdata_bypass", "co2_file", "aero_file",
                      Quote(forcing), Quote(metdir), Quote(co2File), Quote(AeroFile(inputdata)));
  }

  /** The namelist phase's lines end with the forcing overrides, which read back as written. */
  lemma NamelistSegmentForcing(pre: seq<string>, v: CaseView, env: CaseEnv)
    requires v.rundir.Some? && v.casename.Some? && v.forcing.Some? && v.metdir.Some?
    ensures var nl := pre + NamelistSegment(v, env);
      && |nl| >= 4
      && nl[|nl| - 4..] == BypassOverrides(v.forcing.value, v.metdir.value, v.co2File, v.inputdata)
      && LastValue(nl, "metdata_type") == Some(Quote(v.forcing.value))
      && LastValue(nl, "metdata_bypass") == Some(Quote(v.metdir.value))
      && LastValue(nl, "co2_file") == Some(Quote(v.co2File))
      && LastValue(nl, "aero_file") == Some(Quote(AeroFile(v.inputdata)))
  {
    var U := SurfaceOverrides(v.rundir.value, v.surffile, v.pftdynfile, v.nopftdyn,
                              IsTransientName(v.casename.value), env.spinupHistvars);
    var B := BypassOverrides(v.forcing.value, v.metdir.value, v.co2File, v.inputdata);
    var head := pre + (U + SpinupOverrides());
    assert pre + NamelistSegment(v, env) == head + B;
    BypassOverridesRead(head, v.forcing.value, v.metdir.value, v.co2File, v.inputdata);
  }

  /**
   * A completed run ends user_nl_elm with the coupler-bypass forcing settings, whatever
   * the compset, so the forcing type, its directory, the CO2 file and the aerosol file
   * the model reads are the case's own.
   */
  lemma CompletedForcing(v: CaseView, env: CaseEnv)
    requires SetupTrace(v, env).failure.None?
    ensures Ready(v)
    ensures var nl := SetupTrace(v, env).namelist;
      && |nl| >= 4
      && nl[|nl| - 4..] == BypassOverrides(v.forcing.value, v.metdir.value, v.co2File, v.inputdata)
      && LastValue(nl, "metdata_type") == Some(Quote(v.forcing.value))
      && LastValue(nl, "metdata_bypass") == Some(Quote(v.metdir.value))
      && LastValue(nl, "co2_file") == Some(Quote(v.co2File))
      && LastValue(nl, "aero_file") == Some(Quote(AeroFile(v.inputdata)))
  {
    CompletedRun(v, env);
    NamelistSegmentForcing(FinidatLines(v), v, env);
  }

  lemma InfixParts<T>(pre: seq<T>, u: seq<T>, a: seq<T>, b: seq<T>, c: seq<T>, d: seq<T>, e: seq<T>, f: seq<T>)
    requires u == a + b + c + d
    ensures var whole := pre + (u + e + f);
      Infix(b, whole) && Infix(c, whole) && Infix(e, whole)
  {
    var whole := pre + (u + e + f);
    assert whole == (pre + a) + b + (c + d + e + f);
    InfixAt(pre + a, b, c + d + e + f);
    assert whole == (pre + a + b) + c + (d + e + f);
    InfixAt(pre + a + b, c, d + e + f);
    assert whole == (pre + a + b + c + d) + e + f;
    InfixAt(pre + a + b + c + d, e, f);
  }

  /** The surface, history and spinup pieces of the namelist phase's lines. */
  lemma NamelistSegmentParts(v: CaseView, env: CaseEnv)
    requires v.rundir.Some? && v.casename.Some? && v.forcing.Some? && v.metdir.Some?
    ensures NamelistSegment(v, env) ==
      [OverrideLine("do_budgets", ".false.")]
      + [OverrideLine("fsurdat", Quote(if v.surffile == "" then v.rundir.value + "/surfdata.nc" else v.surffile))]
      + HistoryLines(v, env)
      + [ OverrideLine("paramfile", Quote(v.rundir.value + "/clm_params.nc")),
          OverrideLine("fsoilordercon", Quote(v.rundir.value + "/CNP_parameters.nc")) ]
      + SpinupOverrides()
      + BypassOverrides(v.forcing.value, v.metdir.value, v.co2File, v.inputdata)
  {
  }

  /** The history settings: transient land use and daily output, or the spinup lines given. */
  function HistoryLines(v: CaseView, env: CaseEnv): seq<string>
    requires v.rundir.Some? && v.casename.Some?
  {
    if IsTransientName(v.casename.value)
    then TransientOverrides(v.nopftdyn, if v.pftdynfile == "" then v.rundir.value + "/surfdata.pftdyn.nc" else v.pftdynfile)
    else env.spinupHistvars
  }

  /**
   * A completed run writes the accelerated-spinup settings and the surface file (by default
   * the one in the run directory), then for a transient case name the land-use and
   * daily-output settings, otherwise the spinup history settings it was given.
   */
  lemma CompletedSurface(v: CaseView, env: CaseEnv)
    requires SetupTrace(v, env).failure.None?
    ensures Ready(v)
    ensures var nl := SetupTrace(v, env).namelist;
      && Infix(SpinupOverrides(), nl)
      && Infix([OverrideLine("fsurdat", Quote(if v.surffile == "" then v.rundir.value + "/surfdata.nc" else v.surffile))], nl)
      && Infix(HistoryLines(v, env), nl)
  {
    CompletedRun(v, env);
    NamelistSegmentParts(v, env);
    var a := [OverrideLine("do_budgets", ".false.")];
    var b := [OverrideLine("fsurdat", Quote(if v.surffile == "" then v.rundir.value + "/surfdata.nc" else v.surffile))];
    var d := [ OverrideLine("paramfile", Quote(v.rundir.value + "/clm_params.nc")),
               OverrideLine("fsoilordercon", Quote(v.rundir.value + "/CNP_parameters.nc")) ];
    var B := BypassOverrides(v.forcing.value, v.metdir.value, v.co2File, v.inputdata);
    InfixParts(FinidatLines(v), a + b + HistoryLines(v, env) + d, a, b, HistoryLines(v, env), d, SpinupOverrides(), B);
  }


  /**
   * Where the case looks for its domain file: with no domain file, `domain.nc` in the run
   * directory; with a path that has a directory part and a file name, those two parts,
   * which rejoin to the path; with a bare file name, the directory part is empty, so
   * xmlchange issues nothing and the domain path settings keep their previous values.
   */
  lemma DomainLocation(d: string)
    ensures d == "" ==>
      && LastSet(DomainDirectives(d), "ATM_DOMAIN_PATH") == Some(RundirRef)
      && LastSet(DomainDirectives(d), "LND_DOMAIN_PATH") == Some(RundirRef)
      && LastSet(DomainDirectives(d), "ATM_DOMAIN_FILE") == Some("domain.nc")
      && LastSet(DomainDirectives(d), "LND_DOMAIN_FILE") == Some("domain.nc")
    ensures '/' in d && DirName(d) != "" && BaseName(d) != "" ==>
      && LastSet(DomainDirectives(d), "ATM_DOMAIN_PATH") == Some(DirName(d))
      && LastSet(DomainDirectives(d), "LND_DOMAIN_PATH") == Some(DirName(d))
      && LastSet(DomainDirectives(d), "ATM_DOMAIN_FILE") == Some(BaseName(d))
      && LastSet(DomainDirectives(d), "LND_DOMAIN_FILE") == Some(BaseName(d))
      && DirName(d) + "/" + BaseName(d) == d
    ensures d != "" && '/' !in d ==>
      && LastSet(DomainDirectives(d), "ATM_DOMAIN_PATH") == None
      && LastSet(DomainDirectives(d), "LND_DOMAIN_PATH") == None
      && LastSet(DomainDirectives(d), "ATM_DOMAIN_FILE") == Some(d)
      && LastSet(DomainDirectives(d), "LND_DOMAIN_FILE") == Some(d)
  {
    var dom := if d == "" then RundirRef else DirName(d);
    var file := if d == "" then "domain.nc" else BaseName(d);
    if d != "" {
      if '/' in d {
        DirNameBaseName(d);
      } else {
        DirNameBaseNameFlat(d);
      }
    }
    TwoPairSettings("ATM_DOMAIN_PATH", "LND_DOMAIN_PATH", "ATM_DOMAIN_FILE", "LND_DOMAIN_FILE", dom, file);
  }

  /** Two settings given the same value: each ends up with that value, or unset when it is empty. */
  lemma PairSettings(x: string, y: string, value: string)
    requires x != y
    ensures var ds := XmlChange(x, value, "") + XmlChange(y, value, "");
      && LastSet(ds, x) == (if value == "" then None else Some(value))
      && LastSet(ds, y) == (if value == "" then None else Some(value))
  {
    var ds := XmlChange(x, value, "") + XmlChange(y, value, "");
    if value != "" {
      assert ds == [Directive(x, value, false), Directive(y, value, false)];
      assert ds[..1] == [Directive(x, value, false)];
    }
  }

  /** A pair of settings names only its own two variables. */
  lemma PairAvoids(a: string, b: string, value: string, z: string)
    requires z != a && z != b
    ensures Avoids(XmlChange(a, value, "") + XmlChange(b, value, ""), z)
  {
  }

  /** Directives that never name `z` in front of others leave the others to decide it. */
  lemma LaterDecides(p: seq<Directive>, q: seq<Directive>, z: string)
    requires Avoids(p, z)
    ensures LastSet(p + q, z) == LastSet(q, z)
  {
    NeverSet(p, z);
    LastSetConcat(p, q, z);
  }

  /** Two pairs of settings, the first pair given one value and the second another. */
  lemma TwoPairSettings(x: string, y: string, u: string, w: string, dom: string, file: string)
    requires x != y && u != w && x != u && x != w && y != u && y != w
    ensures var ds := XmlChange(x, dom, "") + XmlChange(y, dom, "") + (XmlChange(u, file, "") + XmlChange(w, file, ""));
      && LastSet(ds, x) == (if dom == "" then None else Some(dom))
      && LastSet(ds, y) == (if dom == "" then None else Some(dom))
      && LastSet(ds, u) == (if file == "" then None else Some(file))
      && LastSet(ds, w) == (if file == "" then None else Some(file))
  {
    var paths := XmlChange(x, dom, "") + XmlChange(y, dom, "");
    var files := XmlChange(u, file, "") + XmlChange(w, file, "");
    PairSettings(x, y, dom);
    PairSettings(u, w, file);
    PairAvoids(u, w, file, x);
    PairAvoids(u, w, file, y);
    LastSetUntouched(paths, files, x);
    LastSetUntouched(paths, files, y);
    PairAvoids(x, y, dom, u);
    PairAvoids(x, y, dom, w);
    LaterDecides(paths, files, u);
    LaterDecides(paths, files, w);
  }
}
