/**
 * Forcing resolution: which meteorological forcing a case uses, where its data live
 * (metinfo.txt lookup), and which years it covers (site-metadata table, reanalysis rules).
 * The files are given as their contents: metinfo.txt as its lines, the site table as the
 * rows the csv reader yields.
 */
module Forcing {
  import opened Wrappers
  import opened PyStr
  import opened CaseRules

  /** Appended to gridded forcing directories; the guard in front of it is the uncalled `is_bypass`, always true. */
  const BypassSubdir: string := "/cpl_bypass_full"

  /** The default single-point forcing directory of a site (main.py:126). */
  function SiteMetdir(inputdata: string, site: string): string {
    inputdata + "/atm/datm7/CLM1PT_data/1x1pt_" + site
  }

  /** The GSWP3 fallback directory (main.py:141-143). */
  function Gswp3Metdir(inputdata: string): string {
    inputdata + "/atm/datm7/atm_forcing.datm7.GSWP3.0.5d.v2.c180716" + BypassSubdir
  }

  // ----- metinfo.txt: `name:path` lines (model_ELM/main.py:128-136) -----

  /** The text before the first ':' of the line names the forcing type. */
  predicate MetinfoMatches(line: string, mettype: string) {
    Split(line, ':')[0] == mettype
  }

  /**
   * One line of metinfo.txt. A matching line sets the directory to the input-data root,
   * '/', the stripped second field and the bypass subdirectory; a matching line with no
   * ':' (the line is exactly the type name) has no second field (IndexError).
   */
  function MetinfoStep(line: string, mettype: string, inputdata: string, metdir: Option<string>): Scan<Option<string>> {
    var parts := Split(line, ':');
    if parts[0] != mettype then Scan(metdir, None)
    else if |parts| < 2 then Scan(metdir, Some(Raised(IndexError)))
    else Scan(Some(inputdata + "/" + Strip(parts[1]) + BypassSubdir), None)
  }

  /** The loop over metinfo.txt, line by line, stopping at the first exception. */
  function MetinfoScan(lines: seq<string>, mettype: string, inputdata: string, metdir: Option<string>): Scan<Option<string>>
    decreases |lines|
  {
    if lines == [] then Scan(metdir, None)
    else
      var prev := MetinfoScan(lines[..|lines| - 1], mettype, inputdata, metdir);
      if prev.failure.Some? then prev
      else MetinfoStep(lines[|lines| - 1], mettype, inputdata, prev.state)
  }

  /** The index of the last line naming `mettype`, if any. */
  function LastMetinfoMatch(lines: seq<string>, mettype: string): (k: Option<nat>)
    ensures k.Some? ==> k.value < |lines| && MetinfoMatches(lines[k.value], mettype)
    ensures k.Some? ==> forall j :: k.value < j < |lines| ==> !MetinfoMatches(lines[j], mettype)
    ensures k.None? ==> forall j :: 0 <= j < |lines| ==> !MetinfoMatches(lines[j], mettype)
    decreases |lines|
  {
    if lines == [] then None
    else if MetinfoMatches(lines[|lines| - 1], mettype) then Some(|lines| - 1)
    else LastMetinfoMatch(lines[..|lines| - 1], mettype)
  }

  /** The lookup fails exactly when some line naming the type has no ':'. */
  lemma {:induction false} MetinfoScanFailsIff(lines: seq<string>, mettype: string, inputdata: string, metdir: Option<string>)
    ensures MetinfoScan(lines, mettype, inputdata, metdir).failure.None? <==>
      forall j :: 0 <= j < |lines| && MetinfoMatches(lines[j], mettype) ==> |Split(lines[j], ':')| >= 2
    decreases |lines|
  {
    if lines != [] {
      var init := lines[..|lines| - 1];
      MetinfoScanFailsIff(init, mettype, inputdata, metdir);
      assert forall j :: 0 <= j < |init| ==> init[j] == lines[j];
    }
  }

  /**
   * When the lookup succeeds, the last line naming the type decides the directory; with
   * no such line the directory keeps its previous value.
   */
  lemma {:induction false} MetinfoLastMatchWins(lines: seq<string>, mettype: string, inputdata: string, metdir: Option<string>)
    requires MetinfoScan(lines, mettype, inputdata, metdir).failure.None?
    ensures var k := LastMetinfoMatch(lines, mettype);
      && (k.None? ==> MetinfoScan(lines, mettype, inputdata, metdir).state == metdir)
      && (k.Some? ==>
            |Split(lines[k.value], ':')| >= 2 &&
            MetinfoScan(lines, mettype, inputdata, metdir).state ==
              Some(inputdata + "/" + Strip(Split(lines[k.value], ':')[1]) + BypassSubdir))
    decreases |lines|
  {
    if lines != [] {
      var init := lines[..|lines| - 1];
      if !MetinfoMatches(lines[|lines| - 1], mettype) {
        MetinfoLastMatchWins(init, mettype, inputdata, metdir);
      }
    }
  }

  /** Once the metinfo read has raised, further lines change nothing. */
  lemma {:induction false} MetinfoScanStaysFailed(lines: seq<string>, mettype: string, inputdata: string, metdir: Option<string>, k: nat)
    requires k <= |lines|
    requires MetinfoScan(lines[..k], mettype, inputdata, metdir).failure.Some?
    ensures MetinfoScan(lines, mettype, inputdata, metdir) == MetinfoScan(lines[..k], mettype, inputdata, metdir)
    decreases |lines| - k
  {
    if k < |lines| {
      assert lines[..k + 1][..k] == lines[..k];
      MetinfoScanStaysFailed(lines, mettype, inputdata, metdir, k + 1);
    } else {
      assert lines[..k] == lines;
    }
  }

  // ----- Forcing type and directory (model_ELM/main.py:120-153) -----

  datatype ForcingState = ForcingState(forcing: Option<string>, metdir: Option<string>)

  /**
   * The forcing type and directory chosen by `get_forcing` before it reads the year
   * range, from the explicit directory and type (either may be empty).
   */
  function ResolveForcing(site: string, inputdata: string, metdirArg: string, mettype: string,
                          metinfo: seq<string>, prior: ForcingState): (r: Scan<ForcingState>)
    ensures r.state.forcing.Some?
    ensures r.state.forcing == Some("site") <==> mettype == "site" || (site != "" && mettype == "")
    ensures mettype != "" ==> r.state.forcing == Some(mettype)
    ensures metdirArg == "" && site != "" && (mettype == "" || mettype == "site") ==>
      r == Scan(ForcingState(Some("site"), Some(SiteMetdir(inputdata, site))), None)
    ensures metdirArg == "" && site == "" && mettype == "" ==>
      r == Scan(ForcingState(Some("gswp3"), Some(Gswp3Metdir(inputdata))), None)
    ensures metdirArg == "" && mettype != "" && !(site != "" && mettype == "site") ==>
      var sc := MetinfoScan(metinfo, mettype, inputdata, prior.metdir);
      r.state.metdir == sc.state && r.failure == sc.failure
    ensures r.failure.None? ==> r.state.metdir.Some? || (metdirArg == "" && mettype != "" && (site == "" || mettype != "site"))
    ensures metdirArg != "" && r.failure.None? ==> r.state.metdir == Some(metdirArg)
    ensures r.failure.Some? <==>
      || (metdirArg != "" && mettype == "" && site == "")
      || (metdirArg == "" && mettype != "" && !(site != "" && mettype == "site") &&
          MetinfoScan(metinfo, mettype, inputdata, prior.metdir).failure.Some?)
  {
    if metdirArg == "" then
      if site != "" && (mettype == "" || mettype == "site") then
        Scan(ForcingState(Some("site"), Some(SiteMetdir(inputdata, site))), None)
      else if mettype != "" then
        var sc := MetinfoScan(metinfo, mettype, inputdata, prior.metdir);
        Scan(ForcingState(Some(mettype), sc.state), sc.failure)
      else
        Scan(ForcingState(Some("gswp3"), Some(Gswp3Metdir(inputdata))), None)
    else if site != "" && mettype == "" then
      Scan(ForcingState(Some("site"), Some(metdirArg)), None)
    else if mettype == "" then
      Scan(ForcingState(Some(mettype), prior.metdir),
           Some(Exit("Error: When specifying metdir, Must also specify met type (e.g. gswp3)")))
    else
      Scan(ForcingState(Some(mettype), Some(metdirArg)), None)
  }

  // ----- Site table rows (model_ELM/main.py:285-293) -----

  /** The met-data attributes of the case; None is an attribute never assigned. */
  datatype MetYears = MetYears(start: Option<int>, end: Option<int>, align: Option<int>, timezone: Option<int>)

  /** `int(row[k])`: IndexError past the end of the row, ValueError on a non-integer. */
  function IntColumn(row: seq<string>, k: nat): (r: Result<int, Failure>)
    ensures r.Ok? <==> k < |row| && ParseInt(row[k]).Some?
    ensures r.Ok? ==> ParseInt(row[k]) == Some(r.value)
  {
    if k >= |row| then Err(Raised(IndexError))
    else if ParseInt(row[k]).None? then Err(Raised(ValueError))
    else Ok(ParseInt(row[k]).value)
  }

  predicate SiteRowMatches(row: seq<string>, site: string) {
    |row| > 0 && row[0] == site
  }

  /**
   * One csv row. A blank row has no column 0 (IndexError). The row of the site assigns
   * start, end and align years from columns 6, 7 and 8, one after the other, and the UTC
   * offset from column 9 only when the row has exactly ten columns.
   */
  function SiteRowStep(row: seq<string>, site: string, m: MetYears): Scan<MetYears> {
    if |row| == 0 then Scan(m, Some(Raised(IndexError)))
    else if row[0] != site then Scan(m, None)
    else
      var c6 := IntColumn(row, 6);
      if c6.Err? then Scan(m, Some(c6.error))
      else
        var m1 := m.(start := Some(c6.value));
        var c7 := IntColumn(row, 7);
        if c7.Err? then Scan(m1, Some(c7.error))
        else
          var m2 := m1.(end := Some(c7.value));
          var c8 := IntColumn(row, 8);
          if c8.Err? then Scan(m2, Some(c8.error))
          else
            var m3 := m2.(align := Some(c8.value));
            if |row| != 10 then Scan(m3, None)
            else
              var c9 := IntColumn(row, 9);
              if c9.Err? then Scan(m3, Some(c9.error))
              else Scan(m3.(timezone := Some(c9.value)), None)
  }

  /** The loop over the site table, row by row, stopping at the first exception. */
  function SiteScan(rows: seq<seq<string>>, site: string, m: MetYears): Scan<MetYears>
    decreases |rows|
  {
    if rows == [] then Scan(m, None)
    else
      var prev := SiteScan(rows[..|rows| - 1], site, m);
      if prev.failure.Some? then prev
      else SiteRowStep(rows[|rows| - 1], site, prev.state)
  }

  /** The index of the last row of the site, if any. */
  function LastSiteRow(rows: seq<seq<string>>, site: string): (k: Option<nat>)
    ensures k.Some? ==> k.value < |rows| && SiteRowMatches(rows[k.value], site)
    ensures k.Some? ==> forall j :: k.value < j < |rows| ==> !SiteRowMatches(rows[j], site)
    ensures k.None? ==> forall j :: 0 <= j < |rows| ==> !SiteRowMatches(rows[j], site)
    decreases |rows|
  {
    if rows == [] then None
    else if SiteRowMatches(rows[|rows| - 1], site) then Some(|rows| - 1)
    else LastSiteRow(rows[..|rows| - 1], site)
  }

  /**
   * When the table is read without an exception, the last row of the site sets the start,
   * end and align years (and, if it has ten columns, the UTC offset); with no row of the
   * site nothing changes.
   */
  lemma {:induction false} SiteScanLastRowWins(rows: seq<seq<string>>, site: string, m: MetYears)
    requires SiteScan(rows, site, m).failure.None?
    ensures var r := SiteScan(rows, site, m).state;
      var k := LastSiteRow(rows, site);
      && (k.None? ==> r == m)
      && (k.Some? ==>
            |rows[k.value]| >= 9 &&
            r.start == ParseInt(rows[k.value][6]) && r.end == ParseInt(rows[k.value][7]) &&
            r.align == ParseInt(rows[k.value][8]) &&
            r.start.Some? && r.end.Some? && r.align.Some? &&
            (|rows[k.value]| == 10 ==> r.timezone == ParseInt(rows[k.value][9])))
    decreases |rows|
  {
    if rows != [] {
      var init := rows[..|rows| - 1];
      if !SiteRowMatches(rows[|rows| - 1], site) {
        SiteScanLastRowWins(init, site, m);
      }
    }
  }

  /** The UTC offset is only ever set from a row of exactly ten columns. */
  lemma {:induction false} SiteScanTimezone(rows: seq<seq<string>>, site: string, m: MetYears)
    requires forall j :: 0 <= j < |rows| && SiteRowMatches(rows[j], site) ==> |rows[j]| != 10
    ensures SiteScan(rows, site, m).state.timezone == m.timezone
    decreases |rows|
  {
    if rows != [] {
      var init := rows[..|rows| - 1];
      assert forall j :: 0 <= j < |init| ==> init[j] == rows[j];
      SiteScanTimezone(init, site, m);
    }
  }

  /** A blank row anywhere in the table stops the read with an exception. */
  lemma {:induction false} SiteScanBlankRowFails(rows: seq<seq<string>>, site: string, m: MetYears, j: nat)
    requires j < |rows| && |rows[j]| == 0
    ensures SiteScan(rows, site, m).failure.Some?
    decreases |rows|
  {
    var init := rows[..|rows| - 1];
    if j < |rows| - 1 {
      assert init[j] == rows[j];
      SiteScanBlankRowFails(init, site, m, j);
    }
  }

  /** Once the site-table read has raised, further rows change nothing. */
  lemma {:induction false} SiteScanStaysFailed(rows: seq<seq<string>>, site: string, m: MetYears, k: nat)
    requires k <= |rows|
    requires SiteScan(rows[..k], site, m).failure.Some?
    ensures SiteScan(rows, site, m) == SiteScan(rows[..k], site, m)
    decreases |rows| - k
  {
    if k < |rows| {
      assert rows[..k + 1][..k] == rows[..k];
      SiteScanStaysFailed(rows, site, m, k + 1);
    } else {
      assert rows[..k] == rows;
    }
  }

  // ----- Year range (model_ELM/main.py:294-305) -----

  /** The first forcing year of a reanalysis: 1901, 1980 for Daymet, 1948 for Qian (tested last, so it wins). */
  function ReanalysisStartYear(forcing: string): (y: int)
    ensures y == 1948 <==> Contains(forcing, "Qian")
    ensures y == 1980 <==> Contains(forcing, "daymet") && !Contains(forcing, "Qian")
    ensures y == 1901 <==> !Contains(forcing, "daymet") && !Contains(forcing, "Qian")
  {
    var y := 1901;
    var y := if Contains(forcing, "daymet") then 1980 else y;
    if Contains(forcing, "Qian") then 1948 else y
  }

  datatype YearRange = YearRange(years: MetYears, nyearsSpinup: Option<int>)

  /**
   * What `get_metdata_year_range` does after the table: the spinup length is end - start + 1
   * (an AttributeError if either year was never assigned); then, for any forcing other than
   * site data, the start year comes from the reanalysis rule, the end year becomes 2014 only
   * for a transient case name, and the spinup length is 20. The end year computed at
   * main.py:302 is never used.
   */
  function FinishYearRange(m: MetYears, nyears: Option<int>, forcing: string, casename: Option<string>): (r: Scan<YearRange>)
    ensures r.failure.None? <==>
      m.start.Some? && m.end.Some? && (forcing == "site" || casename.Some?)
    ensures r.failure.None? && forcing == "site" ==>
      r.state == YearRange(m, Some(m.end.value - m.start.value + 1))
    ensures r.failure.None? && forcing != "site" ==>
      && r.state.nyearsSpinup == Some(20)
      && r.state.years.start == Some(ReanalysisStartYear(forcing))
      && r.state.years.end == (if IsTransientName(casename.value) then Some(2014) else m.end)
      && r.state.years.align == m.align && r.state.years.timezone == m.timezone
  {
    if m.start.None? || m.end.None? then Scan(YearRange(m, nyears), Some(Raised(AttributeError)))
    else
      var spinup := m.end.value - m.start.value + 1;
      if forcing == "site" then Scan(YearRange(m, Some(spinup)), None)
      else
        var m1 := m.(start := Some(ReanalysisStartYear(forcing)));
        if casename.None? then Scan(YearRange(m1, Some(spinup)), Some(Raised(AttributeError)))
        else
          var m2 := if IsTransientName(casename.value) then m1.(end := Some(2014)) else m1;
          Scan(YearRange(m2, Some(20)), None)
  }

  /**
   * A case without a site whose met years were never assigned (as after the constructor)
   * cannot get its year range: the end year is read before anything assigns it.
   */
  lemma RegionalYearRangeUnassigned(m: MetYears, nyears: Option<int>, forcing: string, casename: Option<string>)
    requires m.end.None?
    ensures FinishYearRange(m, nyears, forcing, casename).failure == Some(Raised(AttributeError))
    ensures FinishYearRange(m, nyears, forcing, casename).state == YearRange(m, nyears)
  {
  }
}
