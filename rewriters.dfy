/**
 * The line-by-line rewrites of build-configuration and data-stream files. Each file is
 * given as its lines (newline kept at the end of each, as Python iterates a file); each
 * rule looks at one line and yields the lines written in its place.
 */
module Rewriters {
  import opened Wrappers
  import opened PyStr

  // ----- Macros.make / Macros.cmake (model_ELM/main.py:450-466) -----

  const BypassFlag: string := " -DCPL_BYPASS\n"

  /**
   * One Macros line, first matching rule: a CPPDEFS line loses its last character (its
   * newline) and gains the bypass flag; else an llapack line links gfortran after lapack;
   * else the medium code model becomes the small one.
   */
  function MacroLine(s: string): string {
    if Contains(s, "CPPDEFS") then
      ContainsLength(s, "CPPDEFS");
      s[..|s| - 1] + BypassFlag
    else if Contains(s, "llapack") then Replace(s, "llapack", "llapack -lgfortran")
    else Replace(s, "mcmodel=medium", "mcmodel=small")
  }

  /** A CPPDEFS line keeps everything before its final character and ends with the bypass flag. */
  lemma MacroLineCppdefs(s: string)
    requires Contains(s, "CPPDEFS")
    ensures |s| >= 7
    ensures MacroLine(s) == s[..|s| - 1] + BypassFlag
    ensures IsPrefix(s[..|s| - 1], MacroLine(s))
  {
    ContainsLength(s, "CPPDEFS");
    assert MacroLine(s)[..|s| - 1] == s[..|s| - 1];
  }

  /** A line none of the rules mention is copied unchanged. */
  lemma MacroLinePassThrough(s: string)
    requires !Contains(s, "CPPDEFS") && !Contains(s, "llapack") && !Contains(s, "mcmodel=medium")
    ensures MacroLine(s) == s
  {
    ReplaceAbsent(s, "mcmodel=medium", "mcmodel=small");
  }

  /** The rewritten file: one output line per input line, in order. */
  function MacroRewrite(lines: seq<string>): (out: seq<string>)
    ensures |out| == |lines|
    ensures forall i :: 0 <= i < |lines| ==> out[i] == MacroLine(lines[i])
  {
    seq(|lines|, i requires 0 <= i < |lines| => MacroLine(lines[i]))
  }

  /** The rewrite loop, writing each line's replacement to the output buffer. */
  method RewriteMacros(lines: seq<string>) returns (out: seq<string>)
    ensures out == MacroRewrite(lines)
  {
    out := [];
    var i := 0;
    while i < |lines|
      invariant 0 <= i <= |lines|
      invariant out == MacroRewrite(lines[..i])
    {
      var s := lines[i];
      var stemp: string;
      if Contains(s, "CPPDEFS") {
        ContainsLength(s, "CPPDEFS");
        stemp := s[..|s| - 1] + BypassFlag;
      } else if Contains(s, "llapack") {
        stemp := Replace(s, "llapack", "llapack -lgfortran");
      } else {
        stemp := Replace(s, "mcmodel=medium", "mcmodel=small");
      }
      out := out + [stemp];
      i := i + 1;
      assert lines[..i] == lines[..i - 1] + [s];
    }
    assert lines[..|lines|] == lines;
  }

  /** The line echoed onto cmake_macros/universal.cmake. */
  const UniversalCmakeLine: string := "string(APPEND CPPDEFS \" -DCPL_BYPASS\")\n"

  /** universal.cmake after the echo: its lines followed by the bypass definition. */
  function UniversalCmake(lines: seq<string>): (out: seq<string>)
    ensures |out| == |lines| + 1 && out[..|lines|] == lines
    ensures Contains(out[|lines|], "CPPDEFS")
  {
    ContainsSelf("CPPDEFS");
    ContainsInfix("string(APPEND ", "CPPDEFS", " \" -DCPL_BYPASS\")\n", "CPPDEFS");
    assert "string(APPEND " + "CPPDEFS" + " \" -DCPL_BYPASS\")\n" == UniversalCmakeLine;
    lines + [UniversalCmakeLine]
  }

  // ----- datm_in -> user_nl_datm (model_ELM/main.py:522-556) -----

  /** The transient test of the stream rewrite: the case name says 'trans' or the compset '20TR'. */
  predicate StreamTransient(casename: string, compset: string) {
    Contains(casename, "trans") || Contains(compset, "20TR")
  }

  /** The time-axis modes of the streams, with one more 'extend' for a transient run. */
  function TaxmodeLine(transient: bool): string {
    "taxmode = 'cycle', 'extend', 'extend'" + (if transient then ", 'extend'" else "") + "\n"
  }

  /**
   * One datm_in line, first matching rule: the `streams =` line is replaced by the
   * streams line; any other line mentioning streams is dropped; the taxmode line is
   * rewritten; everything else is copied.
   */
  function StreamLine(s: string, streamsLine: string, transient: bool): (out: seq<string>)
    ensures |out| <= 1
    ensures out == [] <==> Contains(s, "streams") && !Contains(s, "streams =")
  {
    if Contains(s, "streams =") then [streamsLine]
    else if Contains(s, "streams") then []
    else if Contains(s, "taxmode") then [TaxmodeLine(transient)]
    else [s]
  }

  /** user_nl_datm: the replacements of the datm_in lines, concatenated in order. */
  function DatmRewrite(lines: seq<string>, streamsLine: string, transient: bool): (out: seq<string>)
    ensures |out| <= |lines|
    decreases |lines|
  {
    if lines == [] then []
    else DatmRewrite(lines[..|lines| - 1], streamsLine, transient) + StreamLine(lines[|lines| - 1], streamsLine, transient)
  }

  /** The rewrite loop over datm_in, writing to the output buffer. */
  method RewriteDatmIn(lines: seq<string>, streamsLine: string, transient: bool) returns (out: seq<string>)
    ensures out == DatmRewrite(lines, streamsLine, transient)
  {
    out := [];
    var i := 0;
    while i < |lines|
      invariant 0 <= i <= |lines|
      invariant out == DatmRewrite(lines[..i], streamsLine, transient)
    {
      var s := lines[i];
      assert lines[..i + 1][..i] == lines[..i];
      if Contains(s, "streams =") {
        out := out + [streamsLine];
      } else if Contains(s, "streams") {
        // the line is left out
      } else if Contains(s, "taxmode") {
        out := out + [TaxmodeLine(transient)];
      } else {
        out := out + [s];
      }
      i := i + 1;
    }
    assert lines[..|lines|] == lines;
  }

  /** A line neither the streams nor the taxmode rule touches. */
  predicate Plain(s: string) {
    !Contains(s, "streams") && !Contains(s, "taxmode")
  }

  function PlainLines(lines: seq<string>): seq<string>
    decreases |lines|
  {
    if lines == [] then []
    else PlainLines(lines[..|lines| - 1]) + (if Plain(lines[|lines| - 1]) then [lines[|lines| - 1]] else [])
  }

  lemma {:induction false} PlainLinesConcat(a: seq<string>, b: seq<string>)
    ensures PlainLines(a + b) == PlainLines(a) + PlainLines(b)
    decreases |b|
  {
    if b == [] {
      assert a + b == a;
    } else {
      var b' := b[..|b| - 1];
      assert (a + b)[..|a + b| - 1] == a + b';
      PlainLinesConcat(a, b');
    }
  }

  /** The rewritten taxmode line is again a taxmode line. */
  lemma TaxmodeLineMentionsTaxmode(transient: bool)
    ensures Contains(TaxmodeLine(transient), "taxmode")
  {
    var line := TaxmodeLine(transient);
    assert line[..7] == "taxmode";
  }

  /** The rewritten taxmode line never mentions streams: it has no 'r'. */
  lemma TaxmodeLineNoStreams(transient: bool)
    ensures !Contains(TaxmodeLine(transient), "streams")
  {
    var line := TaxmodeLine(transient);
    assert 'r' !in line;
    MissingCharNotContains(line, "streams", 'r');
  }

  lemma TaxmodeLineMarkers(transient: bool)
    ensures Contains(TaxmodeLine(transient), "taxmode")
    ensures !Contains(TaxmodeLine(transient), "streams")
  {
    TaxmodeLineMentionsTaxmode(transient);
    TaxmodeLineNoStreams(transient);
  }

  /**
   * Every line no rule touches is copied, and they keep their order: the plain lines of the
   * output are those of the input, provided the streams line itself mentions streams.
   */
  lemma {:induction false} DatmRewriteKeepsPlainLines(lines: seq<string>, streamsLine: string, transient: bool)
    requires Contains(streamsLine, "streams")
    ensures PlainLines(DatmRewrite(lines, streamsLine, transient)) == PlainLines(lines)
    decreases |lines|
  {
    if lines != [] {
      var init := lines[..|lines| - 1];
      var s := lines[|lines| - 1];
      DatmRewriteKeepsPlainLines(init, streamsLine, transient);
      PlainLinesConcat(DatmRewrite(init, streamsLine, transient), StreamLine(s, streamsLine, transient));
      TaxmodeLineMarkers(transient);
      if Contains(s, "streams =") {
        assert PlainLines([streamsLine]) == PlainLines([]) + [] by {
          assert [streamsLine][..0] == [];
        }
        assert Contains(s, "streams") by {
          ContainsLongerMarker(s);
        }
      } else if Contains(s, "streams") {
      } else if Contains(s, "taxmode") {
        assert [TaxmodeLine(transient)][..0] == [];
      } else {
        assert [s][..0] == [];
      }
    }
  }

  /** A line with `streams =` mentions streams. */
  lemma {:induction false} ContainsLongerMarker(s: string)
    requires Contains(s, "streams =")
    ensures Contains(s, "streams")
    decreases |s|
  {
    if IsPrefix("streams =", s) {
      assert s[..7] == "streams";
    } else {
      ContainsLongerMarker(s[1..]);
    }
  }

  /** Each line the rewrite writes is written unchanged by a second rewrite. */
  lemma StreamLineFixed(s: string, streamsLine: string, transient: bool)
    requires Contains(streamsLine, "streams =")
    ensures DatmRewrite(StreamLine(s, streamsLine, transient), streamsLine, transient) == StreamLine(s, streamsLine, transient)
  {
    var step := StreamLine(s, streamsLine, transient);
    if step != [] {
      var t := step[0];
      assert step == [t] && step[..0] == [];
      if !Contains(s, "streams =") && Contains(s, "taxmode") {
        TaxmodeLineMarkers(transient);
        assert !Contains(t, "streams =") by {
          if Contains(t, "streams =") { ContainsLongerMarker(t); }
        }
      }
      assert StreamLine(t, streamsLine, transient) == [t];
    }
  }

  /** Rewriting user_nl_datm again changes nothing, when the streams line is itself a `streams =` line. */
  lemma {:induction false} DatmRewriteIdempotent(lines: seq<string>, streamsLine: string, transient: bool)
    requires Contains(streamsLine, "streams =")
    ensures DatmRewrite(DatmRewrite(lines, streamsLine, transient), streamsLine, transient) ==
            DatmRewrite(lines, streamsLine, transient)
    decreases |lines|
  {
    if lines != [] {
      var init := lines[..|lines| - 1];
      var s := lines[|lines| - 1];
      DatmRewriteIdempotent(init, streamsLine, transient);
      DatmRewriteConcat(DatmRewrite(init, streamsLine, transient), StreamLine(s, streamsLine, transient), streamsLine, transient);
      StreamLineFixed(s, streamsLine, transient);
    }
  }

  lemma {:induction false} DatmRewriteConcat(a: seq<string>, b: seq<string>, streamsLine: string, transient: bool)
    ensures DatmRewrite(a + b, streamsLine, transient) ==
            DatmRewrite(a, streamsLine, transient) + DatmRewrite(b, streamsLine, transient)
    decreases |b|
  {
    if b == [] {
      assert a + b == a;
    } else {
      var b' := b[..|b| - 1];
      assert (a + b)[..|a + b| - 1] == a + b';
      DatmRewriteConcat(a, b', streamsLine, transient);
    }
  }

  // ----- Aerosol deposition stream (model_ELM/main.py:560-570) -----

  const AerosolLine: string := "            " + "aerosoldep_monthly" + "_1849-2006_1.9x2.5_c090803.nc\n"

  /** One line of the aerosol stream file: the data-file line names the 1849-2006 climatology. */
  function AerosolStreamLine(s: string): string {
    if Contains(s, "aerosoldep_monthly") then AerosolLine else s
  }

  function AerosolRewrite(lines: seq<string>): (out: seq<string>)
    ensures |out| == |lines|
    ensures forall i :: 0 <= i < |lines| ==> out[i] == AerosolStreamLine(lines[i])
  {
    seq(|lines|, i requires 0 <= i < |lines| => AerosolStreamLine(lines[i]))
  }

  lemma AerosolLineMarker()
    ensures Contains(AerosolLine, "aerosoldep_monthly")
  {
    ContainsSelf("aerosoldep_monthly");
    ContainsInfix("            ", "aerosoldep_monthly", "_1849-2006_1.9x2.5_c090803.nc\n", "aerosoldep_monthly");
  }

  /** The aerosol rewrite is idempotent: its replacement line is itself an aerosol-file line. */
  lemma AerosolRewriteIdempotent(lines: seq<string>)
    ensures AerosolRewrite(AerosolRewrite(lines)) == AerosolRewrite(lines)
  {
    AerosolLineMarker();
  }

  // ----- CO2 time-series stream (model_ELM/main.py:572-581) -----

  /** One line of the CO2 stream file: a line naming a netCDF file names the case's CO2 file instead. */
  function Co2StreamLine(s: string, co2File: string): string {
    if Contains(s, ".nc") then "      " + co2File + "\n" else s
  }

  function Co2Rewrite(lines: seq<string>, co2File: string): (out: seq<string>)
    ensures |out| == |lines|
    ensures forall i :: 0 <= i < |lines| ==> out[i] == Co2StreamLine(lines[i], co2File)
  {
    seq(|lines|, i requires 0 <= i < |lines| => Co2StreamLine(lines[i], co2File))
  }

  /** With a netCDF CO2 file, every file line names it after the rewrite, and a second rewrite changes nothing. */
  lemma Co2RewriteIdempotent(lines: seq<string>, co2File: string)
    requires Contains(co2File, ".nc")
    ensures Co2Rewrite(Co2Rewrite(lines, co2File), co2File) == Co2Rewrite(lines, co2File)
  {
    ContainsInfix("      ", co2File, "\n", ".nc");
  }

  // ----- CLM1PT stream directories (model_ELM/main.py:583-598) -----

  /** `str(numxpts) + 'x' + str(numypts) + 'pt' + '_' + site`: the grid token of a point dataset. */
  function PointToken(numxpts: int, numypts: int, site: string): (t: string)
    ensures t != ""
  {
    IntToString(numxpts) + "x" + IntToString(numypts) + "pt" + "_" + site
  }

  /** Exchanges `CLM1PT_data` and the point token in a line, through a placeholder. */
  function SwapPointDirs(s: string, token: string): string
    requires token != ""
  {
    var temp := Replace(s, "CLM1PT_data", "TEMPSTRING");
    var s2 := Replace(temp, token, "CLM1PT_data");
    Replace(s2, "TEMPSTRING", token)
  }

  /**
   * The swap on a line where `CLM1PT_data` occurs once and is followed later by the point
   * token (as in `.../CLM1PT_data/1x1pt_<site>`): the two change places and the rest of the
   * line is kept. The conditions say that the directory, the token and the placeholder
   * occur only where the line shows them.
   */
  lemma SwapPointDirsExchange(a: string, b: string, c: string, token: string)
    requires token != ""
    requires !Contains(a + "CLM1PT_dat", "CLM1PT_data") && !Contains(b + token + c, "CLM1PT_data")
    requires !Contains(a + "TEMPSTRING" + b + token[..|token| - 1], token) && !Contains(c, token)
    requires !Contains(a + "TEMPSTRIN", "TEMPSTRING") && !Contains(b + "CLM1PT_data" + c, "TEMPSTRING")
    ensures SwapPointDirs(a + "CLM1PT_data" + b + token + c, token) == a + token + b + "CLM1PT_data" + c
  {
    var P, T := "CLM1PT_data", "TEMPSTRING";
    assert P[..|P| - 1] == "CLM1PT_dat" && T[..|T| - 1] == "TEMPSTRIN";
    SwapThrough(a, b, c, P, T, token);
  }

  /** The three replacements of the swap, for any directory name and placeholder. */
  lemma SwapThrough(a: string, b: string, c: string, p: string, t: string, token: string)
    requires p != "" && t != "" && token != ""
    requires !Contains(a + p[..|p| - 1], p) && !Contains(b + token + c, p)
    requires !Contains(a + t + b + token[..|token| - 1], token) && !Contains(c, token)
    requires !Contains(a + t[..|t| - 1], t) && !Contains(b + p + c, t)
    ensures Replace(Replace(Replace(a + p + b + token + c, p, t), token, p), t, token) == a + token + b + p + c
  {
    calc {
      Replace(Replace(Replace(a + p + b + token + c, p, t), token, p), t, token);
      { Reassociate(a, p, b, token, c); }
      Replace(Replace(Replace(a + p + (b + token + c), p, t), token, p), t, token);
      { ReplaceOnce(a, p, b + token + c, t); }
      Replace(Replace(a + t + (b + token + c), token, p), t, token);
      { Reassociate(a, t, b, token, c); }
      Replace(Replace(a + t + b + token + c, token, p), t, token);
      { ReplaceOnce(a + t + b, token, c, p); }
      Replace(a + t + b + p + c, t, token);
      { Reassociate(a, t, b, p, c); }
      Replace(a + t + (b + p + c), t, token);
      { ReplaceOnce(a, t, b + p + c, token); }
      a + token + (b + p + c);
      { Reassociate(a, token, b, p, c); }
      a + token + b + p + c;
    }
  }

  lemma Reassociate(a: string, x: string, b: string, y: string, c: string)
    ensures a + x + b + y + c == a + x + (b + y + c)
  {
  }

  /**
   * One line of the CLM1PT stream file: a line with the data directory has it swapped
   * with the point token; for a FATES compset the longwave (FLDS) line is dropped.
   */
  function Clm1ptLine(s: string, token: string, fates: bool): (out: seq<string>)
    requires token != ""
    ensures |out| <= 1
    ensures out == [] <==> !Contains(s, "CLM1PT_data") && fates && Contains(s, "FLDS")
  {
    if Contains(s, "CLM1PT_data") then [SwapPointDirs(s, token)]
    else if fates && Contains(s, "FLDS") then []
    else [s]
  }

  function Clm1ptRewrite(lines: seq<string>, token: string, fates: bool): (out: seq<string>)
    requires token != ""
    ensures |out| <= |lines|
    decreases |lines|
  {
    if lines == [] then []
    else Clm1ptRewrite(lines[..|lines| - 1], token, fates) + Clm1ptLine(lines[|lines| - 1], token, fates)
  }

  /**
   * Without FATES no line is dropped: each line with the data directory is swapped and
   * every other line is copied unchanged, in place.
   */
  lemma {:induction false} Clm1ptRewriteKeepsCount(lines: seq<string>, token: string)
    requires token != ""
    ensures |Clm1ptRewrite(lines, token, false)| == |lines|
    ensures forall i :: 0 <= i < |lines| ==>
      Clm1ptRewrite(lines, token, false)[i] ==
        (if Contains(lines[i], "CLM1PT_data") then SwapPointDirs(lines[i], token) else lines[i])
    decreases |lines|
  {
    if lines != [] {
      Clm1ptRewriteKeepsCount(lines[..|lines| - 1], token);
    }
  }
}
