/**
 * The case-configuration directives `xmlchange` issues (model_ELM/main.py:308-313): each is
 * a variable, a value, and whether the value is appended to the current setting or
 * replaces it.
 */
module Directives {
  import opened Wrappers
  import opened PyStr

  datatype Directive = Directive(variable: string, value: string, append: bool)

  /**
   * What one `xmlchange` call issues: a replacing directive when the value is non-empty,
   * else an appending one when the appended text is non-empty, else nothing.
   */
  function XmlChange(variable: string, value: string, append: string): (ds: seq<Directive>)
    ensures |ds| <= 1
    ensures ds == [] <==> value == "" && append == ""
    ensures value != "" ==> ds == [Directive(variable, value, false)]
    ensures value == "" && append != "" ==> ds == [Directive(variable, append, true)]
  {
    if value != "" then [Directive(variable, value, false)]
    else if append != "" then [Directive(variable, append, true)]
    else []
  }

  /** The value the last replacing directive for `variable` set, if any. */
  function LastSet(ds: seq<Directive>, variable: string): Option<string>
    decreases |ds|
  {
    if ds == [] then None
    else
      var d := ds[|ds| - 1];
      if d.variable == variable && !d.append then Some(d.value)
      else LastSet(ds[..|ds| - 1], variable)
  }

  /** Later directives override earlier ones: a later setting wins, otherwise the earlier one stands. */
  lemma {:induction false} LastSetConcat(ds: seq<Directive>, es: seq<Directive>, variable: string)
    ensures LastSet(ds + es, variable) ==
      (if LastSet(es, variable).Some? then LastSet(es, variable) else LastSet(ds, variable))
    decreases |es|
  {
    if es == [] {
      assert ds + es == ds;
    } else {
      var es' := es[..|es| - 1];
      assert (ds + es)[..|ds + es| - 1] == ds + es';
      LastSetConcat(ds, es', variable);
    }
  }

  /** Directives that never name `variable` do not change its setting. */
  lemma {:induction false} LastSetUntouched(ds: seq<Directive>, es: seq<Directive>, variable: string)
    requires forall i :: 0 <= i < |es| ==> es[i].variable != variable
    ensures LastSet(ds + es, variable) == LastSet(ds, variable)
    decreases |es|
  {
    if es == [] {
      assert ds + es == ds;
    } else {
      var es' := es[..|es| - 1];
      assert (ds + es)[..|ds + es| - 1] == ds + es';
      LastSetUntouched(ds, es', variable);
    }
  }

  /** The model components whose processor layout is set, in the order the source lists them. */
  const Comps: seq<string> := ["ATM", "LND", "ICE", "OCN", "CPL", "GLC", "ROF", "WAV", "ESP", "IAC"]

  /** The two directives the processor loop issues for one component. */
  function ProcessorPair(comp: string, np: int): (ds: seq<Directive>)
    ensures ds == [Directive("NTASKS_" + comp, IntToString(np), false), Directive("NTHRDS_" + comp, "1", false)]
  {
    XmlChange("NTASKS_" + comp, IntToString(np), "") + XmlChange("NTHRDS_" + comp, "1", "")
  }

  /** The processor loop (model_ELM/main.py:358-361), component by component. */
  function ProcessorDirectives(comps: seq<string>, np: int): (ds: seq<Directive>)
    ensures |ds| == 2 * |comps|
    decreases |comps|
  {
    if comps == [] then []
    else ProcessorDirectives(comps[..|comps| - 1], np) + ProcessorPair(comps[|comps| - 1], np)
  }

  /** For each component in order, its task count is `np` and its thread count 1. */
  lemma {:induction false} ProcessorDirectivesAt(comps: seq<string>, np: int, i: nat)
    requires i < |comps|
    ensures ProcessorDirectives(comps, np)[2 * i] == Directive("NTASKS_" + comps[i], IntToString(np), false)
    ensures ProcessorDirectives(comps, np)[2 * i + 1] == Directive("NTHRDS_" + comps[i], "1", false)
    decreases |comps|
  {
    var init := comps[..|comps| - 1];
    if i < |init| {
      ProcessorDirectivesAt(init, np, i);
    }
  }

  /** Every processor directive names a task or thread count. */
  lemma ProcessorVariables(comps: seq<string>, np: int, i: nat)
    requires i < 2 * |comps|
    ensures var d := ProcessorDirectives(comps, np)[i];
      !d.append && (IsPrefix("NTASKS_", d.variable) || IsPrefix("NTHRDS_", d.variable))
  {
    var k := i / 2;
    ProcessorDirectivesAt(comps, np, k);
    if i % 2 == 0 {
      assert i == 2 * k;
      assert ("NTASKS_" + comps[k])[..7] == "NTASKS_";
    } else {
      assert i == 2 * k + 1;
      assert ("NTHRDS_" + comps[k])[..7] == "NTHRDS_";
    }
  }

  /** The parent directory part of a path: all '/'-separated pieces but the last, rejoined. */
  function DirName(path: string): string {
    var parts := Split(path, '/');
    Join(parts[..|parts| - 1], '/')
  }

  /** The file name part of a path: the last '/'-separated piece. */
  function BaseName(path: string): (b: string)
    ensures '/' !in b
  {
    var parts := Split(path, '/');
    parts[|parts| - 1]
  }

  /** A path with a '/' is its directory part, '/', and its file part again (model_ELM/main.py:442-447). */
  lemma DirNameBaseName(path: string)
    requires '/' in path
    ensures DirName(path) + "/" + BaseName(path) == path
  {
    SplitCount(path, '/');
    JoinInitLast(Split(path, '/'), '/');
    JoinSplit(path, '/');
  }

  /** A path without '/' has an empty directory part and is its own file part. */
  lemma DirNameBaseNameFlat(path: string)
    requires '/' !in path
    ensures DirName(path) == "" && BaseName(path) == path
  {
    SplitCount(path, '/');
  }
}
