/**
 * The land-model namelist: the override lines `customize_namelist` appends to user_nl_elm,
 * how the last binding of a variable is the one that counts, and `get_namelist_variable`,
 * which reads a value back out of the generated lnd_in.
 */
module Namelist {
  import opened Wrappers
  import opened PyStr

  /** The line appended to user_nl_elm for one override (model_ELM/main.py:487). */
  function OverrideLine(variable: string, value: string): string {
    " " + variable + " = " + value + "\n"
  }

  /** A Fortran character value: the text in single quotes. */
  function Quote(s: string): string {
    "'" + s + "'"
  }

  /** A variable name that the override format can carry unambiguously. */
  predicate IsName(v: string) {
    v != [] && NoSpace(v) && '=' !in v
  }

  /** A value with no whitespace at either end, which survives the namelist reader's trimming. */
  predicate Unpadded(s: string) {
    s == [] || (!IsSpace(s[0]) && !IsSpace(s[|s| - 1]))
  }

  datatype Binding = Binding(name: string, value: string)

  /**
   * How a namelist reader sees one user_nl_elm line: up to the first '=' is the name, the
   * rest the value, both trimmed; a line without '=' or without its newline binds nothing.
   */
  function ParseOverride(line: string): Option<Binding> {
    if |line| >= 1 && line[|line| - 1] == '\n' && '=' in line[..|line| - 1] then
      var body := line[..|line| - 1];
      var i := IndexOf(body, '=');
      Some(Binding(Strip(body[..i]), Strip(body[i + 1..])))
    else None
  }

  lemma QuoteUnpadded(s: string)
    ensures Unpadded(Quote(s))
  {
  }

  /** An override line reads back as the binding that wrote it. */
  lemma OverrideRoundTrip(variable: string, value: string)
    requires IsName(variable) && Unpadded(value)
    ensures ParseOverride(OverrideLine(variable, value)) == Some(Binding(variable, value))
  {
    var line := OverrideLine(variable, value);
    var body := " " + variable + " = " + value;
    assert line == body + "\n";
    assert line[..|line| - 1] == body;
    var i := |variable| + 2;
    assert body[i] == '=';
    assert forall j :: 0 <= j < i ==> body[j] != '=' by {
      forall j | 0 <= j < i ensures body[j] != '=' {
        if 1 <= j <= |variable| {
          assert body[j] == variable[j - 1];
        }
      }
    }
    assert IndexOf(body, '=') == i;
    assert body[..i] == " " + variable + " ";
    StripPadded(" ", variable, " ");
    assert body[i + 1..] == " " + value + [];
    StripPadded(" ", value, []);
  }

  /** The value the namelist ends up with for `name`: the last line binding it wins. */
  function LastValue(log: seq<string>, name: string): Option<string>
    decreases |log|
  {
    if log == [] then None
    else
      var b := ParseOverride(log[|log| - 1]);
      if b.Some? && b.value.name == name then Some(b.value.value)
      else LastValue(log[..|log| - 1], name)
  }

  /** Appending an override makes its value the one that counts for its variable. */
  lemma OverrideWins(log: seq<string>, variable: string, value: string)
    requires IsName(variable) && Unpadded(value)
    ensures LastValue(log + [OverrideLine(variable, value)], variable) == Some(value)
  {
    OverrideRoundTrip(variable, value);
  }

  /** Appending an override leaves every other variable's value as it was. */
  lemma OverrideKeepsOthers(log: seq<string>, variable: string, value: string, other: string)
    requires IsName(variable) && Unpadded(value) && other != variable
    ensures LastValue(log + [OverrideLine(variable, value)], other) == LastValue(log, other)
  {
    OverrideRoundTrip(variable, value);
    var log' := log + [OverrideLine(variable, value)];
    assert log'[..|log'| - 1] == log;
  }

  // ----- get_namelist_variable (model_ELM/main.py:163-170) -----

  /** Python's `s[:-1]`: everything but the last character (nothing left of an empty string). */
  function DropLast(s: string): string {
    if s == [] then [] else s[..|s| - 1]
  }

  /**
   * The local `value` after reading the lines: every line containing the name (as a
   * substring) assigns the text between its first and second '='; such a line without
   * '=' raises IndexError. None is a local never assigned.
   */
  function NamelistScan(lines: seq<string>, vname: string): Result<Option<string>, Failure>
    decreases |lines|
  {
    if lines == [] then Ok(None)
    else
      var prev := NamelistScan(lines[..|lines| - 1], vname);
      var line := lines[|lines| - 1];
      if prev.Err? || !Contains(line, vname) then prev
      else
        var parts := Split(line, '=');
        if |parts| < 2 then Err(Raised(IndexError)) else Ok(Some(parts[1]))
  }

  /** `get_namelist_variable`: the scanned value minus its last character; no match leaves `value` unbound. */
  function NamelistVariable(lines: seq<string>, vname: string): Result<string, Failure> {
    match NamelistScan(lines, vname)
    case Err(e) => Err(e)
    case Ok(None) => Err(Raised(UnboundLocalError))
    case Ok(Some(v)) => Ok(DropLast(v))
  }

  /** The loop of `get_namelist_variable`, line by line. */
  method GetNamelistVariable(lines: seq<string>, vname: string) returns (r: Result<string, Failure>)
    ensures r == NamelistVariable(lines, vname)
  {
    var value: Option<string> := None;
    var i := 0;
    while i < |lines|
      invariant 0 <= i <= |lines|
      invariant NamelistScan(lines[..i], vname) == Ok(value)
    {
      assert lines[..i + 1][..i] == lines[..i];
      var line := lines[i];
      if Contains(line, vname) {
        var parts := Split(line, '=');
        if |parts| < 2 {
          assert NamelistScan(lines[..i + 1], vname).Err?;
          NamelistScanStaysFailed(lines, vname, i + 1);
          return Err(Raised(IndexError));
        }
        value := Some(parts[1]);
      }
      i := i + 1;
    }
    assert lines[..|lines|] == lines;
    match value {
      case None => r := Err(Raised(UnboundLocalError));
      case Some(v) => r := Ok(if v == [] then [] else v[..|v| - 1]);
    }
  }

  /** Once the scan has raised, reading more lines does not change the exception. */
  lemma {:induction false} NamelistScanStaysFailed(lines: seq<string>, vname: string, k: nat)
    requires k <= |lines|
    requires NamelistScan(lines[..k], vname) == Err(Raised(IndexError))
    ensures NamelistScan(lines, vname) == Err(Raised(IndexError))
    decreases |lines| - k
  {
    if k < |lines| {
      assert lines[..k + 1][..k] == lines[..k];
      NamelistScanStaysFailed(lines, vname, k + 1);
    } else {
      assert lines[..k] == lines;
    }
  }

  /** The index of the last line containing `vname`, if any. */
  function LastContaining(lines: seq<string>, vname: string): (k: Option<nat>)
    ensures k.Some? ==> k.value < |lines| && Contains(lines[k.value], vname)
    ensures k.Some? ==> forall j :: k.value < j < |lines| ==> !Contains(lines[j], vname)
    ensures k.None? ==> forall j :: 0 <= j < |lines| ==> !Contains(lines[j], vname)
    decreases |lines|
  {
    if lines == [] then None
    else if Contains(lines[|lines| - 1], vname) then Some(|lines| - 1)
    else LastContaining(lines[..|lines| - 1], vname)
  }

  /** The lookup raises IndexError exactly when some line containing the name has no '='. */
  lemma {:induction false} NamelistScanFailsIff(lines: seq<string>, vname: string)
    ensures NamelistScan(lines, vname).Err? <==>
      exists j :: 0 <= j < |lines| && Contains(lines[j], vname) && '=' !in lines[j]
    ensures NamelistScan(lines, vname).Err? ==> NamelistScan(lines, vname) == Err(Raised(IndexError))
    decreases |lines|
  {
    if lines != [] {
      var init := lines[..|lines| - 1];
      var last := lines[|lines| - 1];
      NamelistScanFailsIff(init, vname);
      SplitCount(last, '=');
      assert forall j :: 0 <= j < |init| ==> init[j] == lines[j];
      if NamelistScan(lines, vname).Err? && NamelistScan(init, vname).Ok? {
        assert Contains(last, vname) && '=' !in last;
      }
    }
  }

  /**
   * When every line containing the name has an '=', the last such line decides: its text
   * after the first '=' (up to any second one) minus the final character; with no such
   * line the local is unbound.
   */
  lemma {:induction false} NamelistVariableLastMatch(lines: seq<string>, vname: string)
    requires forall j :: 0 <= j < |lines| && Contains(lines[j], vname) ==> '=' in lines[j]
    ensures var k := LastContaining(lines, vname);
      && (k.None? ==> NamelistVariable(lines, vname) == Err(Raised(UnboundLocalError)))
      && (k.Some? ==> |Split(lines[k.value], '=')| >= 2 &&
                      NamelistVariable(lines, vname) == Ok(DropLast(Split(lines[k.value], '=')[1])))
  {
    NamelistScanLastMatch(lines, vname);
  }

  lemma {:induction false} NamelistScanLastMatch(lines: seq<string>, vname: string)
    requires forall j :: 0 <= j < |lines| && Contains(lines[j], vname) ==> '=' in lines[j]
    ensures var k := LastContaining(lines, vname);
      && (k.None? ==> NamelistScan(lines, vname) == Ok(None))
      && (k.Some? ==> |Split(lines[k.value], '=')| >= 2 &&
                      NamelistScan(lines, vname) == Ok(Some(Split(lines[k.value], '=')[1])))
    decreases |lines|
  {
    if lines != [] {
      var init := lines[..|lines| - 1];
      var last := lines[|lines| - 1];
      assert forall j :: 0 <= j < |init| ==> init[j] == lines[j];
      NamelistScanLastMatch(init, vname);
      if Contains(last, vname) {
        SplitCount(last, '=');
      }
    }
  }

  /**
   * A lnd_in line `name = value` (one '=') read by `get_namelist_variable` gives the value
   * with the space after '=' kept and its last character (normally the newline) dropped.
   */
  lemma NamelistVariableOfLine(lhs: string, rhs: string, vname: string)
    requires '=' !in lhs && '=' !in rhs
    requires Contains(lhs + "=" + rhs, vname)
    ensures NamelistVariable([lhs + "=" + rhs], vname) == Ok(DropLast(rhs))
  {
    var line := lhs + "=" + rhs;
    SplitAround(lhs, rhs, '=');
    SplitCount(lhs, '=');
    SplitCount(rhs, '=');
    assert Split(line, '=') == [lhs, rhs];
    assert [line][..0] == [];
    assert NamelistScan([line][..0], vname) == Ok(None);
    assert NamelistScan([line], vname) == Ok(Some(rhs));
  }
}
