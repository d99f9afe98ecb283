/** What the three calculation jobs (prep, conv2icon, icon) share: the
    `inputs.sh` file of `KEY=value` lines, the `(computer, path, name)`
    entries of their remote link and copy lists, `f"{value}"` of a field
    value, and the result of their parsers. */
module Calc {
  import opened Text
  import opened Dataclass
  import Paths

  /** `ERROR_MISSING_OUTPUT_FILES`. */
  const ERROR_MISSING_OUTPUT_FILES: int := 300

  /** A remote folder (`orm.RemoteData`): its computer and its path. */
  datatype Remote = Remote(computer: string, path: string)

  /** An entry `(computer uuid, remote path, name in the job folder)` of
      `remote_symlink_list` or `remote_copy_list`. */
  datatype RemoteEntry = RemoteEntry(computer: string, source: string, target: string)

  /** An entry `(node uuid, file name, name in the job folder)` of
      `local_copy_list`. */
  datatype LocalEntry = LocalEntry(node: string, filename: string, target: string)

  /** The `CalcInfo` a job hands to the engine, with the files it wrote into
      its folder. */
  datatype CalcInfo = CalcInfo(
    codes: seq<string>,
    files: map<string, string>,
    symlinks: seq<RemoteEntry>,
    copies: seq<RemoteEntry>,
    localCopies: seq<LocalEntry>)

  /** What a parser does: an exit code and the outputs it attached. */
  datatype Parsed = Parsed(exitCode: int, outputs: map<string, Remote>)

  // ---- inputs.sh ----

  predicate NoNewline(s: string) {
    '\n' !in s
  }

  /** `f"{key.upper()}={value}"`. */
  function Line(kv: (string, string)): string {
    Upper(kv.0) + "=" + kv.1
  }

  function Lines(vars: seq<(string, string)>): (lines: seq<string>)
    ensures |lines| == |vars|
    ensures forall k :: 0 <= k < |vars| ==> lines[k] == Line(vars[k])
  {
    if vars == [] then [] else [Line(vars[0])] + Lines(vars[1..])
  }

  /** A dict literal: the keys in order, each with its value. */
  function Zip(keys: seq<string>, values: seq<string>): (vars: seq<(string, string)>)
    requires |keys| == |values|
    ensures |vars| == |keys|
    ensures forall k :: 0 <= k < |keys| ==> vars[k] == (keys[k], values[k])
  {
    if keys == [] then [] else [(keys[0], values[0])] + Zip(keys[1..], values[1..])
  }

  /** The content of `inputs.sh`: the lines joined by "\n", without a final
      newline. */
  function InputsSh(vars: seq<(string, string)>): string {
    Join(Lines(vars), "\n")
  }

  /** The `CalcInfo` of a job that writes `inputs.sh` and nothing else
      into its folder, with one code and the given remote links and
      copies. */
  function ShellJob(code: string, vars: seq<(string, string)>, symlinks: seq<RemoteEntry>, copies: seq<RemoteEntry>): (c: CalcInfo)
    ensures c.files.Keys == {"inputs.sh"} && c.files["inputs.sh"] == InputsSh(vars)
    ensures c.codes == [code] && c.symlinks == symlinks && c.copies == copies
    ensures c.localCopies == []
  {
    CalcInfo([code], map["inputs.sh" := InputsSh(vars)], symlinks, copies, [])
  }

  /** No key or value contains a newline. */
  predicate OneLineEach(vars: seq<(string, string)>) {
    forall k :: 0 <= k < |vars| ==> NoNewline(vars[k].0) && NoNewline(vars[k].1)
  }

  lemma UpperKeeps(s: string, c: char)
    requires c !in s && !('a' <= c <= 'z') && !('A' <= c <= 'Z')
    ensures c !in Upper(s)
  {
    forall i | 0 <= i < |s| ensures Upper(s)[i] != c {
      assert s[i] != c;
    }
  }

  lemma LineNoNewline(kv: (string, string))
    requires NoNewline(kv.0) && NoNewline(kv.1)
    ensures NoNewline(Line(kv))
  {
    UpperKeeps(kv.0, '\n');
  }

  /** Reading `inputs.sh` line by line gives one `KEY=value` line per
      variable, in order. */
  lemma InputsShLines(vars: seq<(string, string)>)
    requires |vars| >= 1 && OneLineEach(vars)
    ensures Split(InputsSh(vars), '\n') == Lines(vars)
  {
    var lines := Lines(vars);
    forall k | 0 <= k < |lines| ensures '\n' !in lines[k] {
      LineNoNewline(vars[k]);
    }
    SplitJoin(lines, '\n');
  }

  /** The file ends with the last variable's line, so not with a newline
      when the last value is non-empty. */
  lemma InputsShEnd(vars: seq<(string, string)>)
    requires |vars| >= 1 && OneLineEach(vars) && vars[|vars| - 1].1 != ""
    ensures var text := InputsSh(vars); var last := Line(vars[|vars| - 1]);
      |last| <= |text| && text[|text| - |last|..] == last && text[|text| - 1] != '\n'
    ensures var text := InputsSh(vars); var value := vars[|vars| - 1].1;
      text[|text| - 1] == value[|value| - 1]
  {
    var last := Line(vars[|vars| - 1]);
    JoinEndsWith(Lines(vars), "\n");
    var text := InputsSh(vars);
    assert text[|text| - 1] == last[|last| - 1] == vars[|vars| - 1].1[|vars[|vars| - 1].1| - 1];
    assert vars[|vars| - 1].1[|vars[|vars| - 1].1| - 1] in vars[|vars| - 1].1;
  }


  /** A line splits back at its first "=" into the upper-cased key and the
      value, as long as the key has no "=". */
  lemma LineFields(kv: (string, string))
    requires '=' !in kv.0
    ensures var line := Line(kv);
      '=' in line && line[..FirstIndexOf(line, '=')] == Upper(kv.0) && line[FirstIndexOf(line, '=') + 1..] == kv.1
  {
    UpperKeeps(kv.0, '=');
    var line := Line(kv);
    assert line[|Upper(kv.0)|] == '=';
    assert line[..|Upper(kv.0)|] == Upper(kv.0);
    assert FirstIndexOf(line, '=') == |Upper(kv.0)|;
  }

  // ---- values ----

  /** The values `f"{value}"` is applied to. */
  predicate Scalar(v: Value) {
    v.VNone? || v.VBool? || v.VInt? || v.VStr? || v.VPath?
  }

  /** `f"{value}"`: `str` of the value.  A string is written as it is,
      and a non-negative integer as digits that read back as its value. */
  function Show(v: Value): (s: string)
    requires Scalar(v)
    ensures v.VStr? ==> s == v.s
    ensures v.VInt? && v.i >= 0 ==> AllDigits(s) && DigitsValue(s) == v.i
  {
    match v
    case VNone => "None"
    case VBool(b) => if b then "True" else "False"
    case VInt(i) => if i >= 0 then NatToStringRoundTrip(i); IntToString(i) else IntToString(i)
    case VStr(s) => s
    case VPath(p) => Paths.ToString(p)
  }

  /** Python truthiness. */
  predicate Truthy(v: Value) {
    match v
    case VNone => false
    case VBool(b) => b
    case VInt(i) => i != 0
    case VStr(s) => s != ""
    case VTuple(items) => items != []
    case VDate(_) => true
    case VDuration(d) => d.years != 0 || d.months != 0 || d.rest != 0
    case VPath(_) => true
  }

  /** `str(pathlib.Path(base) / name)`. */
  function SubPath(base: string, name: string): string {
    Paths.ToString(Paths.Div(Paths.FromString(base), name))
  }

  /** For a path as `str` writes it, appending a part adds "/" and the part. */
  lemma SubPathAppends(p: Paths.Path, name: string)
    requires Paths.Canonical(p) && Paths.GoodPart(name)
    ensures SubPath(Paths.ToString(p), name) == Paths.Prefix(p) + name
  {
    Paths.ToStringRoundTrip(p);
    Paths.ToStringDiv(p, name);
  }

  // ---- parsers ----

  /** The parsers of prep and conv2icon: the job's `outfiles` subfolder is
      its main output, and an empty one is exit code 300 with no outputs.
      `outfilesEmpty` is what `is_empty` reports for the remote folder. */
  function ParseOutfiles(remote: Remote, outfilesEmpty: bool, port: string): (r: Parsed)
    ensures r.exitCode == 0 || r.exitCode == ERROR_MISSING_OUTPUT_FILES
    ensures r.exitCode == ERROR_MISSING_OUTPUT_FILES <==> outfilesEmpty
    ensures outfilesEmpty ==> r.outputs == map[]
    ensures !outfilesEmpty ==> port in r.outputs && r.outputs[port] == Remote(remote.computer, SubPath(remote.path, "outfiles"))
  {
    if outfilesEmpty then Parsed(ERROR_MISSING_OUTPUT_FILES, map[])
    else Parsed(0, map[port := Remote(remote.computer, SubPath(remote.path, "outfiles"))])
  }
}
