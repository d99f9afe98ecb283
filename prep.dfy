/** The GCM preparation job (`GCM2IconPrep`): it writes the month's
    variables into `inputs.sh`, links the GCM data directory into its
    folder, and its parser publishes the `outfiles` subfolder. */
module Prep {
  import opened Text
  import opened Dates
  import opened Dataclass
  import opened Calc

  /** The attributes of `PrepParams` that `prepare_for_submission` reads:
      two dates it formats with `strftime` and five values it writes with
      `f"{value}"`. */
  predicate Readable(p: Record) {
    && "date" in p && p["date"].VDate? && "next_date" in p && p["next_date"].VDate?
    && "n_parallel_tasks" in p && Scalar(p["n_parallel_tasks"])
    && "utils_bindir" in p && Scalar(p["utils_bindir"])
    && "cfu_bindir" in p && Scalar(p["cfu_bindir"])
    && "hincbound" in p && Scalar(p["hincbound"])
    && "gcm_prefix" in p && Scalar(p["gcm_prefix"])
  }

  /** The variable names, in the order of the dict literal. */
  const PREP_KEYS: seq<string> :=
    ["yyyy", "mm", "current_date", "next_date", "max_pp", "utils_bindir", "cfu_bindir", "hincbound", "gcm_prefix"]

  /** The `variables` dict: the year and month of the date, the date and
      the next date as `%Y%m%d%H`, then the five values. */
  function Variables(p: Record): (vars: seq<(string, string)>)
    requires Readable(p)
    ensures |vars| == |PREP_KEYS| && forall k :: 0 <= k < |vars| ==> vars[k].0 == PREP_KEYS[k]
  {
    var date := p["date"].date;
    [ ("yyyy", StrfYear(date)),
      ("mm", StrfMonth(date)),
      ("current_date", StrfYmdh(date)),
      ("next_date", StrfYmdh(p["next_date"].date)),
      ("max_pp", Show(p["n_parallel_tasks"])),
      ("utils_bindir", Show(p["utils_bindir"])),
      ("cfu_bindir", Show(p["cfu_bindir"])),
      ("hincbound", Show(p["hincbound"])),
      ("gcm_prefix", Show(p["gcm_prefix"])) ]
  }

  /** `inputs.sh` is nine `KEY=value` lines in the fixed order, so long as
      no value spans lines. */
  lemma InputsShape(p: Record)
    requires Readable(p) && OneLineEach(Variables(p))
    ensures var lines := Split(InputsSh(Variables(p)), '\n');
      |lines| == 9 && forall k :: 0 <= k < 9 ==> lines[k] == Upper(PREP_KEYS[k]) + "=" + Variables(p)[k].1
  {
    InputsShLines(Variables(p));
  }

  /** For valid four-digit-year dates, `yyyy` and `mm` are the first four and
      the next two digits of `current_date`, and they read back as the year
      and the month; both dates are ten digits. */
  lemma DateVariables(p: Record)
    requires Readable(p)
    requires Valid(p["date"].date) && p["date"].date.year >= 1000
    requires Valid(p["next_date"].date) && p["next_date"].date.year >= 1000
    ensures var v := Variables(p);
      && |v[2].1| == 10 && AllDigits(v[2].1) && |v[3].1| == 10 && AllDigits(v[3].1)
      && v[0].1 == v[2].1[..4] && v[1].1 == v[2].1[4..6]
      && DigitsValue(v[0].1) == p["date"].date.year && DigitsValue(v[1].1) == p["date"].date.month
  {
    DateValues(p);
    StrfYmdhShape(p["date"].date);
    StrfYmdhShape(p["next_date"].date);
  }

  lemma DateValues(p: Record)
    requires Readable(p)
    ensures var v := Variables(p);
      && v[0].1 == StrfYear(p["date"].date) && v[1].1 == StrfMonth(p["date"].date)
      && v[2].1 == StrfYmdh(p["date"].date) && v[3].1 == StrfYmdh(p["next_date"].date)
  {
  }

  /** `GCM2IconPrep.prepare_for_submission`: `inputs.sh` is the only file
      written, and the GCM data directory is the only link, named
      "gcm_data". */
  function PrepareForSubmission(p: Record, code: string, gcmData: Remote): (c: CalcInfo)
    requires Readable(p)
    ensures c.files.Keys == {"inputs.sh"} && c.files["inputs.sh"] == InputsSh(Variables(p))
    ensures |c.symlinks| == 1 && c.symlinks[0].target == "gcm_data"
    ensures c.symlinks[0].source == gcmData.path && c.symlinks[0].computer == gcmData.computer
    ensures c.codes == [code] && c.copies == [] && c.localCopies == []
  {
    ShellJob(code, Variables(p), [RemoteEntry(gcmData.computer, gcmData.path, "gcm_data")], [])
  }

  /** `PrepParser.parse`: `gcm_prepared` is the `outfiles` subfolder, unless
      it is empty. */
  function Parse(remote: Remote, outfilesEmpty: bool): (r: Parsed)
    ensures r.exitCode == ERROR_MISSING_OUTPUT_FILES <==> outfilesEmpty
    ensures !outfilesEmpty ==> r.exitCode == 0 && r.outputs.Keys == {"gcm_prepared"}
    ensures !outfilesEmpty ==> r.outputs["gcm_prepared"].path == SubPath(remote.path, "outfiles")
    ensures outfilesEmpty ==> r.outputs == map[]
  {
    ParseOutfiles(remote, outfilesEmpty, "gcm_prepared")
  }
}
