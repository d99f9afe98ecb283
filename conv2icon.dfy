/** The conversion job (`Conv2Icon`): it writes the month's variables into
    `inputs.sh`, links the prepared GCM data and copies the boundary data
    into its folder; its parser publishes the converted files and the
    boundary data; `Conv2IconParams` is its parameter dataclass. */
module Conv2Icon {
  import opened Wrappers
  import opened Text
  import opened Dates
  import opened Dataclass
  import opened Calc
  import Paths

  /** The attributes of `Conv2IconParams` that `prepare_for_submission`
      reads: two dates it formats, five values it writes with
      `f"{value}"`, and the cleanup flag it tests. */
  predicate Readable(p: Record) {
    && "start_date" in p && p["start_date"].VDate? && "date" in p && p["date"].VDate?
    && "n_parallel_tasks" in p && Scalar(p["n_parallel_tasks"])
    && "gcm_prefix" in p && Scalar(p["gcm_prefix"])
    && "omp_threads" in p && Scalar(p["omp_threads"])
    && "gcm_remap" in p && Scalar(p["gcm_remap"])
    && "icon_input_optional" in p && Scalar(p["icon_input_optional"])
    && "cleanup_previous" in p
  }

  /** Those attributes, read off the instance once. */
  datatype Attrs = Attrs(startDate: DateTime, date: DateTime, nParallelTasks: Value, gcmPrefix: Value,
                         ompThreads: Value, gcmRemap: Value, iconInputOptional: Value, cleanupPrevious: Value)

  predicate Printable(a: Attrs) {
    Scalar(a.nParallelTasks) && Scalar(a.gcmPrefix) && Scalar(a.ompThreads)
    && Scalar(a.gcmRemap) && Scalar(a.iconInputOptional)
  }

  function AttrsOf(p: Record): (a: Attrs)
    requires Readable(p)
    ensures Printable(a)
    ensures a.startDate == p["start_date"].date && a.date == p["date"].date
    ensures a.cleanupPrevious == p["cleanup_previous"]
  {
    Attrs(p["start_date"].date, p["date"].date, p["n_parallel_tasks"], p["gcm_prefix"],
          p["omp_threads"], p["gcm_remap"], p["icon_input_optional"], p["cleanup_previous"])
  }

  /** The variable names, in the order of the dict literal. */
  const CONV_KEYS: seq<string> :=
    ["ydate_start", "current_date", "yyyy", "mm", "max_pp", "gcm_prefix", "extpar", "lam_grid",
     "omp_threads_conv2icon", "gcm_remap", "icon_input_optional", "cleanup_previous"]

  const EXTPAR_NAME: string := "external_parameter_icon_europe044_DOM01_tiles.nc"
  const LAM_GRID_NAME: string := "europe044_DOM01.nc"

  const DOMAIN_DIR: string := "europe044"

  /** `str(ini_basedir / "europe044" / name)`. */
  function DomainFile(iniBasedir: string, name: string): string
  {
    Paths.ToString(Paths.Child(Paths.Child(Paths.FromString(iniBasedir), DOMAIN_DIR), name))
  }

  /** The external-parameter and grid files are fixed names in the
      "europe044" directory under the base directory. */
  lemma FixedPaths(iniBasedir: string)
    ensures DomainFile(iniBasedir, EXTPAR_NAME) == Paths.Prefix(Paths.FromString(iniBasedir)) + DOMAIN_DIR + "/" + EXTPAR_NAME
    ensures DomainFile(iniBasedir, LAM_GRID_NAME) == Paths.Prefix(Paths.FromString(iniBasedir)) + DOMAIN_DIR + "/" + LAM_GRID_NAME
  {
    DomainFileText(iniBasedir, EXTPAR_NAME);
    DomainFileText(iniBasedir, LAM_GRID_NAME);
  }

  lemma DomainFileText(iniBasedir: string, name: string)
    ensures DomainFile(iniBasedir, name) == Paths.Prefix(Paths.FromString(iniBasedir)) + DOMAIN_DIR + "/" + name
  {
    var q := Paths.FromString(iniBasedir);
    Paths.ToStringChild(q, DOMAIN_DIR);
    var d := Paths.Child(q, DOMAIN_DIR);
    Paths.ToStringChild(d, name);
  }

  /** The directory and the grid file are single path components, so
      appending them is what pathlib's `/` does. */
  lemma NamesAreParts()
    ensures Paths.GoodPart(DOMAIN_DIR) && Paths.GoodPart(LAM_GRID_NAME)
  {
  }

  /** `1 if params.cleanup_previous else 0`. */
  function CleanupFlag(v: Value): (s: string)
    ensures s == "1" <==> Truthy(v)
    ensures s == "0" <==> !Truthy(v)
    ensures |s| == 1 && s[0] == (if Truthy(v) then '1' else '0')
  {
    if Truthy(v) then "1" else "0"
  }

  /** The `variables` dict, for the remote path of `ini_basedir`. */
  function Variables(a: Attrs, iniBasedir: string): (vars: seq<(string, string)>)
    requires Printable(a)
    ensures |vars| == |CONV_KEYS| && forall k :: 0 <= k < |vars| ==> vars[k].0 == CONV_KEYS[k]
  {
    Zip(CONV_KEYS,
        [ StrfYmdh(a.startDate), StrfYmdh(a.date), StrfYear(a.date), StrfMonth(a.date),
          Show(a.nParallelTasks), Show(a.gcmPrefix),
          DomainFile(iniBasedir, EXTPAR_NAME), DomainFile(iniBasedir, LAM_GRID_NAME),
          Show(a.ompThreads), Show(a.gcmRemap), Show(a.iconInputOptional),
          CleanupFlag(a.cleanupPrevious) ])
  }

  /** `inputs.sh` is the twelve `KEY=value` lines in the fixed order, so long as
      no value spans lines. */
  lemma InputsShape(a: Attrs, iniBasedir: string)
    requires Printable(a) && OneLineEach(Variables(a, iniBasedir))
    ensures var vars := Variables(a, iniBasedir); var lines := Split(InputsSh(vars), '\n');
      |lines| == 12 && lines == Lines(vars)
  {
    InputsShLines(Variables(a, iniBasedir));
  }

  /** For valid four-digit-year dates, `ydate_start` and `current_date` are
      ten digits, and `yyyy` and `mm` are the first four and the next two
      digits of `current_date`, reading back as the year and the month. */
  lemma DateVariables(a: Attrs, iniBasedir: string)
    requires Printable(a)
    requires Valid(a.startDate) && a.startDate.year >= 1000
    requires Valid(a.date) && a.date.year >= 1000
    ensures var v := Variables(a, iniBasedir);
      && |v[0].1| == 10 && AllDigits(v[0].1) && |v[1].1| == 10 && AllDigits(v[1].1)
      && v[2].1 == v[1].1[..4] && v[3].1 == v[1].1[4..6]
      && DigitsValue(v[2].1) == a.date.year && DigitsValue(v[3].1) == a.date.month
  {
    DateValues(a, iniBasedir);
    StrfYmdhShape(a.startDate);
    StrfYmdhShape(a.date);
  }

  lemma DateValues(a: Attrs, iniBasedir: string)
    requires Printable(a)
    ensures var v := Variables(a, iniBasedir);
      && v[0].1 == StrfYmdh(a.startDate) && v[1].1 == StrfYmdh(a.date)
      && v[2].1 == StrfYear(a.date) && v[3].1 == StrfMonth(a.date)
  {
  }

  /** `Conv2Icon.prepare_for_submission`: `inputs.sh` is the only file
      written; the prepared data is linked as "gcm_prepared" and the
      boundary data copied as "boundary_data". */
  function PrepareForSubmission(p: Record, code: string, gcmPrepared: Remote, boundaryData: Remote, iniBasedir: Remote): (c: CalcInfo)
    requires Readable(p)
    ensures c.files.Keys == {"inputs.sh"} && c.files["inputs.sh"] == InputsSh(Variables(AttrsOf(p), iniBasedir.path))
    ensures c.symlinks == [RemoteEntry(gcmPrepared.computer, gcmPrepared.path, "gcm_prepared")]
    ensures c.copies == [RemoteEntry(boundaryData.computer, boundaryData.path, "boundary_data")]
    ensures c.codes == [code] && c.localCopies == []
  {
    ShellJob(code, Variables(AttrsOf(p), iniBasedir.path),
             [RemoteEntry(gcmPrepared.computer, gcmPrepared.path, "gcm_prepared")],
             [RemoteEntry(boundaryData.computer, boundaryData.path, "boundary_data")])
  }

  /** `Conv2IconParser.parse`: without output files, exit code 300 and no
      outputs; otherwise the `outfiles` and `boundary_data` subfolders of
      the job's remote folder, on its computer. */
  function Parse(remote: Remote, outfilesEmpty: bool): (r: Parsed)
    ensures r.exitCode == ERROR_MISSING_OUTPUT_FILES <==> outfilesEmpty
    ensures outfilesEmpty ==> r.outputs == map[]
    ensures !outfilesEmpty ==>
      && r.exitCode == 0 && r.outputs.Keys == {"converted", "boundary_data"}
      && r.outputs["converted"] == Remote(remote.computer, SubPath(remote.path, "outfiles"))
      && r.outputs["boundary_data"] == Remote(remote.computer, SubPath(remote.path, "boundary_data"))
  {
    if outfilesEmpty then Parsed(ERROR_MISSING_OUTPUT_FILES, map[])
    else
      var outfiles := Remote(remote.computer, SubPath(remote.path, "outfiles"));
      var boundaryData := Remote(remote.computer, SubPath(remote.path, "boundary_data"));
      Parsed(0, map["converted" := outfiles, "boundary_data" := boundaryData])
  }

  // ---- Conv2IconParams ----

  /** `dataclasses.fields(Conv2IconParams)`: two dates without defaults,
      then seven plain fields with defaults. */
  const CONV2ICON_FIELDS: seq<Field> := [
    Field("start_date", DateConv, None),
    Field("date", DateConv, None),
    Field("hincbound", Plain, Some(VInt(6))),
    Field("n_parallel_tasks", Plain, Some(VInt(12))),
    Field("gcm_prefix", Plain, Some(VStr("caf"))),
    Field("omp_threads", Plain, Some(VInt(1))),
    Field("gcm_remap", Plain, Some(VStr("remaplaf"))),
    Field("icon_input_optional", Plain, Some(VStr(""))),
    Field("cleanup_previous", Plain, Some(VBool(false)))
  ]

  lemma FieldsDistinct()
    ensures Distinct(CONV2ICON_FIELDS)
  {
  }

  /** Only the two dates have a converter. */
  lemma OnlyDatesConverted()
    ensures forall k :: 0 <= k < |CONV2ICON_FIELDS| ==>
      (CONV2ICON_FIELDS[k].conv != Plain <==> CONV2ICON_FIELDS[k].name == "start_date" || CONV2ICON_FIELDS[k].name == "date")
  {
  }

  /** `Conv2IconParams.as_dict`: `dataclasses.asdict`, then the fields
      with a converter (the two dates) replaced by their isoformat
      strings. */
  method AsDict(p: Record) returns (data: Record)
    requires IsInstance(CONV2ICON_FIELDS, p)
    ensures data == ToDict(CONV2ICON_FIELDS, p)
  {
    FieldsDistinct();
    data := FieldsToJson(CONV2ICON_FIELDS, p);
  }

  /** `Conv2IconParams.from_dict`: the two dates read back with
      `fromisoformat` (a missing one is a KeyError, an unreadable one a
      ValueError), then the class called with the merged keywords. */
  function FromDict(d: Record): (r: Result<Record, ConvError>)
    ensures r.Success? ==> d.Keys <= NameSet(CONV2ICON_FIELDS) && r.value.Keys == NameSet(CONV2ICON_FIELDS)
    ensures "start_date" !in d ==> r == Failure(KeyMissing("start_date"))
    ensures r.Success? && "hincbound" !in d ==> r.value["hincbound"] == VInt(6)
    ensures r.Success? && "cleanup_previous" !in d ==> r.value["cleanup_previous"] == VBool(false)
  {
    FieldsDistinct();
    DefaultOfField(CONV2ICON_FIELDS, 2);
    DefaultOfField(CONV2ICON_FIELDS, 8);
    assert CONV2ICON_FIELDS[2].name in NameSet(CONV2ICON_FIELDS);
    assert CONV2ICON_FIELDS[8].name in NameSet(CONV2ICON_FIELDS);
    if "start_date" !in d then
      FirstFieldMissing(CONV2ICON_FIELDS, d);
      Dataclass.FromDict(CONV2ICON_FIELDS, d)
    else Dataclass.FromDict(CONV2ICON_FIELDS, d)
  }

  /** `Conv2IconParams.from_dict(p.as_dict()) == p`. */
  lemma RoundTrip(p: Record)
    requires IsInstance(CONV2ICON_FIELDS, p) && AllCanonical(CONV2ICON_FIELDS, p)
    ensures FromDict(ToDict(CONV2ICON_FIELDS, p)) == Success(p)
  {
    FieldsDistinct();
    Dataclass.RoundTrip(CONV2ICON_FIELDS, p);
  }
}
