/** `SpiceParams`: the experiment parameters, a keyword-only dataclass whose
    date, duration and path fields carry their JSON converters in the field
    metadata.  `as_dict` and `from_dict` loop over the fields in declaration
    order and convert those that have a converter. */
module Params {
  import opened Wrappers
  import opened Dates
  import opened Dataclass

  /** `datetimefield(**kwargs)`: a date converted through isoformat. */
  function DatetimeField(name: string, default: Option<Value>): Field {
    Field(name, DateConv, default)
  }

  /** `pathfield(**kwargs)` builds the field without passing its keyword
      arguments on, so a path field never has a default. */
  function PathField(name: string, default: Option<Value>): (f: Field)
    ensures f.conv == PathConv && f.default.None?
  {
    Field(name, PathConv, None)
  }

  function HoursValue(h: int): Value {
    VDuration(DurationHours(h))
  }

  /** The default output increments, in hours. */
  const HOUT_INC_DEFAULT: Value :=
    VTuple([HoursValue(3), HoursValue(24), HoursValue(1), HoursValue(24), HoursValue(6),
            HoursValue(6), HoursValue(1), HoursValue(1), HoursValue(1), HoursValue(1)])

  /** The default output operations: "mean" for the eighth stream only. */
  const OPERATION_DEFAULT: Value :=
    VTuple([VStr(""), VStr(""), VStr(""), VStr(""), VStr(""), VStr(""), VStr(""),
            VStr("mean"), VStr(""), VStr("")])

  const ZML_SOIL_DEFAULT: string := "0.005,0.02,0.06,0.18,0.54,1.62,4.86,14.58"

  /** `dataclasses.fields(SpiceParams)`, in declaration order: the eight
      fields without a default come first. */
  const SPICE_FIELDS: seq<Field> := SPICE_REQUIRED + SPICE_DEFAULTED

  const SPICE_REQUIRED: seq<Field> := [
    DatetimeField("start_date", None),
    DatetimeField("stop_date", None),
    PathField("utils_bindir", None),
    PathField("cfu_bindir", None),
    PathField("lam_grid_relpath", None),
    PathField("parent_grid_relpath", None),
    PathField("extpar_relpath", None),
    PathField("ghg_file_relpath", None)
  ]

  /** The fields with a default; `durationfield(default=...)` is a field
      with the duration converter. */
  const SPICE_DEFAULTED: seq<Field> := [
    Field("hincbound", Plain, Some(VInt(6))),
    Field("gcm_prefix", Plain, Some(VStr("caf"))),
    Field("gcm_remap", Plain, Some(VStr("remaplaf"))),
    Field("precip_interval", DurationConv, Some(HoursValue(1))),
    Field("runoff_interval", DurationConv, Some(HoursValue(1))),
    Field("sunshine_interval", DurationConv, Some(HoursValue(24))),
    Field("maxt_interval", DurationConv, Some(HoursValue(24))),
    Field("gust_interval", DurationConv, Some(HoursValue(1))),
    Field("melt_interval", DurationConv, Some(HoursValue(1))),
    Field("hout_inc", DurationsConv, Some(HOUT_INC_DEFAULT)),
    Field("operation", Plain, Some(OPERATION_DEFAULT)),
    Field("dtime", Plain, Some(VNone)),
    Field("zml_soil", Plain, Some(VStr(ZML_SOIL_DEFAULT))),
    Field("ndyn_substeps", Plain, Some(VInt(5))),
    Field("prep_n_parallel_tasks", Plain, Some(VInt(12))),
    Field("prep_omp_threads", Plain, Some(VInt(1))),
    Field("icon_input_optional", Plain, Some(VStr(""))),
    Field("icon_num_io_procs", Plain, Some(VInt(1))),
    Field("icon_num_restart_procs", Plain, Some(VInt(1))),
    Field("icon_num_prefetch_proc", Plain, Some(VInt(1)))
  ]

  lemma SpiceDistinct()
    ensures Distinct(SPICE_FIELDS)
  {
    assert Distinct(SPICE_REQUIRED);
    SpiceDefaultedDistinct();
    SpiceApart();
    DistinctConcat(SPICE_REQUIRED, SPICE_DEFAULTED);
  }

  lemma SpiceDefaultedDistinct()
    ensures Distinct(SPICE_DEFAULTED)
  {
    SpiceDefaultedFrom(0, 5);
    SpiceDefaultedFrom(5, 10);
    SpiceDefaultedFrom(10, 15);
    SpiceDefaultedFrom(15, 20);
  }

  /** The names of the defaulted fields at positions `lo` to `hi` differ
      from all names after them. */
  lemma SpiceDefaultedFrom(lo: nat, hi: nat)
    requires (lo, hi) in {(0, 5), (5, 10), (10, 15), (15, 20)}
    ensures forall i, j :: lo <= i < hi && i < j < |SPICE_DEFAULTED| ==>
      SPICE_DEFAULTED[i].name != SPICE_DEFAULTED[j].name
  {
  }

  lemma SpiceApart()
    ensures forall i, j :: 0 <= i < |SPICE_REQUIRED| && 0 <= j < |SPICE_DEFAULTED| ==>
      SPICE_REQUIRED[i].name != SPICE_DEFAULTED[j].name
  {
  }

  /** The fields without a default are exactly the two dates and the six
      paths. */
  lemma SpiceRequired()
    ensures forall k :: 0 <= k < |SPICE_FIELDS| ==>
      (SPICE_FIELDS[k].default.None? <==> SPICE_FIELDS[k].conv == DateConv || SPICE_FIELDS[k].conv == PathConv)
  {
  }

  /** `SpiceParams.as_dict`. */
  method AsDict(p: Record) returns (data: Record)
    requires IsInstance(SPICE_FIELDS, p)
    ensures data == ToDict(SPICE_FIELDS, p)
  {
    SpiceDistinct();
    data := FieldsToJson(SPICE_FIELDS, p);
  }

  /** `SpiceParams.from_dict`, changing the caller's dict. */
  method FromDict(d: JsonDict) returns (r: Result<Record, ConvError>)
    modifies d
    ensures r == Dataclass.FromDict(SPICE_FIELDS, old(d.entries))
    ensures d.entries == ConvertedPrefix(SPICE_FIELDS, FailIndex(SPICE_FIELDS, old(d.entries)), old(d.entries))
  {
    SpiceDistinct();
    r := FieldsFromJson(SPICE_FIELDS, d);
  }

  /** `SpiceParams.from_dict(p.as_dict()) == p`. */
  lemma SpiceRoundTrip(p: Record)
    requires IsInstance(SPICE_FIELDS, p) && AllCanonical(SPICE_FIELDS, p)
    ensures Dataclass.FromDict(SPICE_FIELDS, ToDict(SPICE_FIELDS, p)) == Success(p)
  {
    SpiceDistinct();
    RoundTrip(SPICE_FIELDS, p);
  }

  /** The first field is a date without a default, so a dict without it is
      refused at the very first conversion. */
  lemma SpiceNeedsStartDate(d: Record)
    requires "start_date" !in d
    ensures Dataclass.FromDict(SPICE_FIELDS, d) == Failure(KeyMissing("start_date"))
  {
    SpiceDistinct();
  }
}
