/** The ICON workchain's helpers: namelist variables that depend on whether
    the run restarts, the ISO-8601 period strings of output intervals, the
    time steps derived from `dtime`, the namelist writer and the
    `IconParams` dataclass with its dict conversion. */
module IconWc {
  import opened Wrappers
  import opened Seqs
  import opened Text
  import opened Dates
  import opened Dataclass
  import Params

  // ---- to_iso_8601_period ----

  /** One component: omitted when zero, else `f"{v:02}"` and its unit. */
  function Component(v: int, unit: char): string {
    if v != 0 then Format02(v) + [unit] else ""
  }

  /** `to_iso_8601_period`: "P", the date components, "T", the time
      components; note that the "T" is written even without any. */
  function ToIso8601Period(d: Duration): (s: string)
    ensures |s| >= 2 && s[0] == 'P' && 'T' in s
  {
    var datePart := Component(d.years, 'Y') + Component(d.months, 'M') + Component(Weeks(d), 'W')
                    + Component(RemainingDays(d), 'D');
    var timePart := Component(Hours(d), 'H') + Component(Minutes(d), 'M') + Component(RemainingSeconds(d), 'S');
    assert ("P" + datePart + "T" + timePart)[1 + |datePart|] == 'T';
    "P" + datePart + "T" + timePart
  }

  /** A non-zero component between 1 and 99 is two digits that read back as
      its value, then its unit letter. */
  lemma ComponentDigits(v: int, unit: char)
    requires 0 < v < 100
    ensures |Component(v, unit)| == 3 && Component(v, unit)[2] == unit
    ensures AllDigits(Component(v, unit)[..2]) && DigitsValue(Component(v, unit)[..2]) == v
  {
    ZeroPaddedRoundTrip(v, 2);
    assert Component(v, unit)[..2] == ZeroPadded(v, 2);
  }

  /** The all-zero duration is written "PT". */
  lemma ZeroPeriod(d: Duration)
    requires d.years == 0 && d.months == 0 && d.rest == 0
    ensures ToIso8601Period(d) == "PT"
  {
    assert Abs(d.rest) == 0;
    assert Weeks(d) == 0 && RemainingDays(d) == 0;
    assert Hours(d) == 0 && Minutes(d) == 0 && RemainingSeconds(d) == 0;
  }

  /** A whole number of hours under a day has only an hour component. */
  lemma HoursPeriod(h: int)
    requires 0 < h < 24
    ensures ToIso8601Period(DurationHours(h)) == "PT" + ZeroPadded(h, 2) + "H"
  {
    var d := DurationHours(h);
    HoursComponents(h);
    OnlyHours(d, h);
  }

  /** The components pendulum reports for a whole number of hours under a
      day. */
  lemma HoursComponents(h: int)
    requires 0 < h < 24
    ensures var d := DurationHours(h);
            && d.years == 0 && d.months == 0 && Weeks(d) == 0 && RemainingDays(d) == 0
            && Hours(d) == h && Minutes(d) == 0 && RemainingSeconds(d) == 0
  {
    var a := h * 3600;
    assert Abs(DurationHours(h).rest) == a;
    assert 0 < a < 86400;
    assert a / 86400 == 0 && a % 86400 == a;
    assert a / 3600 == h;
    assert a / 60 == h * 60;
    assert (h * 60) % 60 == 0;
    assert a % 60 == 0;
  }

  lemma OnlyHours(d: Duration, h: int)
    requires 0 < h && d.years == 0 && d.months == 0 && Weeks(d) == 0 && RemainingDays(d) == 0
    requires Hours(d) == h && Minutes(d) == 0 && RemainingSeconds(d) == 0
    ensures ToIso8601Period(d) == "PT" + ZeroPadded(h, 2) + "H"
  {
    var datePart := Component(d.years, 'Y') + Component(d.months, 'M') + Component(Weeks(d), 'W')
                    + Component(RemainingDays(d), 'D');
    var timePart := Component(Hours(d), 'H') + Component(Minutes(d), 'M') + Component(RemainingSeconds(d), 'S');
    EmptyTail(Component(d.years, 'Y'), Component(d.months, 'M'), Component(Weeks(d), 'W'), Component(RemainingDays(d), 'D'));
    EmptyTail(Component(h, 'H'), Component(Minutes(d), 'M'), Component(RemainingSeconds(d), 'S'), "");
    assert Component(h, 'H') == ZeroPadded(h, 2) + "H";
    EmptyMiddle("P", datePart, "T", timePart);
    Assoc("PT", ZeroPadded(h, 2), "H");
  }

  // ---- restart flags (prepare_namelists) ----

  datatype NmlVars = NmlVars(
    lrestart: string,
    checkUuidGracefully: string,
    ifs2iconFilename: string,
    restartWriteMode: string)

  /** The first month starts from the converted initial data; every later
      one restarts.  Restart files are written synchronously only without
      dedicated restart processes. */
  function RestartFlags(startDate: DateTime, date: DateTime, gcmPrefix: string, numRestartProcs: int): (v: NmlVars)
    ensures startDate == date <==> v.lrestart == ".FALSE."
    ensures startDate == date <==> v.checkUuidGracefully == ".FALSE."
    ensures startDate != date ==> v.lrestart == ".TRUE." && v.checkUuidGracefully == ".TRUE." && v.ifs2iconFilename == ""
    ensures startDate == date ==> v.ifs2iconFilename == gcmPrefix + StrfYmdh(startDate) + "_ini.nc"
    ensures v.restartWriteMode == "sync" <==> numRestartProcs == 0
    ensures numRestartProcs != 0 ==> v.restartWriteMode == "dedicated procs multifile"
  {
    var ystartdate := StrfYmdh(startDate);
    var restart :=
      if startDate == date then NmlVars(".FALSE.", ".FALSE.", gcmPrefix + ystartdate + "_ini.nc", "")
      else NmlVars(".TRUE.", ".TRUE.", "", "");
    restart.(restartWriteMode := if numRestartProcs == 0 then "sync" else "dedicated procs multifile")
  }

  /** The initial-data file name of the first month is ten digits of date
      and hour between the prefix and "_ini.nc". */
  lemma InitialFileName(startDate: DateTime, gcmPrefix: string, numRestartProcs: int)
    requires Valid(startDate) && startDate.year >= 1000
    ensures var name := RestartFlags(startDate, startDate, gcmPrefix, numRestartProcs).ifs2iconFilename;
      |name| == |gcmPrefix| + 17 && name[..|gcmPrefix|] == gcmPrefix
      && AllDigits(name[|gcmPrefix|..|gcmPrefix| + 10]) && name[|gcmPrefix| + 10..] == "_ini.nc"
  {
    StrfYmdhShape(startDate);
    var name := gcmPrefix + StrfYmdh(startDate) + "_ini.nc";
    assert name[|gcmPrefix|..|gcmPrefix| + 10] == StrfYmdh(startDate);
  }

  // ---- get_dtimes ----

  /** The smallest output increment, in seconds. */
  const BASE_OUTPUT_INTERVAL: int := 3600

  /** Python's `a % b`: the remainder takes the sign of the divisor. */
  function PyMod(a: int, b: int): (r: int)
    requires b != 0
    ensures b > 0 ==> r == a % b
    ensures b < 0 ==> b < r <= 0
  {
    var e := a % b;
    if b > 0 || e == 0 then e else e + b
  }

  datatype Dtimes = Dtimes(dtime: int, dtConv: int, dtRad: int, dtSso: int, dtGwd: int)

  datatype DtimeError = ZeroDivision

  /** `dtime` fits the output interval and no larger step up to `start`
      does. */
  predicate LargestDivisorUpTo(dtime: int, start: int) {
    1 <= dtime <= start && BASE_OUTPUT_INTERVAL % dtime == 0
    && forall k :: dtime < k <= start ==> BASE_OUTPUT_INTERVAL % k != 0
  }

  /** `get_dtimes`.  An explicit `dtime` parameter is the step as it is;
      without one the step is `estimate`, the value computed from the grid
      file, lowered until it divides the output interval (a zero estimate
      divides by zero, and a negative one is kept, since Python's remainder
      is never positive then).  The parameters' `ndyn_substeps` is set to 5
      on the way. */
  method GetDtimes(params: Instance, estimate: int) returns (r: Result<Dtimes, DtimeError>)
    requires "dtime" in params.fields && (params.fields["dtime"].VNone? || params.fields["dtime"].VInt?)
    modifies params
    ensures params.fields == old(params.fields)["ndyn_substeps" := VInt(5)]
    ensures old(params.fields)["dtime"].VInt? ==> r.Success? && r.value.dtime == old(params.fields)["dtime"].i
    ensures old(params.fields)["dtime"].VNone? ==>
      && (estimate == 0 <==> r.Failure?)
      && (r.Success? && estimate > 0 ==> LargestDivisorUpTo(r.value.dtime, estimate))
      && (r.Success? && estimate < 0 ==> r.value.dtime == estimate)
    ensures r.Success? ==>
      && r.value.dtConv == 2 * r.value.dtime && r.value.dtRad == 6 * r.value.dtime
      && r.value.dtSso == 4 * r.value.dtime && r.value.dtGwd == 4 * r.value.dtime
  {
    params.fields := params.fields["ndyn_substeps" := VInt(5)];
    var ntConv, ntRad, ntSso, ntGwd := 2, 3, 4, 4;
    var dtime;
    if params.fields["dtime"].VInt? {
      dtime := params.fields["dtime"].i;
    } else {
      dtime := estimate;
      if dtime == 0 {
        return Failure(ZeroDivision);
      }
      while PyMod(BASE_OUTPUT_INTERVAL, dtime) > 0
        invariant estimate > 0 ==> 1 <= dtime <= estimate
        invariant estimate < 0 ==> dtime == estimate
        invariant forall k :: dtime < k <= estimate ==> BASE_OUTPUT_INTERVAL % k != 0
        decreases if dtime > 0 then dtime else 0
      {
        dtime := dtime - 1;
      }
    }
    var dtConv := dtime * ntConv;
    r := Success(Dtimes(dtime, dtConv, dtConv * ntRad, dtime * ntSso, dtime * ntGwd));
  }

  // ---- dict_to_namelist ----

  /** A namelist is its name and its `key = value` entries, in order. */
  type Namelist = (string, seq<(string, string)>)

  /** One table row, indented by two spaces; the column padding of
      `tabulate` is not modelled. */
  function Row(key: string, value: string): string {
    "  " + key + "  =  " + value
  }

  function Rows(data: seq<(string, string)>): (rows: seq<string>)
    ensures |rows| == |data|
    ensures forall k :: 0 <= k < |data| ==> rows[k] == Row(data[k].0, data[k].1)
  {
    if data == [] then [] else [Row(data[0].0, data[0].1)] + Rows(data[1..])
  }

  /** The lines of one namelist: "&name", its rows, "/". */
  function Block(nl: Namelist): (lines: seq<string>)
    ensures |lines| == |nl.1| + 2 && lines[0] == "&" + nl.0 && lines[|lines| - 1] == "/"
  {
    ["&" + nl.0] + Rows(nl.1) + ["/"]
  }

  function Blocks(nls: seq<Namelist>): seq<string> {
    if nls == [] then [] else Block(nls[0]) + Blocks(nls[1..])
  }

  /** The line at which the `k`-th namelist starts. */
  function Offset(nls: seq<Namelist>, k: nat): nat
    requires k <= |nls|
  {
    if k == 0 then 0 else Offset(nls, k - 1) + |nls[k - 1].1| + 2
  }

  /** Every namelist, in order, is a block of its own: at its offset come
      "&name", its rows and the "/" that closes it. */
  lemma {:induction false} BlocksLayout(nls: seq<Namelist>, k: nat)
    requires k < |nls|
    ensures Offset(nls, k) + |Block(nls[k])| <= |Blocks(nls)|
    ensures Blocks(nls)[Offset(nls, k)..Offset(nls, k) + |Block(nls[k])|] == Block(nls[k])
  {
    var b := Block(nls[0]);
    var t := Blocks(nls[1..]);
    assert Blocks(nls) == b + t;
    if k == 0 {
      PlaceLeft(b, t);
    } else {
      BlocksLayout(nls[1..], k - 1);
      BlocksOffset(nls, k - 1);
      assert nls[1..][k - 1] == nls[k];
      PlaceRight(b, t, Offset(nls[1..], k - 1), Block(nls[1..][k - 1]), Offset(nls, k));
    }
  }

  lemma {:induction false} BlocksOffset(nls: seq<Namelist>, k: nat)
    requires k < |nls|
    ensures Offset(nls, k + 1) == |nls[0].1| + 2 + Offset(nls[1..], k)
  {
    if k > 0 {
      BlocksOffset(nls, k - 1);
    }
  }

  lemma {:induction false} BlocksLength(nls: seq<Namelist>)
    ensures |Blocks(nls)| == Offset(nls, |nls|)
  {
    if nls != [] {
      BlocksLength(nls[1..]);
      BlocksOffset(nls, |nls| - 1);
    }
  }

  lemma BlocksFrom(nls: seq<Namelist>, i: nat)
    requires i < |nls|
    ensures Blocks(nls[i..]) == Block(nls[i]) + Blocks(nls[i + 1..])
  {
    assert nls[i..][0] == nls[i] && nls[i..][1..] == nls[i + 1..];
  }

  /** `dict_to_namelist`: the blocks' lines joined by newlines, with a final
      newline. */
  method DictToNamelist(nls: seq<Namelist>) returns (text: string)
    ensures text == Join(Blocks(nls), "\n") + "\n"
  {
    var lines: seq<string> := [];
    for i := 0 to |nls|
      invariant lines + Blocks(nls[i..]) == Blocks(nls)
    {
      var (name, data) := nls[i];
      ghost var before := lines;
      BlocksFrom(nls, i);
      lines := lines + ["&" + name];
      lines := lines + Rows(data);
      lines := lines + ["/"];
      AppendBlock(before, ["&" + name], Rows(data), ["/"], Blocks(nls[i + 1..]));
    }
    assert nls[|nls|..] == [];
    assert Blocks(nls[|nls|..]) == [];
    assert lines == Blocks(nls);
    text := Join(lines, "\n") + "\n";
  }

  predicate NoNewline(s: string) {
    '\n' !in s
  }

  predicate PlainText(nls: seq<Namelist>) {
    forall k :: 0 <= k < |nls| ==>
      NoNewline(nls[k].0) && forall j :: 0 <= j < |nls[k].1| ==> NoNewline(nls[k].1[j].0) && NoNewline(nls[k].1[j].1)
  }

  lemma {:induction false} BlocksPlain(nls: seq<Namelist>)
    requires PlainText(nls)
    ensures forall k :: 0 <= k < |Blocks(nls)| ==> NoNewline(Blocks(nls)[k])
  {
    if nls != [] {
      BlocksPlain(nls[1..]);
      var b := Block(nls[0]);
      forall k | 0 <= k < |b| ensures NoNewline(b[k]) {
        if 0 < k < |b| - 1 {
          var row := nls[0].1[k - 1];
          assert b[k] == Row(row.0, row.1);
        }
      }
    }
  }

  /** Without newlines in names, keys or values, the file's lines (the text
      before its final newline, split at newlines) are exactly the blocks. */
  lemma NamelistLines(nls: seq<Namelist>)
    requires PlainText(nls) && nls != []
    ensures var text := Join(Blocks(nls), "\n") + "\n";
      text[|text| - 1] == '\n' && Split(text[..|text| - 1], '\n') == Blocks(nls)
  {
    BlocksPlain(nls);
    var text := Join(Blocks(nls), "\n") + "\n";
    assert text[..|text| - 1] == Join(Blocks(nls), "\n");
    BlocksLayout(nls, 0);
    SplitJoin(Blocks(nls), '\n');
  }

  // ---- IconParams ----

  /** `dataclasses.fields(IconParams)`: three dates without defaults, then
      the fields with defaults. */
  const ICON_FIELDS: seq<Field> := ICON_REQUIRED + ICON_DEFAULTED

  const ICON_REQUIRED: seq<Field> := [
    Field("start_date", DateConv, None),
    Field("stop_date", DateConv, None),
    Field("date", DateConv, None)
  ]

  const ICON_DEFAULTED: seq<Field> := ICON_COUNTS + ICON_OUTPUT

  const ICON_COUNTS: seq<Field> := [
    Field("num_io_procs", Plain, Some(VInt(1))),
    Field("num_restart_procs", Plain, Some(VInt(1))),
    Field("num_prefetch_proc", Plain, Some(VInt(1))),
    Field("hincbound", Plain, Some(VInt(6))),
    Field("gcm_prefix", Plain, Some(VStr("caf")))
  ]

  const ICON_OUTPUT: seq<Field> := [
    Field("precip_interval", DurationConv, Some(Params.HoursValue(1))),
    Field("runoff_interval", DurationConv, Some(Params.HoursValue(1))),
    Field("sunshine_interval", DurationConv, Some(Params.HoursValue(24))),
    Field("maxt_interval", DurationConv, Some(Params.HoursValue(24))),
    Field("gust_interval", DurationConv, Some(Params.HoursValue(1))),
    Field("melt_interval", DurationConv, Some(Params.HoursValue(1))),
    Field("hout_inc", DurationsConv, Some(Params.HOUT_INC_DEFAULT)),
    Field("operation", Plain, Some(Params.OPERATION_DEFAULT)),
    Field("dtime", Plain, Some(VNone)),
    Field("zml_soil", Plain, Some(VStr(Params.ZML_SOIL_DEFAULT))),
    Field("ndyn_substeps", Plain, Some(VInt(5)))
  ]

  lemma IconDistinct()
    ensures Distinct(ICON_FIELDS)
  {
    assert Distinct(ICON_REQUIRED) && Distinct(ICON_COUNTS);
    IconOutputDistinct();
    IconApart();
    DistinctConcat(ICON_COUNTS, ICON_OUTPUT);
    DistinctConcat(ICON_REQUIRED, ICON_DEFAULTED);
  }

  lemma IconOutputDistinct()
    ensures Distinct(ICON_OUTPUT)
  {
  }

  lemma IconApart()
    ensures forall i, j :: 0 <= i < |ICON_COUNTS| && 0 <= j < |ICON_OUTPUT| ==> ICON_COUNTS[i].name != ICON_OUTPUT[j].name
    ensures forall i, j :: 0 <= i < |ICON_REQUIRED| && 0 <= j < |ICON_DEFAULTED| ==> ICON_REQUIRED[i].name != ICON_DEFAULTED[j].name
  {
  }

  /** `IconParams.from_dict(p.as_dict()) == p`: dates through isoformat,
      the intervals and `hout_inc` through seconds, the rest unchanged. */
  lemma IconParamsRoundTrip(p: Record)
    requires IsInstance(ICON_FIELDS, p) && AllCanonical(ICON_FIELDS, p)
    ensures FromDict(ICON_FIELDS, ToDict(ICON_FIELDS, p)) == Success(p)
  {
    IconDistinct();
    RoundTrip(ICON_FIELDS, p);
  }
}
