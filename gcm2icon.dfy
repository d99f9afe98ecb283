/** The `Gcm2Icon` workchain: one preparation job, one conversion job and
    one ICON run per month, from the start date until the stop date.

    The workchain context becomes the fields of a class.  Submitting a
    process appends it to `jobs`, and the id of a submitted process is its
    position in that log.  The engine awaits everything a step put into the
    context with `append_` before the next step runs, so a step sees the
    ids of the earlier steps' processes in `preps`, `convs` and `icons`. */
module Gcm2Icon {
  import opened Wrappers
  import opened Seqs
  import opened Dates
  import opened Dataclass
  import Engine
  import Data
  import Conv2Icon
  import IconWc

  /** A node uuid, as the schedulers see it. */
  type Id = Engine.Id

  // ---- the months the loop visits ----

  /** The dates `current_date` takes while `current_date < stop_date`: the
      start date, then the first of every following month. */
  function Months(d: DateTime, stop: DateTime): (ms: seq<DateTime>)
    requires 1 <= d.month <= 12 && 1 <= stop.month <= 12
    ensures ms != [] <==> Before(d, stop)
    ensures ms != [] ==> ms[0] == d
    ensures forall k :: 0 <= k < |ms| ==> Before(ms[k], stop) && 1 <= ms[k].month <= 12
    ensures Valid(d) && Valid(stop) ==> forall k :: 0 <= k < |ms| ==> Valid(ms[k])
    decreases MonthIndex(stop) - MonthIndex(d) + 1
  {
    if Before(d, stop) then
      BeforeMonthIndex(d, stop);
      var rest := Months(NextDate(d), stop);
      assert forall k :: 1 <= k < |rest| + 1 ==> ([d] + rest)[k] == rest[k - 1];
      [d] + rest
    else []
  }

  /** While the loop runs, it visits the current month and then the
      months from the next one on. */
  lemma MonthsUnfold(d: DateTime, stop: DateTime)
    requires 1 <= d.month <= 12 && 1 <= stop.month <= 12 && Before(d, stop)
    ensures Months(d, stop) == [d] + Months(NextDate(d), stop)
    ensures |Months(NextDate(d), stop)| < |Months(d, stop)|
  {
  }

  /** The months visited so far and the months still ahead, one step on. */
  lemma MonthsAdvance(done: seq<DateTime>, d: DateTime, rest: seq<DateTime>, all: seq<DateTime>)
    requires done + ([d] + rest) == all
    ensures (done + [d]) + rest == all
  {
    assert done + ([d] + rest) == (done + [d]) + rest;
  }

  /** Each month the loop visits after the first is the one `next_date`
      steps to from the month before. */
  lemma {:induction false} MonthsNext(d: DateTime, stop: DateTime, k: nat)
    requires 1 <= d.month <= 12 && 1 <= stop.month <= 12
    requires 1 <= k < |Months(d, stop)|
    ensures Months(d, stop)[k] == NextDate(Months(d, stop)[k - 1])
    decreases MonthIndex(stop) - MonthIndex(d) + 1
  {
    BeforeMonthIndex(d, stop);
    var rest := Months(NextDate(d), stop);
    assert Months(d, stop) == [d] + rest;
    if k > 1 {
      MonthsNext(NextDate(d), stop, k - 1);
    }
  }

  /** Midnight on the first day of a month, which is all the loop visits
      after the start date. */
  predicate AtMonthStart(d: DateTime) {
    d.day == 1 && d.hour == 0 && d.minute == 0 && d.second == 0
  }

  /** The number of months from the month of `d` up to the stop date, the
      month of the stop date included unless the stop date is the very
      start of it. */
  function MonthsLeft(d: DateTime, stop: DateTime): nat {
    var n := MonthIndex(stop) - MonthIndex(d) + (if AtMonthStart(stop) then 0 else 1);
    if n < 0 then 0 else n
  }

  lemma MonthStartBefore(d: DateTime, stop: DateTime)
    requires AtMonthStart(d) && 1 <= d.month <= 12 && Valid(stop)
    ensures Before(d, stop) <==> MonthsLeft(d, stop) > 0
  {
  }

  /** From the first of a month, the loop runs once per month up to the
      stop date. */
  lemma {:induction false} MonthsCount(d: DateTime, stop: DateTime)
    requires AtMonthStart(d) && 1 <= d.month <= 12 && Valid(stop)
    ensures |Months(d, stop)| == MonthsLeft(d, stop)
    decreases MonthIndex(stop) - MonthIndex(d) + 1
  {
    MonthStartBefore(d, stop);
    if Before(d, stop) {
      BeforeMonthIndex(d, stop);
      MonthsCount(NextDate(d), stop);
      assert |Months(d, stop)| == 1 + |Months(NextDate(d), stop)|;
    }
  }

  /** From any start date the loop runs once for the start date and once
      per following month up to the stop date. */
  lemma StartMonthsCount(start: DateTime, stop: DateTime)
    requires Valid(start) && Valid(stop)
    ensures |Months(start, stop)| == if Before(start, stop) then 1 + MonthsLeft(NextDate(start), stop) else 0
  {
    if Before(start, stop) {
      MonthsCount(NextDate(start), stop);
    }
  }

  // ---- what a step hands to the process it submits ----

  type Options = map<string, Value>

  /** `shared | stage`: the stage's options win over the shared ones. */
  function MergeOptions(shared: Options, stage: Options): (m: Options)
    ensures m.Keys == shared.Keys + stage.Keys
    ensures forall k :: k in stage ==> m[k] == stage[k]
    ensures forall k :: k in shared && k !in stage ==> m[k] == shared[k]
  {
    shared + stage
  }

  datatype Stage = PrepStage | ConvStage | IconStage

  function StageName(s: Stage): string {
    match s
    case PrepStage => "prep"
    case ConvStage => "conv"
    case IconStage => "icon"
  }

  /** `f"{stage}:{expid}@{date.isoformat()}"`. */
  function Label(stage: Stage, expid: string, d: DateTime): string {
    StageName(stage) + ":" + expid + "@" + IsoFormat(d)
  }

  /** The label of a job's parameter node, `f"{stage}:params:{expid}@{date.isoformat()}"`. */
  function ParamsLabel(stage: Stage, expid: string, d: DateTime): string {
    StageName(stage) + ":params:" + expid + "@" + IsoFormat(d)
  }

  /** A label ends with the isoformat of its date, which reads back as
      that date. */
  lemma LabelDate(stage: Stage, expid: string, d: DateTime)
    requires Valid(d)
    ensures |Label(stage, expid, d)| >= 19
    ensures FromIsoFormat(Label(stage, expid, d)[|Label(stage, expid, d)| - 19..]) == Success(d)
  {
    IsoFormatRoundTrip(d);
    var l := Label(stage, expid, d);
    assert l[|l| - 19..] == IsoFormat(d);
  }

  /** Jobs of one stage for two different months have different labels. */
  lemma LabelsDiffer(stage: Stage, expid: string, d: DateTime, e: DateTime)
    requires Valid(d) && Valid(e) && d != e
    ensures Label(stage, expid, d) != Label(stage, expid, e)
  {
    LabelDate(stage, expid, d);
    LabelDate(stage, expid, e);
  }


  /** The input and output ports the workchain wires. */
  datatype Port =
    | Code | ExperimentId | GcmData | GcmPrepared | IniBasedir | BoundaryData | Inidata | Ecraddir
    | GcmConverted | Converted | LamGridRelpath | ParentGridRelpath | ExtparRelpath | GhgFileRelpath
    | RestartFileDir | RestartFileName

  /** Where a submitted process takes an input from: an input of the
      workchain (in a stage's namespace or not), an output port of an
      earlier process, or the experiment parameter of that name. */
  datatype Ref =
    | Input(port: Port)
    | StageInput(stage: Stage, port: Port)
    | Output(node: Id, port: Port)
    | Param(name: string)

  /** The inputs of the workchain that do not change from month to month. */
  datatype Setup = Setup(expid: string, params: Record, start: DateTime, stop: DateTime,
                         shared: Options, prepOptions: Options, convOptions: Options,
                         iconOptions: Options)

  /** `self.ctx.params.<name>`; a missing field reads as None. */
  function Get(p: Record, name: string): Value {
    if name in p then p[name] else VNone
  }

  // ---- the parameter instances ----

  /** Every field given as a keyword. */
  function AllGiven(vs: seq<Value>): (g: seq<Option<Value>>)
    ensures |g| == |vs|
    ensures forall k :: 0 <= k < |vs| ==> g[k] == Some(vs[k])
  {
    seq(|vs|, k requires 0 <= k < |vs| => Some(vs[k]))
  }

  lemma PrepNamesAt()
    ensures var fs := Data.PREP_FIELDS;
      fs[0].name == "date" && fs[1].name == "next_date" && fs[2].name == "n_parallel_tasks" && fs[5].name == "hincbound"
  {
  }

  lemma ConvNamesAt()
    ensures var fs := Conv2Icon.CONV2ICON_FIELDS;
      && fs[0].name == "start_date" && fs[1].name == "date" && fs[2].name == "hincbound"
      && fs[8].name == "cleanup_previous" && fs[2].default == Some(VInt(6))
  {
  }

  lemma IconNamesAt()
    ensures var fs := IconWc.ICON_FIELDS;
      fs[0].name == "start_date" && fs[1].name == "stop_date" && fs[2].name == "date"
  {
  }

  /** The keywords `prep` passes to `PrepParams`, in field order. */
  function PrepGiven(p: Record, d: DateTime, next: DateTime): seq<Option<Value>> {
    AllGiven([VDate(d), VDate(next), Get(p, "prep_n_parallel_tasks"), Get(p, "utils_bindir"),
              Get(p, "cfu_bindir"), Get(p, "hincbound"), Get(p, "gcm_prefix")])
  }

  function PrepKeywords(p: Record, d: DateTime, next: DateTime): Record {
    Data.PrepDistinct();
    Keywords(Data.PREP_FIELDS, PrepGiven(p, d, next))
  }

  /** The `PrepParams` instance `prep` builds for the month at `d`. */
  function PrepInstance(p: Record, d: DateTime, next: DateTime): Record {
    Data.PrepDistinct();
    Built(Data.PREP_FIELDS, PrepGiven(p, d, next))
  }

  lemma PrepFieldsAt(p: Record, d: DateTime, next: DateTime)
    ensures var r := PrepInstance(p, d, next); var fs := Data.PREP_FIELDS;
      && fs[0].name in r && fs[1].name in r && fs[2].name in r && fs[5].name in r
      && r[fs[0].name] == VDate(d) && r[fs[1].name] == VDate(next)
      && r[fs[2].name] == Get(p, "prep_n_parallel_tasks") && r[fs[5].name] == Get(p, "hincbound")
  {
    Data.PrepDistinct();
    var g := PrepGiven(p, d, next);
    assert g[0] == Some(VDate(d)) && g[1] == Some(VDate(next));
    assert g[2] == Some(Get(p, "prep_n_parallel_tasks")) && g[5] == Some(Get(p, "hincbound"));
    BuiltGiven(Data.PREP_FIELDS, g, 0);
    BuiltGiven(Data.PREP_FIELDS, g, 1);
    BuiltGiven(Data.PREP_FIELDS, g, 2);
    BuiltGiven(Data.PREP_FIELDS, g, 5);
  }

  /** `PrepParams(...)` accepts the keywords `prep` passes: every field is
      given, the two dates are the month and the next one, the rest comes
      from the experiment parameters. */
  lemma PrepInstanceBuilt(p: Record, d: DateTime, next: DateTime)
    ensures Construct(Data.PREP_FIELDS, PrepKeywords(p, d, next)) == Success(PrepInstance(p, d, next))
    ensures var r := PrepInstance(p, d, next);
      && r.Keys == NameSet(Data.PREP_FIELDS)
      && "date" in r && r["date"] == VDate(d)
      && "next_date" in r && r["next_date"] == VDate(next)
      && "n_parallel_tasks" in r && r["n_parallel_tasks"] == Get(p, "prep_n_parallel_tasks")
      && "hincbound" in r && r["hincbound"] == Get(p, "hincbound")
  {
    Data.PrepDistinct();
    ConstructKeywords(Data.PREP_FIELDS, PrepGiven(p, d, next));
    PrepFieldsAt(p, d, next);
    PrepNamesAt();
  }

  /** The keywords `conv` passes to `Conv2IconParams`, in field order;
      `hincbound` (the third field) is not passed. */
  function ConvGiven(p: Record, start: DateTime, d: DateTime): seq<Option<Value>> {
    [Some(VDate(start)), Some(VDate(d)), None, Some(Get(p, "prep_n_parallel_tasks")),
     Some(Get(p, "gcm_prefix")), Some(Get(p, "prep_omp_threads")), Some(Get(p, "gcm_remap")),
     Some(Get(p, "icon_input_optional")), Some(VBool(false))]
  }

  function ConvKeywords(p: Record, start: DateTime, d: DateTime): Record {
    Conv2Icon.FieldsDistinct();
    Keywords(Conv2Icon.CONV2ICON_FIELDS, ConvGiven(p, start, d))
  }

  /** The `Conv2IconParams` instance `conv` builds for the month at `d`. */
  function ConvInstance(p: Record, start: DateTime, d: DateTime): Record {
    Conv2Icon.FieldsDistinct();
    ConvNamesAt();
    Built(Conv2Icon.CONV2ICON_FIELDS, ConvGiven(p, start, d))
  }

  lemma ConvFieldsAt(p: Record, start: DateTime, d: DateTime)
    ensures var r := ConvInstance(p, start, d); var fs := Conv2Icon.CONV2ICON_FIELDS;
      && fs[0].name in r && fs[1].name in r && fs[2].name in r && fs[8].name in r
      && r[fs[0].name] == VDate(start) && r[fs[1].name] == VDate(d)
      && r[fs[2].name] == VInt(6) && r[fs[8].name] == VBool(false)
  {
    Conv2Icon.FieldsDistinct();
    ConvNamesAt();
  }

  /** `Conv2IconParams(...)` accepts the keywords `conv` passes; as
      `hincbound` is not among them, it is the class default 6 whatever
      the experiment says, and the previous month's output is never
      cleaned up. */
  lemma ConvInstanceBuilt(p: Record, start: DateTime, d: DateTime)
    ensures Construct(Conv2Icon.CONV2ICON_FIELDS, ConvKeywords(p, start, d)) == Success(ConvInstance(p, start, d))
    ensures var r := ConvInstance(p, start, d);
      && r.Keys == NameSet(Conv2Icon.CONV2ICON_FIELDS)
      && "start_date" in r && r["start_date"] == VDate(start)
      && "date" in r && r["date"] == VDate(d)
      && "hincbound" in r && r["hincbound"] == VInt(6)
      && "cleanup_previous" in r && r["cleanup_previous"] == VBool(false)
  {
    Conv2Icon.FieldsDistinct();
    ConvNamesAt();
    ConstructKeywords(Conv2Icon.CONV2ICON_FIELDS, ConvGiven(p, start, d));
    ConvFieldsAt(p, start, d);
    ConvNamesAt();
  }

  /** The keywords `icon` passes to `IconParams`, in field order. */
  function IconGiven(p: Record, start: DateTime, stop: DateTime, d: DateTime): seq<Option<Value>> {
    AllGiven([VDate(start), VDate(stop), VDate(d),
              Get(p, "icon_num_io_procs"), Get(p, "icon_num_restart_procs"),
              Get(p, "icon_num_prefetch_proc"), Get(p, "hincbound"), Get(p, "gcm_prefix"),
              Get(p, "precip_interval"), Get(p, "runoff_interval"), Get(p, "sunshine_interval"),
              Get(p, "maxt_interval"), Get(p, "gust_interval"), Get(p, "melt_interval"),
              Get(p, "hout_inc"), Get(p, "operation"), Get(p, "dtime"),
              Get(p, "zml_soil"), Get(p, "ndyn_substeps")])
  }

  function IconKeywords(p: Record, start: DateTime, stop: DateTime, d: DateTime): Record {
    IconWc.IconDistinct();
    Keywords(IconWc.ICON_FIELDS, IconGiven(p, start, stop, d))
  }

  /** The `IconParams` instance `icon` builds for the month at `d`. */
  function IconInstance(p: Record, start: DateTime, stop: DateTime, d: DateTime): Record {
    IconWc.IconDistinct();
    Built(IconWc.ICON_FIELDS, IconGiven(p, start, stop, d))
  }

  lemma IconFieldsAt(p: Record, start: DateTime, stop: DateTime, d: DateTime)
    ensures var r := IconInstance(p, start, stop, d); var fs := IconWc.ICON_FIELDS;
      && fs[0].name in r && fs[1].name in r && fs[2].name in r
      && r[fs[0].name] == VDate(start) && r[fs[1].name] == VDate(stop) && r[fs[2].name] == VDate(d)
  {
    IconWc.IconDistinct();
    var g := IconGiven(p, start, stop, d);
    assert g[0] == Some(VDate(start)) && g[1] == Some(VDate(stop)) && g[2] == Some(VDate(d));
    BuiltGiven(IconWc.ICON_FIELDS, g, 0);
    BuiltGiven(IconWc.ICON_FIELDS, g, 1);
    BuiltGiven(IconWc.ICON_FIELDS, g, 2);
  }

  /** `IconParams(...)` accepts the keywords `icon` passes: every field is
      given, the three dates are the experiment's start and stop and the
      month. */
  lemma IconInstanceBuilt(p: Record, start: DateTime, stop: DateTime, d: DateTime)
    ensures Construct(IconWc.ICON_FIELDS, IconKeywords(p, start, stop, d)) == Success(IconInstance(p, start, stop, d))
    ensures var r := IconInstance(p, start, stop, d);
      && r.Keys == NameSet(IconWc.ICON_FIELDS)
      && "start_date" in r && r["start_date"] == VDate(start)
      && "stop_date" in r && r["stop_date"] == VDate(stop)
      && "date" in r && r["date"] == VDate(d)
  {
    IconWc.IconDistinct();
    ConstructKeywords(IconWc.ICON_FIELDS, IconGiven(p, start, stop, d));
    IconFieldsAt(p, start, stop, d);
    IconNamesAt();
  }

  // ---- the jobs ----

  /** A submitted process, by what tells it apart from the others: the
      context's `current_date` and `next_date` when it was submitted and
      the earlier processes whose outputs it reads (the month's
      preparation job for a conversion job; the month's conversion job and,
      after the first month, the previous ICON run for an ICON run).  Its
      label, options, inputs and parameter instance follow from these and
      the workchain's inputs (`JobLabel`, `JobOptions`, `JobInputs`,
      `JobParams`). */
  datatype Job =
    | PrepJob(month: DateTime, nextMonth: DateTime)
    | ConvJob(month: DateTime, nextMonth: DateTime, prep: Id)
    | IconJob(month: DateTime, nextMonth: DateTime, conv: Id, prev: Option<Id>)

  function JobStage(j: Job): Stage {
    match j
    case PrepJob(_, _) => PrepStage
    case ConvJob(_, _, _) => ConvStage
    case IconJob(_, _, _, _) => IconStage
  }

  /** `builder.metadata.label` of a job. */
  function JobLabel(s: Setup, j: Job): string {
    Label(JobStage(j), s.expid, j.month)
  }

  /** The label of a job's parameter node. */
  function JobParamsLabel(s: Setup, j: Job): string {
    ParamsLabel(JobStage(j), s.expid, j.month)
  }

  /** The computer options a job is given: the shared ones under those of
      its stage. */
  function JobOptions(s: Setup, j: Job): Options {
    match j
    case PrepJob(_, _) => MergeOptions(s.shared, s.prepOptions)
    case ConvJob(_, _, _) => MergeOptions(s.shared, s.convOptions)
    case IconJob(_, _, _, _) => MergeOptions(s.shared, s.iconOptions)
  }

  /** The parameter instance a job is given. */
  function JobParams(s: Setup, j: Job): Record {
    match j
    case PrepJob(d, next) => PrepInstance(s.params, d, next)
    case ConvJob(d, _, _) => ConvInstance(s.params, s.start, d)
    case IconJob(d, _, _, _) => IconInstance(s.params, s.start, s.stop, d)
  }

  /** The inputs the step sets on a job's builder.  A job reads outputs of
      the processes its descriptor names and of no other; a conversion job
      reads the prepared data of its preparation job; an ICON run reads the
      converted data of its conversion job and takes its restart inputs
      from the previous ICON run exactly when there is one. */
  function JobInputs(j: Job): (m: map<Port, Ref>)
    ensures forall p :: p in m && m[p].Output? ==>
      (j.ConvJob? && m[p].node == j.prep) || (j.IconJob? && (m[p].node == j.conv || j.prev == Some(m[p].node)))
    ensures j.ConvJob? ==> GcmPrepared in m && m[GcmPrepared] == Output(j.prep, GcmPrepared)
    ensures j.IconJob? ==> GcmConverted in m && m[GcmConverted] == Output(j.conv, Converted)
    ensures j.IconJob? ==> (RestartFileDir in m <==> j.prev.Some?) && (RestartFileName in m <==> j.prev.Some?)
    ensures j.IconJob? && j.prev.Some? ==>
      m[RestartFileDir] == Output(j.prev.value, RestartFileDir) && m[RestartFileName] == Output(j.prev.value, RestartFileName)
  {
    match j
    case PrepJob(_, _) =>
      map[Code := StageInput(PrepStage, Code), GcmData := Input(GcmData)]
    case ConvJob(_, _, prep) =>
      map[Code := StageInput(ConvStage, Code), GcmPrepared := Output(prep, GcmPrepared),
          IniBasedir := Input(IniBasedir), BoundaryData := Input(BoundaryData)]
    case IconJob(_, _, conv, prev) =>
      var base := IconBaseInputs(conv);
      if prev.Some? then
        base[RestartFileDir := Output(prev.value, RestartFileDir)]
            [RestartFileName := Output(prev.value, RestartFileName)]
      else base
  }

  /** The inputs of an ICON run that are the same in every month but for
      the conversion job they read. */
  function IconBaseInputs(conv: Id): (m: map<Port, Ref>)
    ensures RestartFileDir !in m && RestartFileName !in m
    ensures forall p :: p in m && m[p].Output? ==> m[p] == Output(conv, Converted)
    ensures GcmConverted in m && m[GcmConverted] == Output(conv, Converted)
  {
    map[Code := StageInput(IconStage, Code), ExperimentId := Input(ExperimentId),
        GcmConverted := Output(conv, Converted),
        BoundaryData := Input(BoundaryData), IniBasedir := Input(IniBasedir),
        Inidata := Input(Inidata), Ecraddir := Input(Ecraddir),
        LamGridRelpath := Param("lam_grid_relpath"), ParentGridRelpath := Param("parent_grid_relpath"),
        ExtparRelpath := Param("extpar_relpath"), GhgFileRelpath := Param("ghg_file_relpath")]
  }

  // ---- what the loop submits ----

  /** The ICON run a round restarts from: `prev` for the first of `n`
      rounds submitted from id `base` on, the last job of the round before
      otherwise. */
  function Restart(base: Id, prev: Option<Id>, n: nat): Option<Id> {
    if n == 0 then prev else Some(base + 3 * n - 1)
  }

  /** The three jobs of one round on date `d`, submitted with ids `base`,
      `base + 1` and `base + 2`, restarting from `prev`. */
  function Round(d: DateTime, base: Id, prev: Option<Id>): seq<Job>
    requires 1 <= d.month <= 12
  {
    [PrepJob(d, NextDate(d)), ConvJob(d, NextDate(d), base), IconJob(d, NextDate(d), base + 1, prev)]
  }

  /** Everything the loop submits for the months `ds`, the first job
      getting id `base` and the first ICON run restarting from `prev`. */
  function Plan(base: Id, prev: Option<Id>, ds: seq<DateTime>): (js: seq<Job>)
    requires forall i :: 0 <= i < |ds| ==> 1 <= ds[i].month <= 12
    ensures |js| == 3 * |ds|
    decreases |ds|
  {
    if ds == [] then [] else Round(ds[0], base, prev) + Plan(base + 3, Some(base + 2), ds[1..])
  }

  lemma {:induction false} PlanSnoc(base: Id, prev: Option<Id>, ds: seq<DateTime>, d: DateTime)
    requires forall i :: 0 <= i < |ds| ==> 1 <= ds[i].month <= 12
    requires 1 <= d.month <= 12
    ensures Plan(base, prev, ds + [d]) == Plan(base, prev, ds) + Round(d, base + 3 * |ds|, Restart(base, prev, |ds|))
    decreases |ds|
  {
    if ds == [] {
      assert ds + [d] == [d] && [d][1..] == [];
    } else {
      var t := ds + [d];
      assert t[0] == ds[0] && t[1..] == ds[1..] + [d];
      PlanSnoc(base + 3, Some(base + 2), ds[1..], d);
      assert Restart(base + 3, Some(base + 2), |ds[1..]|) == Restart(base, prev, |ds|);
      assert Plan(base, prev, t) == Round(ds[0], base, prev) + Plan(base + 3, Some(base + 2), ds[1..] + [d]);
      assert Plan(base, prev, ds) == Round(ds[0], base, prev) + Plan(base + 3, Some(base + 2), ds[1..]);
    }
  }

  /** The plan of a prefix of the months is a prefix of the plan. */
  lemma {:induction false} PlanPrefix(base: Id, prev: Option<Id>, ds: seq<DateTime>, n: nat)
    requires forall i :: 0 <= i < |ds| ==> 1 <= ds[i].month <= 12
    requires n <= |ds|
    ensures Plan(base, prev, ds[..n]) == Plan(base, prev, ds)[..3 * n]
    decreases |ds| - n
  {
    if n < |ds| {
      PlanPrefix(base, prev, ds, n + 1);
      PlanSnoc(base, prev, ds[..n], ds[n]);
      assert ds[..n + 1] == ds[..n] + [ds[n]];
    } else {
      assert ds[..n] == ds;
    }
  }

  /** Round `i` of the plan, where the job at position `n` has id
      `base + n`: the preparation job of month `ds[i]`, the conversion job
      reading that preparation job, and the ICON run reading that
      conversion job and restarting from the previous round's ICON run. */
  lemma {:induction false} PlanRound(base: Id, prev: Option<Id>, ds: seq<DateTime>, i: nat)
    requires forall i :: 0 <= i < |ds| ==> 1 <= ds[i].month <= 12
    requires i < |ds|
    ensures var js := Plan(base, prev, ds);
      && js[3 * i] == PrepJob(ds[i], NextDate(ds[i]))
      && js[3 * i + 1] == ConvJob(ds[i], NextDate(ds[i]), base + 3 * i)
      && js[3 * i + 2] == IconJob(ds[i], NextDate(ds[i]), base + 3 * i + 1, Restart(base, prev, i))
  {
    PlanPrefix(base, prev, ds, i + 1);
    PlanSnoc(base, prev, ds[..i], ds[i]);
    assert ds[..i + 1] == ds[..i] + [ds[i]];
  }

  /** The wiring of the jobs the whole loop submits: in round `i` the
      conversion job reads the output of the round's preparation job, the
      ICON run reads the output of the round's conversion job and, exactly
      from the second round on, the restart file of the previous round's
      ICON run; all three are labelled with the round's month. */
  lemma PlanWiring(base: Id, ds: seq<DateTime>, i: nat)
    requires forall i :: 0 <= i < |ds| ==> 1 <= ds[i].month <= 12
    requires i < |ds|
    ensures var js := Plan(base, None, ds);
      && JobStage(js[3 * i]) == PrepStage && JobStage(js[3 * i + 1]) == ConvStage && JobStage(js[3 * i + 2]) == IconStage
      && GcmPrepared in JobInputs(js[3 * i + 1])
      && JobInputs(js[3 * i + 1])[GcmPrepared] == Output(base + 3 * i, GcmPrepared)
      && GcmConverted in JobInputs(js[3 * i + 2])
      && JobInputs(js[3 * i + 2])[GcmConverted] == Output(base + 3 * i + 1, Converted)
      && (RestartFileDir in JobInputs(js[3 * i + 2]) <==> i > 0)
      && (RestartFileName in JobInputs(js[3 * i + 2]) <==> i > 0)
      && (i > 0 ==> JobStage(js[3 * (i - 1) + 2]) == IconStage
                    && JobInputs(js[3 * i + 2])[RestartFileDir] == Output(base + 3 * (i - 1) + 2, RestartFileDir)
                    && JobInputs(js[3 * i + 2])[RestartFileName] == Output(base + 3 * (i - 1) + 2, RestartFileName))
      && js[3 * i].month == ds[i] && js[3 * i + 1].month == ds[i] && js[3 * i + 2].month == ds[i]
      && js[3 * i].nextMonth == NextDate(ds[i])
  {
    PlanRound(base, None, ds, i);
    if i > 0 {
      PlanRound(base, None, ds, i - 1);
    }
  }

  // ---- the workchain ----

  datatype StepError =
    | IndexError(list: string, index: int)  // a context list read past its end
    | AttributeError(name: string)          // a context variable read before it is set

  /** The context lists `preps`, `convs` and `icons` are built by
      `to_context(name=append_(...))`, whose first append creates the
      context variable; an empty list here stands for a variable that was
      never set, so reading it raises AttributeError rather than
      IndexError. */
  class Workchain {
    const setup: Setup
    var jobs: seq<Job>
    var currentDate: DateTime
    var nextDate: DateTime
    var iterNum: nat
    var preps: seq<Id>
    var convs: seq<Id>
    var icons: seq<Id>
    var lastIconId: Option<Id>

    /** The start and stop dates are ones `datetime` accepts. */
    predicate Dated() {
      Dates.Valid(setup.start) && Dates.Valid(setup.stop)
    }

    /** The current and next dates are in calendar months, so that the
        workchain can step them. */
    predicate Valid()
      reads this
    {
      1 <= currentDate.month <= 12 && 1 <= nextDate.month <= 12
    }

    /** `check_inputs`: take the experiment parameters and their two dates. */
    constructor (expid: string, params: Record, shared: Options, prepOptions: Options,
                 convOptions: Options, iconOptions: Options)
      requires "start_date" in params && params["start_date"].VDate? && Dates.Valid(params["start_date"].date)
      requires "stop_date" in params && params["stop_date"].VDate? && Dates.Valid(params["stop_date"].date)
      ensures setup == Setup(expid, params, params["start_date"].date, params["stop_date"].date,
                             shared, prepOptions, convOptions, iconOptions)
      ensures jobs == [] && preps == [] && convs == [] && icons == [] && lastIconId == None
      ensures Dated() && Valid()
    {
      var start := params["start_date"].date;
      setup := Setup(expid, params, start, params["stop_date"].date,
                     shared, prepOptions, convOptions, iconOptions);
      jobs := [];
      currentDate := start;
      nextDate := NextDate(start);
      iterNum := 0;
      preps, convs, icons := [], [], [];
      lastIconId := None;
    }

    /** `init_iterations`. */
    method InitIterations()
      requires Dated()
      modifies this
      ensures currentDate == setup.start && nextDate == NextDate(setup.start) && iterNum == 0
      ensures jobs == old(jobs) && preps == old(preps) && convs == old(convs) && icons == old(icons)
      ensures lastIconId == old(lastIconId)
      ensures Valid()
    {
      currentDate := setup.start;
      nextDate := NextDate(currentDate);
      iterNum := 0;
    }

    /** `should_run`: the loop goes on exactly while months are left
        to run. */
    predicate ShouldRun(): (b: bool)
      reads this
      ensures Valid() && Dated() ==> (b <==> Months(currentDate, setup.stop) != [])
    {
      Before(currentDate, setup.stop)
    }

    /** `incr_iteration`. */
    method IncrIteration()
      requires Valid()
      modifies this
      ensures currentDate == old(nextDate) && nextDate == NextDate(old(nextDate))
      ensures iterNum == old(iterNum) + 1
      ensures jobs == old(jobs) && preps == old(preps) && convs == old(convs) && icons == old(icons)
      ensures lastIconId == old(lastIconId)
      ensures Valid()
    {
      currentDate := nextDate;
      nextDate := NextDate(currentDate);
      iterNum := iterNum + 1;
    }

    /** `prep`: submit the month's preparation job. */
    method Prep()
      modifies this
      ensures jobs == old(jobs) + [PrepJob(currentDate, nextDate)]
      ensures preps == old(preps) + [|old(jobs)|]
      ensures convs == old(convs) && icons == old(icons) && lastIconId == old(lastIconId)
      ensures currentDate == old(currentDate) && nextDate == old(nextDate) && iterNum == old(iterNum)
    {
      preps := preps + [|jobs|];
      jobs := jobs + [PrepJob(currentDate, nextDate)];
    }

    /** `conv`: submit the month's conversion job on the output of
        `preps[iter_num]`. */
    method Conv() returns (r: Outcome<StepError>)
      modifies this
      ensures preps == old(preps) && icons == old(icons) && lastIconId == old(lastIconId)
      ensures currentDate == old(currentDate) && nextDate == old(nextDate) && iterNum == old(iterNum)
      ensures r.Pass? <==> iterNum < |preps|
      ensures r.Fail? ==> jobs == old(jobs) && convs == old(convs)
      ensures r.Fail? ==> r.error == if preps == [] then AttributeError("preps") else IndexError("preps", iterNum)
      ensures r.Pass? ==> jobs == old(jobs) + [ConvJob(currentDate, nextDate, preps[iterNum])]
      ensures r.Pass? ==> convs == old(convs) + [|old(jobs)|]
    {
      if preps == [] {
        return Fail(AttributeError("preps"));
      }
      if iterNum >= |preps| {
        return Fail(IndexError("preps", iterNum));
      }
      convs := convs + [|jobs|];
      jobs := jobs + [ConvJob(currentDate, nextDate, preps[iterNum])];
      r := Pass;
    }

    /** `wait_for_previous_icon`: after the first round, await the last
        ICON run and append it to `icons`. */
    method WaitForPreviousIcon() returns (r: Outcome<StepError>)
      modifies this
      ensures r.Pass? <==> iterNum == 0 || old(lastIconId).Some?
      ensures r.Fail? ==> r.error == AttributeError("last_icon_id")
      ensures icons == if iterNum > 0 && r.Pass? then old(icons) + [old(lastIconId).value] else old(icons)
      ensures jobs == old(jobs) && preps == old(preps) && convs == old(convs) && lastIconId == old(lastIconId)
      ensures currentDate == old(currentDate) && nextDate == old(nextDate) && iterNum == old(iterNum)
    {
      r := Pass;
      if iterNum > 0 {
        if lastIconId.None? {
          return Fail(AttributeError("last_icon_id"));
        }
        icons := icons + [lastIconId.value];
      }
    }

    /** `icon`: submit the month's ICON run on the output of
        `convs[iter_num]`, restarting from `icons[iter_num - 1]` after the
        first round. */
    method Icon() returns (r: Outcome<StepError>)
      modifies this
      ensures preps == old(preps) && convs == old(convs) && icons == old(icons)
      ensures currentDate == old(currentDate) && nextDate == old(nextDate) && iterNum == old(iterNum)
      ensures r.Pass? <==> iterNum < |convs| && (iterNum == 0 || iterNum - 1 < |icons|)
      ensures r.Fail? ==> jobs == old(jobs) && lastIconId == old(lastIconId)
      ensures r.Fail? ==>
                r.error == if convs == [] then AttributeError("convs")
                           else if iterNum >= |convs| then IndexError("convs", iterNum)
                           else if icons == [] then AttributeError("icons")
                           else IndexError("icons", iterNum - 1)
      ensures r.Pass? ==>
        jobs == old(jobs) + [IconJob(currentDate, nextDate, convs[iterNum], if iterNum == 0 then None else Some(icons[iterNum - 1]))]
      ensures r.Pass? ==> lastIconId == Some(|old(jobs)|)
    {
      if convs == [] {
        return Fail(AttributeError("convs"));
      }
      if iterNum >= |convs| {
        return Fail(IndexError("convs", iterNum));
      }
      var prev: Option<Id> := None;
      if iterNum > 0 {
        if icons == [] {
          return Fail(AttributeError("icons"));
        }
        if iterNum - 1 >= |icons| {
          return Fail(IndexError("icons", iterNum - 1));
        }
        prev := Some(icons[iterNum - 1]);
      }
      lastIconId := Some(|jobs|);
      jobs := jobs + [IconJob(currentDate, nextDate, convs[iterNum], prev)];
      r := Pass;
    }

    /** `finalize`: expose the outputs of the last ICON run, `icons[-1]`;
        when no ICON run was ever awaited, `icons` does not exist. */
    method Finalize() returns (r: Result<Id, StepError>)
      ensures r.Success? <==> icons != []
      ensures r.Success? ==> r.value == icons[|icons| - 1]
      ensures r.Failure? ==> r.error == AttributeError("icons")
    {
      if icons == [] {
        return Failure(AttributeError("icons"));
      }
      r := Success(icons[|icons| - 1]);
    }

    /** The bookkeeping at the head of the loop after `n` rounds whose
        first job got id `first`: the lists hold the ids those rounds
        submitted, and the ICON run of the last round is not yet awaited. */
    ghost predicate Rounds(first: Id, n: nat)
      reads this
    {
      && iterNum == n && |preps| == n && |convs| == n && |icons| == (if n == 0 then 0 else n - 1)
      && (forall k :: 0 <= k < n ==> preps[k] == first + 3 * k && convs[k] == first + 3 * k + 1)
      && (forall k :: 0 <= k < |icons| ==> icons[k] == first + 3 * k + 2)
      && lastIconId == Restart(first, None, n)
    }

    /** One pass of the loop body, `prep`, `conv`, `wait_for_previous_icon`,
        `icon` and `incr_iteration`: none of the steps fails, and one more
        round is submitted. */
    method Step(ghost first: Id, ghost n: nat)
      requires Valid() && nextDate == NextDate(currentDate)
      requires Rounds(first, n) && |jobs| == first + 3 * n
      modifies this
      ensures Valid() && nextDate == NextDate(currentDate)
      ensures Rounds(first, n + 1)
      ensures currentDate == old(nextDate)
      ensures jobs == old(jobs) + Round(old(currentDate), first + 3 * n, Restart(first, None, n))
    {
      Prep();
      var c := Conv();
      var w := WaitForPreviousIcon();
      var i := Icon();
      assert c.Pass? && w.Pass? && i.Pass?;
      IncrIteration();
    }

    /** The steps after the loop, `wait_for_previous_icon` and `finalize`,
        after `n` rounds: the last round's ICON run is awaited and is the
        result; with no round at all, `icons` was never set. */
    method Finish(ghost first: Id, ghost n: nat) returns (r: Result<Id, StepError>)
      requires Rounds(first, n)
      modifies this
      ensures jobs == old(jobs)
      ensures |icons| == n && forall k :: 0 <= k < n ==> icons[k] == first + 3 * k + 2
      ensures r.Success? <==> n > 0
      ensures r.Success? ==> r.value == first + 3 * n - 1
      ensures r.Failure? ==> r.error == AttributeError("icons")
    {
      var w := WaitForPreviousIcon();
      assert w.Pass?;
      r := Finalize();
    }

    /** The bookkeeping of one pass of the loop body, for the proof of
        `Loop`: after the months `done` and before the months ahead, one
        more round is submitted and the current month joins `done`. */
    method Iteration(ghost first: Id, ghost jobs0: seq<Job>, ghost done: seq<DateTime>, ghost all: seq<DateTime>)
      returns (ghost done': seq<DateTime>)
      requires Looping(first, jobs0, done, all) && ShouldRun()
      modifies this
      ensures done' == done + [old(currentDate)]
      ensures Looping(first, jobs0, done', all)
      ensures |Months(currentDate, setup.stop)| < |Months(old(currentDate), setup.stop)|
    {
      var d := currentDate;
      MonthsUnfold(d, setup.stop);
      MonthsAdvance(done, d, Months(NextDate(d), setup.stop), all);
      PlanSnoc(first, None, done, d);
      Step(first, |done|);
      Assoc(jobs0, Plan(first, None, done), Round(d, first + 3 * |done|, Restart(first, None, |done|)));
      done' := done + [d];
    }

    /** The state at the head of the monthly loop after the months `done`
        of `all`, the rounds of the jobs past `jobs0` that the loop
        submitted. */
    ghost predicate Looping(first: Id, jobs0: seq<Job>, done: seq<DateTime>, all: seq<DateTime>)
      reads this
    {
      && Dated() && Valid() && nextDate == NextDate(currentDate)
      && done + Months(currentDate, setup.stop) == all
      && (forall i :: 0 <= i < |done| ==> 1 <= done[i].month <= 12)
      && Rounds(first, |done|) && |jobs0| == first && jobs == jobs0 + Plan(first, None, done)
    }

    /** The monthly loop, `while should_run` of the five steps, from the
        start date with no round done: one round per month the loop
        visits. */
    method Loop()
      requires Dated() && Valid() && currentDate == setup.start && nextDate == NextDate(setup.start)
      requires Rounds(|jobs|, 0)
      modifies this
      ensures Rounds(|old(jobs)|, |Months(setup.start, setup.stop)|)
      ensures jobs == old(jobs) + Plan(|old(jobs)|, None, Months(setup.start, setup.stop))
    {
      ghost var first := |jobs|;
      ghost var all := Months(setup.start, setup.stop);
      ghost var done: seq<DateTime> := [];
      LoopEntry(first, jobs, all);
      while ShouldRun()
        invariant Looping(first, old(jobs), done, all)
        decreases |Months(currentDate, setup.stop)|
      {
        done := Iteration(first, old(jobs), done, all);
      }
      LoopExit(first, old(jobs), done, all);
    }

    /** The loop starts with no month done. */
    lemma LoopEntry(first: Id, jobs0: seq<Job>, all: seq<DateTime>)
      requires Dated() && Valid() && currentDate == setup.start && nextDate == NextDate(setup.start)
      requires Rounds(first, 0) && first == |jobs| && jobs0 == jobs && all == Months(setup.start, setup.stop)
      ensures Looping(first, jobs0, [], all)
    {
    }

    /** When `should_run` is false, every month has been done. */
    lemma LoopExit(first: Id, jobs0: seq<Job>, done: seq<DateTime>, all: seq<DateTime>)
      requires Looping(first, jobs0, done, all) && !ShouldRun() && all == Months(setup.start, setup.stop)
      ensures Rounds(first, |all|) && jobs == jobs0 + Plan(first, None, all)
    {
      assert done == all;
    }

    /** The whole outline: `init_iterations`, the monthly loop while
        `should_run`, the wait for the last ICON run and `finalize`.  One
        round is submitted per month the loop visits, and the result is the
        last ICON run, or the AttributeError of the never-set `icons` when
        the start date is not before the stop date. */
    method Run() returns (r: Result<Id, StepError>)
      requires Dated()
      requires preps == [] && convs == [] && icons == [] && lastIconId == None
      modifies this
      ensures jobs == old(jobs) + Plan(|old(jobs)|, None, Months(setup.start, setup.stop))
      ensures |icons| == |Months(setup.start, setup.stop)|
      ensures forall k :: 0 <= k < |icons| ==> icons[k] == |old(jobs)| + 3 * k + 2
      ensures r.Success? <==> Before(setup.start, setup.stop)
      ensures r.Success? ==> r.value == |old(jobs)| + 3 * |Months(setup.start, setup.stop)| - 1
      ensures r.Failure? ==> r.error == AttributeError("icons")
    {
      InitIterations();
      Loop();
      r := Finish(|old(jobs)|, |Months(setup.start, setup.stop)|);
    }
  }
}
