/** Dataclass instances as dicts of field values, and the JSON conversion the
    parameter classes apply field by field.

    A field table lists the dataclass's fields in declaration order, each with
    the converter its metadata names (or none) and its default.  An instance
    is a map from every field name to a value; `as_dict` converts the fields
    that have a converter and keeps the others; `from_dict` converts them back
    in table order, stopping at the first missing key or unreadable value,
    and then calls the class with the resulting keywords. */
module Dataclass {
  import opened Wrappers
  import opened Dates
  import opened Paths

  /** The values fields hold.  On the JSON side a date is its `isoformat`
      string, a duration its total seconds and a path its `str`. */
  datatype Value =
    | VNone
    | VBool(b: bool)
    | VInt(i: int)
    | VStr(s: string)
    | VTuple(items: seq<Value>)
    | VDate(date: DateTime)
    | VDuration(duration: Duration)
    | VPath(path: Path)

  /** The `to_json`/`from_json` pair in a field's metadata. */
  datatype Converter =
    | Plain          // no converter: the value is stored as it is
    | DateConv       // isoformat / fromisoformat
    | DurationConv   // total_seconds / duration(seconds=...)
    | PathConv       // str / pathlib.Path
    | DurationsConv  // a tuple of durations, element by element

  datatype Field = Field(name: string, conv: Converter, default: Option<Value>)

  type Record = map<string, Value>

  datatype ConvError =
    | KeyMissing(key: string)  // KeyError reading data[name]
    | BadValue(key: string)    // ValueError/TypeError inside from_json
    | BadArguments             // TypeError from cls(**data)

  /** The value has the type the converter expects. */
  predicate Fits(c: Converter, v: Value) {
    match c
    case Plain => true
    case DateConv => v.VDate?
    case DurationConv => v.VDuration?
    case PathConv => v.VPath?
    case DurationsConv => v.VTuple? && forall k :: 0 <= k < |v.items| ==> v.items[k].VDuration?
  }

  /** The value is one that its converter gives back unchanged: a valid date,
      a duration without calendar years or months, a normalised path. */
  predicate Canonical(c: Converter, v: Value) {
    Fits(c, v) &&
    match c
    case Plain => true
    case DateConv => Valid(v.date)
    case DurationConv => v.duration.years == 0 && v.duration.months == 0
    case PathConv => Paths.Canonical(v.path)
    case DurationsConv =>
      forall k :: 0 <= k < |v.items| ==> v.items[k].duration.years == 0 && v.items[k].duration.months == 0
  }

  function ToJson(c: Converter, v: Value): (j: Value)
    requires Fits(c, v)
  {
    match c
    case Plain => v
    case DateConv => VStr(IsoFormat(v.date))
    case DurationConv => VInt(TotalSeconds(v.duration))
    case PathConv => VStr(Paths.ToString(v.path))
    case DurationsConv => VTuple(seq(|v.items|, k requires 0 <= k < |v.items| => VInt(TotalSeconds(v.items[k].duration))))
  }

  predicate AllInts(items: seq<Value>) {
    forall k :: 0 <= k < |items| ==> items[k].VInt?
  }

  function FromJson(c: Converter, j: Value): (r: Result<Value, ()>)
    ensures r.Success? ==> Fits(c, r.value)
  {
    match c
    case Plain => Success(j)
    case DateConv =>
      if !j.VStr? then Failure(())
      else
        (match FromIsoFormat(j.s)
         case Success(d) => Success(VDate(d))
         case Failure(_) => Failure(()))
    case DurationConv => if j.VInt? then Success(VDuration(FromSeconds(j.i))) else Failure(())
    case PathConv => if j.VStr? then Success(VPath(FromString(j.s))) else Failure(())
    case DurationsConv =>
      if j.VTuple? && AllInts(j.items)
      then Success(VTuple(seq(|j.items|, k requires 0 <= k < |j.items| => VDuration(FromSeconds(j.items[k].i)))))
      else Failure(())
  }

  /** Each converter pair is mutually inverse on canonical values. */
  lemma ConverterRoundTrip(c: Converter, v: Value)
    requires Canonical(c, v)
    ensures FromJson(c, ToJson(c, v)) == Success(v)
  {
    match c
    case Plain =>
    case DateConv => IsoFormatRoundTrip(v.date);
    case DurationConv =>
    case PathConv => ToStringRoundTrip(v.path);
    case DurationsConv =>
      var j := ToJson(c, v);
      assert AllInts(j.items);
      var back := seq(|j.items|, k requires 0 <= k < |j.items| => VDuration(FromSeconds(j.items[k].i)));
      assert back == v.items by {
        forall k | 0 <= k < |v.items| ensures back[k] == v.items[k] {
          FromTotalSeconds(v.items[k].duration);
        }
      }
  }

  /** A duration with calendar years or months comes back as the same
      timedelta, though not as the same value. */
  lemma DurationConverterSame(d: Duration)
    ensures FromJson(DurationConv, ToJson(DurationConv, VDuration(d))).Success?
    ensures SameDuration(FromJson(DurationConv, ToJson(DurationConv, VDuration(d))).value.duration, d)
  {
    FromTotalSeconds(d);
  }

  // ---- field tables ----

  predicate Distinct(fs: seq<Field>) {
    forall i, j :: 0 <= i < j < |fs| ==> fs[i].name != fs[j].name
  }

  lemma DistinctConcat(a: seq<Field>, b: seq<Field>)
    requires Distinct(a) && Distinct(b)
    requires forall i, j :: 0 <= i < |a| && 0 <= j < |b| ==> a[i].name != b[j].name
    ensures Distinct(a + b)
  {
    forall i, j | 0 <= i < j < |a + b| ensures (a + b)[i].name != (a + b)[j].name {
      if j < |a| {
      } else if i >= |a| {
        assert (a + b)[i] == b[i - |a|] && (a + b)[j] == b[j - |a|];
      } else {
        assert (a + b)[i] == a[i] && (a + b)[j] == b[j - |a|];
      }
    }
  }

  function NameSet(fs: seq<Field>): set<string> {
    set k | 0 <= k < |fs| :: fs[k].name
  }

  /** The converter of the field called `key`; `Plain` when there is none. */
  function ConvOf(fs: seq<Field>, key: string): Converter {
    if fs == [] then Plain
    else if fs[0].name == key then fs[0].conv
    else ConvOf(fs[1..], key)
  }

  lemma {:induction false} ConvOfField(fs: seq<Field>, i: nat)
    requires Distinct(fs) && i < |fs|
    ensures ConvOf(fs, fs[i].name) == fs[i].conv
  {
    if i > 0 {
      assert fs[0].name != fs[i].name;
      assert fs[1..][i - 1] == fs[i];
      ConvOfField(fs[1..], i - 1);
    }
  }

  lemma {:induction false} ConvOfOther(fs: seq<Field>, key: string)
    requires key !in NameSet(fs)
    ensures ConvOf(fs, key) == Plain
  {
    if fs != [] {
      assert fs[0].name in NameSet(fs);
      assert NameSet(fs[1..]) <= NameSet(fs) by {
        forall n | n in NameSet(fs[1..]) ensures n in NameSet(fs) {
          var k :| 0 <= k < |fs[1..]| && fs[1..][k].name == n;
          assert fs[k + 1].name == n;
        }
      }
      ConvOfOther(fs[1..], key);
    }
  }

  /** Every field of the table is present with a value of its type. */
  predicate FieldsFit(fs: seq<Field>, r: Record) {
    forall k :: 0 <= k < |fs| ==> fs[k].name in r && Fits(fs[k].conv, r[fs[k].name])
  }

  /** The value stored under every field has the field's type, and there is
      nothing else: what `dataclasses.asdict` returns for an instance. */
  predicate IsInstance(fs: seq<Field>, r: Record) {
    r.Keys == NameSet(fs) && FieldsFit(fs, r)
  }

  predicate AllCanonical(fs: seq<Field>, r: Record)
    requires IsInstance(fs, r)
  {
    forall k :: 0 <= k < |fs| ==> Canonical(fs[k].conv, r[fs[k].name])
  }

  lemma {:induction false} InstanceFits(fs: seq<Field>, r: Record, key: string)
    requires FieldsFit(fs, r) && key in r
    ensures Fits(ConvOf(fs, key), r[key])
  {
    if fs != [] && fs[0].name != key {
      assert forall k :: 0 <= k < |fs[1..]| ==> fs[1..][k] == fs[k + 1];
      InstanceFits(fs[1..], r, key);
    }
  }

  /** `as_dict`: every field converted by its own `to_json`, every other
      entry kept. */
  function ToDict(fs: seq<Field>, r: Record): (d: Record)
    requires FieldsFit(fs, r)
    ensures d.Keys == r.Keys
  {
    map key | key in r :: (InstanceFits(fs, r, key); ToJson(ConvOf(fs, key), r[key]))
  }

  /** `as_dict` applies `to_json` to exactly the fields that have one. */
  lemma ToDictFields(fs: seq<Field>, r: Record, i: nat)
    requires Distinct(fs) && FieldsFit(fs, r) && i < |fs|
    ensures ToDict(fs, r)[fs[i].name] == ToJson(fs[i].conv, r[fs[i].name])
    ensures fs[i].conv == Plain ==> ToDict(fs, r)[fs[i].name] == r[fs[i].name]
  {
    ConvOfField(fs, i);
  }

  /** The key `from_dict` trips over at field `f`, if any. */
  function FieldError(f: Field, d: Record): Option<ConvError> {
    if f.conv == Plain then None
    else if f.name !in d then Some(KeyMissing(f.name))
    else if FromJson(f.conv, d[f.name]).Failure? then Some(BadValue(f.name))
    else None
  }

  /** The first field, in table order, whose conversion fails. */
  function FirstFailure(fs: seq<Field>, d: Record): (e: Option<ConvError>)
    ensures e.None? <==> forall k :: 0 <= k < |fs| ==> FieldError(fs[k], d).None?
    ensures e.Some? ==> exists k :: 0 <= k < |fs| && FieldError(fs[k], d) == e
  {
    if fs == [] then None
    else if FieldError(fs[0], d).Some? then FieldError(fs[0], d)
    else
      var e := FirstFailure(fs[1..], d);
      assert forall k :: 1 <= k < |fs| ==> fs[k] == fs[1..][k - 1];
      e
  }

  /** What `from_json` makes of a value; a value it cannot read is kept
      (`from_dict` never gets that far, see `FromDict`). */
  function Convert(c: Converter, j: Value): Value {
    var r := FromJson(c, j);
    if r.Success? then r.value else j
  }

  /** The values `from_json` gives, with the other entries unchanged. */
  function ConvertedIn(fs: seq<Field>, d: Record): (r: Record)
    ensures r.Keys == d.Keys
  {
    map key | key in d :: Convert(ConvOf(fs, key), d[key])
  }

  /** A default that is missing stands for a required field. */
  function DefaultOf(fs: seq<Field>, key: string): Option<Value> {
    if fs == [] then None
    else if fs[0].name == key then fs[0].default
    else DefaultOf(fs[1..], key)
  }

  /** `cls(**data)`: an unknown keyword or a missing required field is a
      TypeError; a field not given takes its default. */
  function Construct(fs: seq<Field>, data: Record): (r: Result<Record, ConvError>)
    ensures r.Success? <==>
      data.Keys <= NameSet(fs) && forall key :: key in NameSet(fs) && key !in data ==> DefaultOf(fs, key).Some?
    ensures r.Success? ==> r.value.Keys == NameSet(fs)
    ensures r.Success? ==> forall key :: key in data ==> r.value[key] == data[key]
    ensures r.Success? ==> forall key :: key in NameSet(fs) && key !in data ==> DefaultOf(fs, key) == Some(r.value[key])
  {
    if !(data.Keys <= NameSet(fs)) then Failure(BadArguments)
    else if exists key :: key in NameSet(fs) && key !in data && DefaultOf(fs, key).None? then Failure(BadArguments)
    else Success(map key | key in NameSet(fs) :: if key in data then data[key] else DefaultOf(fs, key).value)
  }

  /** `from_dict`: convert in table order, then construct. */
  function FromDict(fs: seq<Field>, d: Record): (r: Result<Record, ConvError>)
    ensures r.Success? ==> d.Keys <= NameSet(fs) && r.value.Keys == NameSet(fs)
    ensures r.Success? ==> forall key :: key in NameSet(fs) && key !in d ==> DefaultOf(fs, key) == Some(r.value[key])
  {
    match FirstFailure(fs, d)
    case Some(e) => Failure(e)
    case None => Construct(fs, ConvertedIn(fs, d))
  }

  /** A converted first field that is missing is the KeyError `from_dict`
      raises first. */
  lemma FirstFieldMissing(fs: seq<Field>, d: Record)
    requires fs != [] && fs[0].conv != Plain && fs[0].name !in d
    ensures FromDict(fs, d) == Failure(KeyMissing(fs[0].name))
  {
    assert FieldError(fs[0], d) == Some(KeyMissing(fs[0].name));
  }

  lemma ToDictNoFailure(fs: seq<Field>, r: Record)
    requires Distinct(fs) && IsInstance(fs, r) && AllCanonical(fs, r)
    ensures FirstFailure(fs, ToDict(fs, r)).None?
  {
    var d := ToDict(fs, r);
    forall k | 0 <= k < |fs| ensures FieldError(fs[k], d).None? {
      ToDictFields(fs, r, k);
      ConverterRoundTrip(fs[k].conv, r[fs[k].name]);
    }
  }

  lemma ConvertedInToDict(fs: seq<Field>, r: Record)
    requires Distinct(fs) && IsInstance(fs, r) && AllCanonical(fs, r)
    ensures FirstFailure(fs, ToDict(fs, r)).None?
    ensures ConvertedIn(fs, ToDict(fs, r)) == r
  {
    ToDictNoFailure(fs, r);
    var back := ConvertedIn(fs, ToDict(fs, r));
    forall key | key in r ensures back[key] == r[key] {
      ConvertedInAt(fs, r, key);
    }
  }

  lemma ConvertedInAt(fs: seq<Field>, r: Record, key: string)
    requires Distinct(fs) && IsInstance(fs, r) && AllCanonical(fs, r) && key in r
    requires FirstFailure(fs, ToDict(fs, r)).None?
    ensures ConvertedIn(fs, ToDict(fs, r))[key] == r[key]
  {
    var i :| 0 <= i < |fs| && fs[i].name == key;
    ToDictFields(fs, r, i);
    ConvOfField(fs, i);
    ConverterRoundTrip(fs[i].conv, r[key]);
  }

  /** `from_dict(as_dict(p)) == p` for an instance whose values the
      converters give back unchanged. */
  lemma RoundTrip(fs: seq<Field>, r: Record)
    requires Distinct(fs) && IsInstance(fs, r) && AllCanonical(fs, r)
    ensures FromDict(fs, ToDict(fs, r)) == Success(r)
  {
    ConvertedInToDict(fs, r);
    ConstructAll(fs, r);
  }

  /** Giving every field constructs exactly the given values. */
  lemma ConstructAll(fs: seq<Field>, data: Record)
    requires data.Keys == NameSet(fs)
    ensures Construct(fs, data) == Success(data)
  {
    assert Construct(fs, data).Success?;
    var c := Construct(fs, data).value;
    assert forall key :: key in c ==> c[key] == data[key];
    assert c == data;
  }

  /** The keyword arguments of a call `cls(name=value, ...)` that passes,
      field by field in table order, a value or nothing. */
  function Keywords(fs: seq<Field>, given: seq<Option<Value>>): (kw: Record)
    requires Distinct(fs) && |given| == |fs|
    ensures forall k :: 0 <= k < |fs| ==> (fs[k].name in kw <==> given[k].Some?)
    ensures forall k :: 0 <= k < |fs| && given[k].Some? ==> kw[fs[k].name] == given[k].value
    ensures kw.Keys <= NameSet(fs)
  {
    map k | 0 <= k < |fs| && given[k].Some? :: fs[k].name := given[k].value
  }

  lemma {:induction false} DefaultOfField(fs: seq<Field>, i: nat)
    requires Distinct(fs) && i < |fs|
    ensures DefaultOf(fs, fs[i].name) == fs[i].default
  {
    if i > 0 {
      assert fs[0].name != fs[i].name;
      assert fs[1..][i - 1] == fs[i];
      DefaultOfField(fs[1..], i - 1);
    }
  }

  /** The instance a call that leaves out only fields with a default
      builds: every field holds the value passed or else its default. */
  function Built(fs: seq<Field>, given: seq<Option<Value>>): (r: Record)
    requires Distinct(fs) && |given| == |fs|
    requires forall k :: 0 <= k < |fs| && given[k].None? ==> fs[k].default.Some?
    ensures r.Keys == NameSet(fs)
    ensures forall k :: 0 <= k < |fs| ==> r[fs[k].name] == if given[k].Some? then given[k].value else fs[k].default.value
  {
    map k | 0 <= k < |fs| :: fs[k].name := if given[k].Some? then given[k].value else fs[k].default.value
  }

  /** `cls(**Keywords(fs, given))` succeeds and builds `Built(fs, given)`. */
  /** The value of a field that is given is the given one. */
  lemma BuiltGiven(fs: seq<Field>, given: seq<Option<Value>>, k: nat)
    requires Distinct(fs) && |given| == |fs|
    requires forall k :: 0 <= k < |fs| && given[k].None? ==> fs[k].default.Some?
    requires k < |fs| && given[k].Some?
    ensures fs[k].name in Built(fs, given) && Built(fs, given)[fs[k].name] == given[k].value
  {
  }

  lemma ConstructKeywords(fs: seq<Field>, given: seq<Option<Value>>)
    requires Distinct(fs) && |given| == |fs|
    requires forall k :: 0 <= k < |fs| && given[k].None? ==> fs[k].default.Some?
    ensures Construct(fs, Keywords(fs, given)) == Success(Built(fs, given))
  {
    var kw := Keywords(fs, given);
    forall i | 0 <= i < |fs| ensures DefaultOf(fs, fs[i].name) == fs[i].default {
      DefaultOfField(fs, i);
    }
    forall key | key in NameSet(fs) && key !in kw ensures DefaultOf(fs, key).Some? {
      var i :| 0 <= i < |fs| && fs[i].name == key;
    }
    var c := Construct(fs, kw);
    assert c.Success?;
    BuiltPointwise(fs, given, c.value);
    BuiltAgrees(fs, given, c.value);
  }

  /** A record with the fields of the table that agrees with the built
      instance on every field is the built instance. */
  lemma BuiltAgrees(fs: seq<Field>, given: seq<Option<Value>>, v: Record)
    requires Distinct(fs) && |given| == |fs|
    requires forall k :: 0 <= k < |fs| && given[k].None? ==> fs[k].default.Some?
    requires v.Keys == NameSet(fs)
    requires forall i :: 0 <= i < |fs| ==> v[fs[i].name] == Built(fs, given)[fs[i].name]
    ensures v == Built(fs, given)
  {
    var inst := Built(fs, given);
    forall key | key in inst ensures v[key] == inst[key] {
      var i :| 0 <= i < |fs| && fs[i].name == key;
    }
  }

  /** A record that holds the keywords passed and the defaults of the
      fields not passed agrees with the built instance on every field. */
  lemma BuiltPointwise(fs: seq<Field>, given: seq<Option<Value>>, v: Record)
    requires Distinct(fs) && |given| == |fs|
    requires forall k :: 0 <= k < |fs| && given[k].None? ==> fs[k].default.Some?
    requires v.Keys == NameSet(fs)
    requires forall key :: key in Keywords(fs, given) ==> v[key] == Keywords(fs, given)[key]
    requires forall key :: key in NameSet(fs) && key !in Keywords(fs, given) ==> DefaultOf(fs, key) == Some(v[key])
    ensures forall i :: 0 <= i < |fs| ==> v[fs[i].name] == Built(fs, given)[fs[i].name]
  {
    var kw := Keywords(fs, given);
    var inst := Built(fs, given);
    forall i | 0 <= i < |fs| ensures v[fs[i].name] == inst[fs[i].name] {
      var key := fs[i].name;
      assert key in NameSet(fs);
      if given[i].Some? {
        assert kw[key] == given[i].value;
      } else {
        DefaultOfField(fs, i);
        assert DefaultOf(fs, key) == Some(v[key]);
      }
    }
  }

  // ---- the field-by-field loops ----

  lemma NameSetSnoc(fs: seq<Field>, n: nat)
    requires n < |fs|
    ensures NameSet(fs[..n + 1]) == NameSet(fs[..n]) + {fs[n].name}
  {
    var a := NameSet(fs[..n + 1]);
    var b := NameSet(fs[..n]) + {fs[n].name};
    forall x | x in a ensures x in b {
      var k :| 0 <= k < n + 1 && fs[..n + 1][k].name == x;
      if k < n {
        assert fs[..n][k].name == x;
      }
    }
    forall x | x in b ensures x in a {
      if x == fs[n].name {
        assert fs[..n + 1][n].name == x;
      } else {
        var k :| 0 <= k < n && fs[..n][k].name == x;
        assert fs[..n + 1][k].name == x;
      }
    }
  }

  lemma {:induction false} ConvOfSnoc(p: seq<Field>, f: Field, key: string)
    ensures ConvOf(p + [f], key) ==
      if key in NameSet(p) then ConvOf(p, key) else if f.name == key then f.conv else Plain
  {
    if p == [] {
      assert p + [f] == [f];
      assert [f][1..] == [];
    } else {
      assert (p + [f])[1..] == p[1..] + [f];
      assert p[0].name in NameSet(p);
      if p[0].name != key {
        ConvOfSnoc(p[1..], f, key);
        assert key in NameSet(p) <==> key in NameSet(p[1..]) by {
          if key in NameSet(p) {
            var k :| 0 <= k < |p| && p[k].name == key;
            assert p[1..][k - 1].name == key;
          }
          if key in NameSet(p[1..]) {
            var k :| 0 <= k < |p[1..]| && p[1..][k].name == key;
            assert p[k + 1].name == key;
          }
        }
      }
    }
  }

  /** With distinct names, a field's name is not among the earlier ones. */
  lemma PrefixNotIn(fs: seq<Field>, n: nat)
    requires Distinct(fs) && n < |fs|
    ensures fs[n].name !in NameSet(fs[..n])
    ensures ConvOf(fs[..n], fs[n].name) == Plain
  {
    assert forall k :: 0 <= k < n ==> fs[..n][k].name != fs[n].name;
    ConvOfOther(fs[..n], fs[n].name);
  }

  lemma PrefixConv(fs: seq<Field>, n: nat, key: string)
    requires Distinct(fs) && n < |fs|
    ensures ConvOf(fs[..n + 1], key) == if key == fs[n].name then fs[n].conv else ConvOf(fs[..n], key)
  {
    assert fs[..n + 1] == fs[..n] + [fs[n]];
    ConvOfSnoc(fs[..n], fs[n], key);
    if key == fs[n].name {
      PrefixNotIn(fs, n);
    } else if key !in NameSet(fs[..n]) {
      ConvOfOther(fs[..n], key);
    }
  }

  /** One more field of `as_dict`'s loop: only that field's entry changes. */
  lemma ToDictSnoc(fs: seq<Field>, n: nat, r: Record)
    requires Distinct(fs) && FieldsFit(fs, r) && n < |fs|
    ensures Distinct(fs[..n]) && FieldsFit(fs[..n], r) && Distinct(fs[..n + 1]) && FieldsFit(fs[..n + 1], r)
    ensures ToDict(fs[..n], r)[fs[n].name] == r[fs[n].name]
    ensures ToDict(fs[..n + 1], r) == ToDict(fs[..n], r)[fs[n].name := ToJson(fs[n].conv, r[fs[n].name])]
  {
    assert Distinct(fs[..n]) && FieldsFit(fs[..n], r);
    assert Distinct(fs[..n + 1]) && FieldsFit(fs[..n + 1], r);
    PrefixNotIn(fs, n);
    PrefixConv(fs, n, fs[n].name);
    forall key | key in r
      ensures ToDict(fs[..n + 1], r)[key] ==
              ToDict(fs[..n], r)[fs[n].name := ToJson(fs[n].conv, r[fs[n].name])][key]
    {
      PrefixConv(fs, n, key);
    }
  }

  lemma ToDictEmpty(fs: seq<Field>, r: Record)
    requires Distinct(fs) && FieldsFit(fs, r)
    ensures Distinct(fs[..0]) && FieldsFit(fs[..0], r) && ToDict(fs[..0], r) == r
  {
    assert fs[..0] == [];
  }

  /** The position of the first field whose conversion fails; the table's
      length when there is none. */
  function FailIndex(fs: seq<Field>, d: Record): (n: nat)
    ensures n <= |fs|
    ensures forall k :: 0 <= k < n ==> FieldError(fs[k], d).None?
    ensures n < |fs| ==> FieldError(fs[n], d).Some? && FirstFailure(fs, d) == FieldError(fs[n], d)
    ensures n == |fs| <==> FirstFailure(fs, d).None?
  {
    if fs == [] then 0
    else if FieldError(fs[0], d).Some? then 0
    else
      var n := FailIndex(fs[1..], d);
      assert forall k :: 1 <= k < |fs| ==> fs[k] == fs[1..][k - 1];
      1 + n
  }

  /** Converting only the first `n` fields of the table: the state of the
      caller's dict once `from_dict` has processed them. */
  function ConvertedPrefix(fs: seq<Field>, n: nat, d: Record): (r: Record)
    requires n <= |fs|
    ensures r.Keys == d.Keys
  {
    ConvertedIn(fs[..n], d)
  }

  /** One more field of `from_dict`'s loop: only that field's entry changes,
      and it still held its original value. */
  lemma PrefixStepAt(fs: seq<Field>, n: nat, d: Record, key: string)
    requires Distinct(fs) && n < |fs| && key in d
    ensures ConvertedPrefix(fs, n + 1, d)[key] ==
        if key == fs[n].name then Convert(fs[n].conv, d[key]) else ConvertedPrefix(fs, n, d)[key]
    ensures key == fs[n].name ==> ConvertedPrefix(fs, n, d)[key] == d[key]
  {
    PrefixConv(fs, n, key);
    PrefixNotIn(fs, n);
  }

  lemma PrefixStep(fs: seq<Field>, n: nat, d: Record)
    requires Distinct(fs) && n < |fs|
    ensures fs[n].name in d ==> ConvertedPrefix(fs, n, d)[fs[n].name] == d[fs[n].name]
    ensures fs[n].name in d ==>
      ConvertedPrefix(fs, n + 1, d) == ConvertedPrefix(fs, n, d)[fs[n].name := Convert(fs[n].conv, d[fs[n].name])]
    ensures fs[n].name !in d ==> ConvertedPrefix(fs, n + 1, d) == ConvertedPrefix(fs, n, d)
  {
    var after := ConvertedPrefix(fs, n + 1, d);
    var before := ConvertedPrefix(fs, n, d);
    if fs[n].name in d {
      PrefixStepAt(fs, n, d, fs[n].name);
      var updated := before[fs[n].name := Convert(fs[n].conv, d[fs[n].name])];
      forall key | key in d ensures after[key] == updated[key] {
        PrefixStepAt(fs, n, d, key);
      }
    } else {
      forall key | key in d ensures after[key] == before[key] {
        PrefixStepAt(fs, n, d, key);
      }
    }
  }

  lemma PrefixEnds(fs: seq<Field>, d: Record)
    ensures ConvertedPrefix(fs, 0, d) == d
    ensures ConvertedPrefix(fs, |fs|, d) == ConvertedIn(fs, d)
  {
    assert fs[..|fs|] == fs;
    assert fs[..0] == [];
  }

  lemma FailHere(fs: seq<Field>, n: nat, d: Record)
    requires n < |fs| && n <= FailIndex(fs, d) && FieldError(fs[n], d).Some?
    ensures n == FailIndex(fs, d) && FromDict(fs, d) == Failure(FieldError(fs[n], d).value)
  {
  }

  lemma PassHere(fs: seq<Field>, n: nat, d: Record)
    requires n < |fs| && n <= FailIndex(fs, d) && FieldError(fs[n], d).None?
    ensures n + 1 <= FailIndex(fs, d)
  {
  }

  /** `as_dict`: start from `dataclasses.asdict(self)` and
      overwrite each converted field with its `to_json` value. */
  method FieldsToJson(fs: seq<Field>, p: Record) returns (data: Record)
    requires Distinct(fs) && FieldsFit(fs, p)
    ensures data == ToDict(fs, p)
  {
    data := p;
    ToDictEmpty(fs, p);
    for i := 0 to |fs|
      invariant Distinct(fs[..i]) && FieldsFit(fs[..i], p)
      invariant data == ToDict(fs[..i], p)
    {
      var field := fs[i];
      ToDictSnoc(fs, i, p);
      if field.conv != Plain {
        data := data[field.name := ToJson(field.conv, data[field.name])];
      }
    }
    assert fs[..|fs|] == fs;
  }

  /** `from_dict`: converts the caller's dict in place, field by
      field, and then constructs the instance.  On a missing key or an
      unreadable value it stops, leaving the fields before it converted. */
  method FieldsFromJson(fs: seq<Field>, d: JsonDict) returns (r: Result<Record, ConvError>)
    requires Distinct(fs)
    modifies d
    ensures r == FromDict(fs, old(d.entries))
    ensures d.entries == ConvertedPrefix(fs, FailIndex(fs, old(d.entries)), old(d.entries))
  {
    ghost var d0 := d.entries;
    PrefixEnds(fs, d0);
    var i := 0;
    while i < |fs|
      invariant i <= FailIndex(fs, d0)
      invariant d.entries == ConvertedPrefix(fs, i, d0)
    {
      var e := FieldFromJson(fs, i, d, d0);
      if e.Some? {
        return Failure(e.value);
      }
      i := i + 1;
    }
    PrefixEnds(fs, d0);
    r := Construct(fs, d.entries);
  }

  /** The body of the `from_dict` loop for the field at position `i`:
      either it is where the conversion fails, or its entry is converted. */
  method FieldFromJson(fs: seq<Field>, i: nat, d: JsonDict, ghost d0: Record) returns (e: Option<ConvError>)
    requires Distinct(fs) && i < |fs| && i <= FailIndex(fs, d0)
    requires d.entries == ConvertedPrefix(fs, i, d0)
    modifies d
    ensures e.Some? ==> i == FailIndex(fs, d0) && FromDict(fs, d0) == Failure(e.value) && d.entries == old(d.entries)
    ensures e.None? ==> i + 1 <= FailIndex(fs, d0) && d.entries == ConvertedPrefix(fs, i + 1, d0)
  {
    var field := fs[i];
    PrefixStep(fs, i, d0);
    if field.conv != Plain {
      if field.name !in d.entries {
        FailHere(fs, i, d0);
        return Some(KeyMissing(field.name));
      }
      var c := FromJson(field.conv, d.entries[field.name]);
      if c.Failure? {
        FailHere(fs, i, d0);
        return Some(BadValue(field.name));
      }
      d.entries := d.entries[field.name := c.value];
    }
    PassHere(fs, i, d0);
    e := None;
  }

  /** A dict object that `from_dict` changes in place. */
  class JsonDict {
    var entries: Record

    constructor (entries: Record)
      ensures this.entries == entries
    {
      this.entries := entries;
    }
  }

  /** A dataclass instance whose attributes can be assigned. */
  class Instance {
    var fields: Record

    constructor (fields: Record)
      ensures this.fields == fields
    {
      this.fields := fields;
    }
  }
}
