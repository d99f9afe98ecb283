/** The shared data of the SPICE workflow: `PrepParams`, the parameter
    dataclass of the preparation job, and `get_data`, which finds the one
    remote data node of a label in the "spice-exp" group or creates it. */
module Data {
  import opened Wrappers
  import opened Seqs
  import opened Text
  import opened Dataclass

  // ---- PrepParams ----

  /** `dataclasses.fields(PrepParams)`: no field has a default; the dates
      go through isoformat and the two directories through `str`. */
  const PREP_FIELDS: seq<Field> := [
    Field("date", DateConv, None),
    Field("next_date", DateConv, None),
    Field("n_parallel_tasks", Plain, None),
    Field("utils_bindir", PathConv, None),
    Field("cfu_bindir", PathConv, None),
    Field("hincbound", Plain, None),
    Field("gcm_prefix", Plain, None)
  ]

  lemma PrepDistinct()
    ensures Distinct(PREP_FIELDS)
  {
  }

  /** `PrepParams.as_dict`: `dataclasses.asdict`, then the two dates and
      the two directories overwritten with their string forms. */
  method AsDict(p: Record) returns (data: Record)
    requires IsInstance(PREP_FIELDS, p)
    ensures data == ToDict(PREP_FIELDS, p)
  {
    PrepDistinct();
    data := FieldsToJson(PREP_FIELDS, p);
  }

  /** `PrepParams.from_dict`: a copy of the dict with the four entries read
      back, then the class called with it; the caller's dict is left
      alone. */
  function FromDict(d: Record): (r: Result<Record, ConvError>)
    ensures r.Success? ==> d.Keys == NameSet(PREP_FIELDS) && r.value.Keys == NameSet(PREP_FIELDS)
    ensures "date" !in d ==> r == Failure(KeyMissing("date"))
  {
    PrepNoDefaults();
    var r := Dataclass.FromDict(PREP_FIELDS, d);
    if r.Success? then NoDefaultsAllRequired(PREP_FIELDS, d); r else r
  }

  /** `PrepParams.from_dict(p.as_dict()) == p`. */
  lemma PrepRoundTrip(p: Record)
    requires IsInstance(PREP_FIELDS, p) && AllCanonical(PREP_FIELDS, p)
    ensures FromDict(ToDict(PREP_FIELDS, p)) == Success(p)
  {
    PrepDistinct();
    RoundTrip(PREP_FIELDS, p);
  }

  /** Every field is required: a dict that lacks a key is refused, and one
      with an extra key too. */
  lemma PrepAllRequired(d: Record)
    requires FromDict(d).Success?
    ensures d.Keys == NameSet(PREP_FIELDS)
  {
    PrepNoDefaults();
    NoDefaultsAllRequired(PREP_FIELDS, d);
  }

  lemma PrepNoDefaults()
    ensures forall k :: 0 <= k < |PREP_FIELDS| ==> PREP_FIELDS[k].default.None?
  {
  }

  /** For a dataclass without defaults, `from_dict` succeeds only on a dict
      with exactly the field names as keys. */
  lemma NoDefaultsAllRequired(fs: seq<Field>, d: Record)
    requires forall k :: 0 <= k < |fs| ==> fs[k].default.None?
    requires Dataclass.FromDict(fs, d).Success?
    ensures d.Keys == NameSet(fs)
  {
    var conv := ConvertedIn(fs, d);
    assert Construct(fs, conv).Success?;
    forall key | key in NameSet(fs)
      ensures key in d
    {
      DefaultNone(fs, key);
    }
  }

  lemma {:induction false} DefaultNone(fs: seq<Field>, key: string)
    requires forall k :: 0 <= k < |fs| ==> fs[k].default.None?
    ensures DefaultOf(fs, key).None?
  {
    if fs != [] && fs[0].name != key {
      DefaultNone(fs[1..], key);
    }
  }

  // ---- get_data ----

  const GROUP_LABEL: string := "spice-exp"
  const GCM_DATA_LABEL: string := "gcm_data"
  const INIDATA_LABEL: string := "inidata"
  const INIBASEDIR_LABEL: string := "ini_basedir"
  const GCM_DATA_PATH: string := "/store/c2sm/c2sme/reanalyses_dkrz/ERAInterim"
  const INIDATA_PATH: string := "/scratch/snx3000/mjaehn/sandbox_workflow/spice/chain/work/sp001/inidata"
  const INIBASEDIR_PATH: string := "/scratch/snx3000/mjaehn/sandbox_workflow/spice/data/rcm/"
  const COMPUTER: string := "Daint"

  /** A remote data node. */
  datatype DataNode = DataNode(nodeLabel: string, remotePath: string, description: string, computer: string)

  /** The stored nodes, their pk being their position, and the members of
      the "spice-exp" group, when that group exists. */
  datatype Db = Db(nodes: seq<DataNode>, group: Option<set<nat>>)

  datatype DataError =
    | GroupNotExistent                 // `orm.load_group` finds no group
    | DatabaseAmbiguity(message: string)
    | AttributeError(name: string)     // an attribute read on a value without it

  /** The pks the query finds from `from` on: group members with the label,
      in pk order. */
  function CandidatesFrom(db: Db, labelName: string, from: nat): (ids: seq<nat>)
    ensures forall k :: 0 <= k < |ids| ==> from <= ids[k] < |db.nodes|
    ensures forall k, l :: 0 <= k < l < |ids| ==> ids[k] < ids[l]
    ensures forall id :: id in ids <==>
      from <= id < |db.nodes| && db.group.Some? && id in db.group.value && db.nodes[id].nodeLabel == labelName
    decreases |db.nodes| - from
  {
    if from >= |db.nodes| then []
    else
      var rest := CandidatesFrom(db, labelName, from + 1);
      if db.group.Some? && from in db.group.value && db.nodes[from].nodeLabel == labelName then [from] + rest else rest
  }

  /** The query: the remote data nodes with the label in the group. */
  function Candidates(db: Db, labelName: string): (ids: seq<nat>)
    ensures forall id :: id in ids <==>
      id < |db.nodes| && db.group.Some? && id in db.group.value && db.nodes[id].nodeLabel == labelName
  {
    CandidatesFrom(db, labelName, 0)
  }

  /** `[c.pk for c in query.all()]` as Python prints a list. */
  function ShowPks(ids: seq<nat>): string {
    "[" + Join(seq(|ids|, k requires 0 <= k < |ids| => NatToString(ids[k])), ", ") + "]"
  }

  const AMBIGUITY_HEAD: string := "Multiple remote data nodes found with the " + GCM_DATA_LABEL + " label. PKs: "

  function AmbiguityMessage(ids: seq<nat>): string {
    AMBIGUITY_HEAD + ShowPks(ids) + ". Please relable all but one."
  }

  /** `get_data(label, initializer)`, with the node the initializer makes:
      none found, it is stored and added to the group (storing happens
      before the group is loaded, so without the group the node stays
      stored); several found, the ambiguity error listing their pks; one
      found, that one.  The several-found branch is the one the code
      means: as written it fails earlier (GetDataAsWritten). */
  function GetDataOn(db: Db, labelName: string, init: DataNode): (res: (Result<nat, DataError>, Db))
    ensures var (r, after) := res; var cands := Candidates(db, labelName);
      && (r.Success? ==> r.value < |after.nodes| && after.group.Some? && r.value in after.group.value)
      && (r.Success? ==> (r.value in cands && |cands| == 1) || (cands == [] && r.value == |db.nodes| && after.nodes[r.value] == init))
      && (r == Failure(GroupNotExistent) <==> db.group.None?)
      && (r.Failure? && r.error.DatabaseAmbiguity? <==> |cands| > 1)
      && (|cands| >= 1 ==> after == db)
      && (cands == [] ==> after.nodes == db.nodes + [init])
  {
    var cands := Candidates(db, labelName);
    assert |cands| >= 1 ==> cands[0] in cands;
    if |cands| < 1 then
      var id := |db.nodes|;
      var stored := db.nodes + [init];
      match db.group
      case None => (Failure(GroupNotExistent), Db(stored, None))
      case Some(members) => (Success(id), Db(stored, Some(members + {id})))
    else if |cands| > 1 then (Failure(DatabaseAmbiguity(AmbiguityMessage(cands))), db)
    else (Success(cands[0]), db)
  }

  /** Every group member is a stored node. */
  predicate Consistent(db: Db) {
    db.group.Some? ==> forall id :: id in db.group.value ==> id < |db.nodes|
  }

  /** `get_data` keeps the group's members stored nodes, never changes a
      stored node, and only ever appends one. */
  lemma GetDataKeeps(db: Db, labelName: string, init: DataNode)
    requires Consistent(db)
    ensures Consistent(GetDataOn(db, labelName, init).1)
    ensures var after := GetDataOn(db, labelName, init).1;
      |db.nodes| <= |after.nodes| <= |db.nodes| + 1 && after.nodes[..|db.nodes|] == db.nodes
  {
    var after := GetDataOn(db, labelName, init).1;
    assert after == db || after.nodes == db.nodes + [init];
    assert after.nodes[..|db.nodes|] == db.nodes;
  }

  /** Asking again for a label just created finds the new node and changes
      nothing: the getters return the same node every time. */
  lemma GetDataIdempotent(db: Db, labelName: string, init: DataNode)
    requires init.nodeLabel == labelName && db.group.Some? && |Candidates(db, labelName)| == 0
    ensures var (r1, db1) := GetDataOn(db, labelName, init);
      r1 == Success(|db.nodes|) && db1.nodes[|db.nodes|] == init && GetDataOn(db1, labelName, init) == (r1, db1)
  {
    CandidatesAfterStore(db, labelName, init, 0);
  }

  /** Storing a node and adding it to the group adds its pk at the end of
      the candidates when it has the label, and nothing otherwise. */
  lemma {:induction false} CandidatesAfterStore(db: Db, labelName: string, init: DataNode, from: nat)
    requires db.group.Some? && from <= |db.nodes|
    ensures var db1 := Db(db.nodes + [init], Some(db.group.value + {|db.nodes|}));
      CandidatesFrom(db1, labelName, from)
        == CandidatesFrom(db, labelName, from) + (if init.nodeLabel == labelName then [|db.nodes|] else [])
    decreases |db.nodes| - from
  {
    if from < |db.nodes| {
      CandidatesAfterStore(db, labelName, init, from + 1);
      CandidatesStoreStep(db, labelName, init, from);
    } else {
      var db1 := Db(db.nodes + [init], Some(db.group.value + {|db.nodes|}));
      assert CandidatesFrom(db1, labelName, from + 1) == [];
    }
  }

  /** The step of the induction: what holds from `from + 1` on holds from
      `from` on, as the stored node is not at `from`. */
  lemma CandidatesStoreStep(db: Db, labelName: string, init: DataNode, from: nat)
    requires db.group.Some? && from < |db.nodes|
    requires var db1 := Db(db.nodes + [init], Some(db.group.value + {|db.nodes|}));
      CandidatesFrom(db1, labelName, from + 1)
        == CandidatesFrom(db, labelName, from + 1) + (if init.nodeLabel == labelName then [|db.nodes|] else [])
    ensures var db1 := Db(db.nodes + [init], Some(db.group.value + {|db.nodes|}));
      CandidatesFrom(db1, labelName, from)
        == CandidatesFrom(db, labelName, from) + (if init.nodeLabel == labelName then [|db.nodes|] else [])
  {
    var db1 := Db(db.nodes + [init], Some(db.group.value + {|db.nodes|}));
    var extra := if init.nodeLabel == labelName then [|db.nodes|] else [];
    var here := from in db.group.value && db.nodes[from].nodeLabel == labelName;
    assert here == (from in db1.group.value && db1.nodes[from].nodeLabel == labelName) by {
      assert db1.nodes[from] == db.nodes[from];
    }
    var rest := CandidatesFrom(db, labelName, from + 1);
    var rest1 := CandidatesFrom(db1, labelName, from + 1);
    assert rest1 == rest + extra;
    if here {
      assert CandidatesFrom(db, labelName, from) == [from] + rest;
      assert CandidatesFrom(db1, labelName, from) == [from] + rest1;
      ConsAppend(from, rest, extra);
    } else {
      assert CandidatesFrom(db, labelName, from) == rest;
      assert CandidatesFrom(db1, labelName, from) == rest1;
    }
  }

  /** With several candidates the error message names the gcm_data label,
      whichever label was asked for, and lists their pks. */
  lemma AmbiguityNamesGcmData(db: Db, labelName: string, init: DataNode)
    requires |Candidates(db, labelName)| > 1
    ensures var r := GetDataOn(db, labelName, init).0;
      && r.Failure? && r.error.DatabaseAmbiguity?
      && StartsWith(r.error.message, AMBIGUITY_HEAD + "[")
  {
    var pks := ShowPks(Candidates(db, labelName));
    var m := AmbiguityMessage(Candidates(db, labelName));
    assert pks[..1] == "[";
    assert m[..|AMBIGUITY_HEAD| + 1] == AMBIGUITY_HEAD + pks[..1];
  }

  /** A row of `query.all()`: the list of the entities the query
      projects, here the one remote data node. */
  function QueryAll(db: Db, labelName: string): (rows: seq<seq<nat>>)
    ensures |rows| == |Candidates(db, labelName)|
    ensures forall k :: 0 <= k < |rows| ==> |rows[k]| == 1 && rows[k][0] == Candidates(db, labelName)[k]
  {
    var cands := Candidates(db, labelName);
    seq(|cands|, k requires 0 <= k < |cands| => [cands[k]])
  }

  /** `[c.pk for c in rows]`: every `c` is a row, a list, which has no
      `pk`, so the first row raises. */
  function PksOfRows(rows: seq<seq<nat>>): (r: Result<seq<nat>, DataError>)
    ensures r.Success? <==> rows == []
    ensures r.Failure? ==> r.error == AttributeError("pk")
  {
    if rows == [] then Success([]) else Failure(AttributeError("pk"))
  }

  /** `get_data` as data.py writes it: with several candidates the message
      reads `c.pk` for each row `c` of `query.all()`; elsewhere it is
      GetDataOn. */
  function GetDataAsWritten(db: Db, labelName: string, init: DataNode): (res: (Result<nat, DataError>, Db))
    ensures |Candidates(db, labelName)| <= 1 ==> res == GetDataOn(db, labelName, init)
    ensures |Candidates(db, labelName)| > 1 ==> res == (Failure(AttributeError("pk")), db)
  {
    if |Candidates(db, labelName)| > 1 then
      match PksOfRows(QueryAll(db, labelName))
      case Failure(e) => (Failure(e), db)
      case Success(pks) => (Failure(DatabaseAmbiguity(AmbiguityMessage(pks))), db)
    else GetDataOn(db, labelName, init)
  }

  /** As written, the ambiguity error is never raised: two `gcm_data`
      nodes in the group make `get_gcm_data` fail on `c.pk` instead, where
      the intended `get_data` reports the ambiguity. */
  lemma AmbiguityAsWritten()
    ensures var db := Db([GcmDataNode(), GcmDataNode()], Some({0, 1}));
      && Candidates(db, GCM_DATA_LABEL) == [0, 1]
      && GetDataAsWritten(db, GCM_DATA_LABEL, GcmDataNode()).0 == Failure(AttributeError("pk"))
      && GetDataOn(db, GCM_DATA_LABEL, GcmDataNode()).0.Failure?
      && GetDataOn(db, GCM_DATA_LABEL, GcmDataNode()).0.error.DatabaseAmbiguity?
  {
    var db := Db([GcmDataNode(), GcmDataNode()], Some({0, 1}));
    assert CandidatesFrom(db, GCM_DATA_LABEL, 2) == [];
    assert CandidatesFrom(db, GCM_DATA_LABEL, 1) == [1];
    assert CandidatesFrom(db, GCM_DATA_LABEL, 0) == [0, 1];
  }

  /** The node each initializer creates. */
  function GcmDataNode(): DataNode {
    DataNode(GCM_DATA_LABEL, GCM_DATA_PATH, "Initial boundary data.", COMPUTER)
  }

  function InidataNode(): DataNode {
    DataNode(INIDATA_LABEL, INIDATA_PATH, "Some initial data.", COMPUTER)
  }

  function InibasedirNode(): DataNode {
    DataNode(INIBASEDIR_LABEL, INIBASEDIR_PATH, "Some initial data.", COMPUTER)
  }

  /** The database, updated in place by the three getters. */
  class Registry {
    var db: Db

    constructor (initial: Db)
      ensures db == initial
    {
      db := initial;
    }

    method GetData(labelName: string, init: DataNode) returns (r: Result<nat, DataError>)
      modifies this
      ensures (r, db) == GetDataOn(old(db), labelName, init)
    {
      var res := GetDataOn(db, labelName, init);
      r := res.0;
      db := res.1;
    }

    /** `get_gcm_data()`. */
    method GetGcmData() returns (r: Result<nat, DataError>)
      modifies this
      ensures (r, db) == GetDataOn(old(db), GCM_DATA_LABEL, GcmDataNode())
    {
      r := GetData(GCM_DATA_LABEL, GcmDataNode());
    }

    /** `get_inidata()`. */
    method GetInidata() returns (r: Result<nat, DataError>)
      modifies this
      ensures (r, db) == GetDataOn(old(db), INIDATA_LABEL, InidataNode())
    {
      r := GetData(INIDATA_LABEL, InidataNode());
    }

    /** `get_inibasedir()`. */
    method GetInibasedir() returns (r: Result<nat, DataError>)
      modifies this
      ensures (r, db) == GetDataOn(old(db), INIBASEDIR_LABEL, InibasedirNode())
    {
      r := GetData(INIBASEDIR_LABEL, InibasedirNode());
    }
  }
}
