/** The ICON job (`Icon`): it creates the ten output folders, links the
    month's converted data, the boundary data, the grids, the external
    parameters, the lateral-boundary dictionary, the radiation data, the
    initial file and, when it continues a run, the previous restart file,
    and copies the two namelists.  Its parser publishes the first file of
    the job folder that looks like a restart file. */
module Icon {
  import opened Wrappers
  import opened Text
  import opened Calc
  import opened Paths

  const LATBC_NAME: string := "dict.latbc"
  const MASTER_NAMELIST: string := "icon_master.namelist"
  const MULTIFILE_LINK: string := "multifile_restart_atm.mfr"
  const SINGLE_LINK: string := "restart_atm_DOM01.nc"

  /** A code node: its uuid and the uuid of its computer. */
  datatype Code = Code(uuid: string, computer: string)

  /** A `SinglefileData` node: its uuid and its file name. */
  datatype SingleFile = SingleFile(uuid: string, filename: string)

  /** The inputs of the job; the two restart inputs are optional. */
  datatype Inputs = Inputs(
    code: Code,
    expid: string,
    ifs2iconFilename: string,
    gcmConverted: Remote,
    boundaryData: Remote,
    inidata: Remote,
    iniBasedir: Remote,
    restartFileDir: Option<Remote>,
    restartFileName: Option<string>,
    masterNamelist: SingleFile,
    modelNamelist: SingleFile,
    lamGridRelpath: string,
    parentGridRelpath: string,
    extparRelpath: string,
    ghgFileRelpath: string,
    ecraddir: Remote)

  /** A restart directory without a restart file name: reading the missing
      input raises an `AttributeError`. */
  datatype IconError = MissingRestartFileName

  // ---- the job folder ----

  /** `f"out{outnum:02}"`. */
  function OutDir(k: int): string {
    "out" + Format02(k)
  }

  function OutDirs(): set<string> {
    set k | 1 <= k <= 10 :: OutDir(k)
  }

  /** The ten output folder names are five characters long, pairwise
      different, and their last two characters read back as their number. */
  lemma OutDirNames()
    ensures forall k :: 1 <= k <= 10 ==> |OutDir(k)| == 5 && DigitsValue(OutDir(k)[3..]) == k
    ensures forall j, k :: 1 <= j <= 10 && 1 <= k <= 10 && OutDir(j) == OutDir(k) ==> j == k
  {
    forall k | 1 <= k <= 10
      ensures |OutDir(k)| == 5 && DigitsValue(OutDir(k)[3..]) == k
    {
      assert Pow10(2) == 100;
      ZeroPaddedRoundTrip(k, 2);
      assert OutDir(k)[3..] == ZeroPadded(k, 2);
    }
    forall j, k | 1 <= j <= 10 && 1 <= k <= 10 && OutDir(j) == OutDir(k)
      ensures j == k
    {
      assert OutDir(j)[3..] == OutDir(k)[3..];
    }
  }

  /** The sandbox folder of the job, as far as its subfolders go. */
  class Folder {
    var subfolders: set<string>

    constructor ()
      ensures subfolders == {}
    {
      subfolders := {};
    }

    /** `folder.get_subfolder(name, create=True)`: the subfolder exists
        afterwards, whether or not it did before. */
    method GetSubfolder(name: string)
      modifies this
      ensures subfolders == old(subfolders) + {name}
    {
      subfolders := subfolders + {name};
    }
  }

  /** The loop over `range(1, 11)` at the start of `prepare_for_submission`. */
  method MakeOutDirs(folder: Folder)
    modifies folder
    ensures folder.subfolders == old(folder.subfolders) + OutDirs()
  {
    for outnum := 1 to 11
      invariant folder.subfolders == old(folder.subfolders) + (set k | 1 <= k < outnum :: OutDir(k))
    {
      folder.GetSubfolder(OutDir(outnum));
      assert (set k | 1 <= k < outnum + 1 :: OutDir(k)) == (set k | 1 <= k < outnum :: OutDir(k)) + {OutDir(outnum)};
    }
  }

  // ---- the CalcInfo ----

  /** `str(ini_basedir_path / rel)`. */
  function IniFile(iniBasedir: string, rel: string): string {
    ToString(Div(FromString(iniBasedir), rel))
  }

  /** Links on one computer, from `(source, name)` pairs. */
  function OnComputer(computer: string, pairs: seq<(string, string)>): (links: seq<RemoteEntry>)
    ensures |links| == |pairs|
    ensures forall k :: 0 <= k < |pairs| ==> links[k] == RemoteEntry(computer, pairs[k].0, pairs[k].1)
  {
    if pairs == [] then [] else [RemoteEntry(computer, pairs[0].0, pairs[0].1)] + OnComputer(computer, pairs[1..])
  }

  /** `(source, pathlib.Path(source).name)`. */
  function ByName(source: string): (string, string) {
    (source, Name(FromString(source)))
  }

  /** The eight links every ICON job makes, all on the code's computer. */
  function BaseLinks(inp: Inputs): (links: seq<RemoteEntry>)
    ensures |links| == 8 && forall k :: 0 <= k < 8 ==> links[k].computer == inp.code.computer
  {
    var ini := inp.iniBasedir.path;
    var latbc := Child(FromString(ini), LATBC_NAME);
    OnComputer(inp.code.computer,
      [ (inp.gcmConverted.path, "gcm_converted"),
        (inp.boundaryData.path, "boundary_data"),
        ByName(IniFile(ini, inp.parentGridRelpath)),
        ByName(IniFile(ini, inp.lamGridRelpath)),
        ByName(IniFile(ini, inp.extparRelpath)),
        (ToString(latbc), Name(latbc)),
        ByName(inp.ecraddir.path),
        (ToString(Div(FromString(inp.inidata.path), inp.ifs2iconFilename)), inp.ifs2iconFilename) ])
  }

  /** The name of the restart link: the multi-file name for a file name
      starting with "multifile", the single-file name otherwise. */
  function RestartLinkName(fileName: string): (t: string)
    ensures t == MULTIFILE_LINK <==> StartsWith(fileName, "multifile")
    ensures t == SINGLE_LINK <==> !StartsWith(fileName, "multifile")
  {
    if StartsWith(fileName, "multifile") then MULTIFILE_LINK else SINGLE_LINK
  }

  /** The restart link, present when a restart directory is given. */
  function RestartLinks(inp: Inputs): (r: Result<seq<RemoteEntry>, IconError>)
    ensures r.Failure? <==> inp.restartFileDir.Some? && inp.restartFileName.None?
    ensures r.Success? ==> |r.value| == (if inp.restartFileDir.Some? then 1 else 0)
    ensures r.Success? ==> forall k :: 0 <= k < |r.value| ==> r.value[k].computer == inp.code.computer
  {
    match inp.restartFileDir
    case None => Success([])
    case Some(dir) =>
      match inp.restartFileName
      case None => Failure(MissingRestartFileName)
      case Some(fileName) => Success([RestartEntry(inp.code.computer, dir.path, fileName)])
  }

  /** The link to the restart file `file_name` in the directory `dir`. */
  function RestartEntry(computer: string, dir: string, fileName: string): (e: RemoteEntry)
    ensures e.computer == computer
  {
    RemoteEntry(computer, ToString(Div(FromString(dir), fileName)), RestartLinkName(fileName))
  }

  /** `remote_symlink_list`: the eight links, then the restart file when a
      restart directory is given. */
  function Symlinks(inp: Inputs): (r: Result<seq<RemoteEntry>, IconError>)
    ensures r.Failure? <==> inp.restartFileDir.Some? && inp.restartFileName.None?
    ensures r.Success? ==> |r.value| == (if inp.restartFileDir.Some? then 9 else 8) && r.value[..8] == BaseLinks(inp)
    ensures r.Success? ==> forall k :: 0 <= k < |r.value| ==> r.value[k].computer == inp.code.computer
  {
    var extra :- RestartLinks(inp);
    var base := BaseLinks(inp);
    assert (base + extra)[..8] == base;
    Success(base + extra)
  }

  /** `local_copy_list`: the two namelists, the model namelist named after
      the experiment. */
  function LocalCopies(inp: Inputs): (copies: seq<LocalEntry>)
    ensures |copies| == 2
    ensures copies[0].node == inp.masterNamelist.uuid && copies[0].target == MASTER_NAMELIST
    ensures copies[1].node == inp.modelNamelist.uuid && copies[1].target == "NAMELIST_" + inp.expid
  {
    [ LocalEntry(inp.masterNamelist.uuid, inp.masterNamelist.filename, MASTER_NAMELIST),
      LocalEntry(inp.modelNamelist.uuid, inp.modelNamelist.filename, "NAMELIST_" + inp.expid) ]
  }

  /** The `CalcInfo` of `Icon.prepare_for_submission`: no file is written,
      the one code is the job's code, and every link is on the code's
      computer.  It fails exactly when a restart directory comes without a
      restart file name; a file name without a directory is ignored. */
  function Submission(inp: Inputs): (r: Result<CalcInfo, IconError>)
    ensures r.Failure? <==> inp.restartFileDir.Some? && inp.restartFileName.None?
    ensures r.Success? ==> r.value.codes == [inp.code.uuid] && r.value.files == map[] && r.value.copies == []
    ensures r.Success? ==> |r.value.symlinks| == (if inp.restartFileDir.Some? then 9 else 8)
    ensures r.Success? ==> r.value.symlinks[..8] == BaseLinks(inp)
    ensures r.Success? ==> forall k :: 0 <= k < |r.value.symlinks| ==> r.value.symlinks[k].computer == inp.code.computer
    ensures r.Success? ==> r.value.localCopies == LocalCopies(inp)
  {
    var links :- Symlinks(inp);
    Success(CalcInfo([inp.code.uuid], map[], links, [], LocalCopies(inp)))
  }

  /** `Icon.prepare_for_submission`: the output folders are created first,
      so they exist even when the missing restart file name makes the
      preparation fail. */
  method PrepareForSubmission(folder: Folder, inp: Inputs) returns (r: Result<CalcInfo, IconError>)
    modifies folder
    ensures folder.subfolders == old(folder.subfolders) + OutDirs()
    ensures r == Submission(inp)
  {
    MakeOutDirs(folder);
    r := Submission(inp);
  }

  /** The fixed links come first, in this order, named "gcm_converted",
      "boundary_data", the last components of the parent grid, grid and
      external-parameter paths, "dict.latbc" and the last component of the
      radiation directory; the initial file keeps its given name. */
  lemma LinkTargets(inp: Inputs)
    ensures var l := BaseLinks(inp);
      && l[0] == RemoteEntry(inp.code.computer, inp.gcmConverted.path, "gcm_converted")
      && l[1] == RemoteEntry(inp.code.computer, inp.boundaryData.path, "boundary_data")
      && l[2].source == IniFile(inp.iniBasedir.path, inp.parentGridRelpath)
      && l[2].target == Name(Div(FromString(inp.iniBasedir.path), inp.parentGridRelpath))
      && l[3].target == Name(Div(FromString(inp.iniBasedir.path), inp.lamGridRelpath))
      && l[4].target == Name(Div(FromString(inp.iniBasedir.path), inp.extparRelpath))
      && l[5].target == LATBC_NAME
      && l[6].source == inp.ecraddir.path && l[6].target == Name(FromString(inp.ecraddir.path))
      && l[7].target == inp.ifs2iconFilename
  {
    var ini := inp.iniBasedir.path;
    IniByName(ini, inp.parentGridRelpath);
    IniByName(ini, inp.lamGridRelpath);
    IniByName(ini, inp.extparRelpath);
  }

  lemma IniByName(ini: string, rel: string)
    ensures ByName(IniFile(ini, rel)).1 == Name(Div(FromString(ini), rel))
  {
    ToStringRoundTrip(Div(FromString(ini), rel));
  }

  /** A link to a file under the base directory is named by the last
      component of the relative path, as long as that path has one; an
      absolute relative path is used as it stands. */
  lemma IniLinkName(iniBasedir: string, rel: string)
    requires FromString(rel).parts != []
    ensures ByName(IniFile(iniBasedir, rel)).1 == Name(FromString(rel))
    ensures FromString(rel).absolute ==> IniFile(iniBasedir, rel) == ToString(FromString(rel))
  {
    var joined := Div(FromString(iniBasedir), rel);
    ToStringRoundTrip(joined);
    DivName(FromString(iniBasedir), rel);
  }

  /** When a run continues, the ninth link points at the restart file in
      its directory, under the name the restart namelist expects. */
  lemma RestartLink(inp: Inputs, dir: Remote, fileName: string)
    requires inp.restartFileDir == Some(dir) && inp.restartFileName == Some(fileName)
    ensures Submission(inp).Success?
    ensures var l := Submission(inp).value.symlinks;
      && l[8].source == ToString(Div(FromString(dir.path), fileName))
      && (l[8].target == MULTIFILE_LINK <==> StartsWith(fileName, "multifile"))
      && (l[8].target == SINGLE_LINK <==> !StartsWith(fileName, "multifile"))
  {
  }

  // ---- the parser ----

  const RESTART_MARK: string := "_restart_atm_"
  const MULTI_MARK: string := "multifile_restart_atm_"
  const NC: string := ".nc"
  const MFR: string := "mfr"

  /** `w` occurs in `s` at index `i`. */
  predicate At(s: string, i: nat, w: string) {
    i + |w| <= |s| && s[i..i + |w|] == w
  }

  /** `_restart_atm_\d{8}T` at index `i`, with `\d` read as the ASCII
      digits '0' to '9'. */
  predicate Stamp(s: string, i: nat) {
    i + 22 <= |s| && At(s, i, RESTART_MARK) && AllDigits(s[i + 13..i + 21]) && s[i + 21] == 'T'
  }

  /** `multifile_restart_atm_\d{8}T` at the start. */
  predicate MultiStamp(s: string) {
    31 <= |s| && At(s, 0, MULTI_MARK) && AllDigits(s[22..30]) && s[30] == 'T'
  }

  /** `re.match(r".*_restart_atm_\d{8}T.*\.nc", name)` with the stamp at `i`
      and ".nc" at `j`: `.` matches anything but a newline, and the match
      need not reach the end of the name. */
  predicate RestartMatchAt(name: string, i: nat, j: nat) {
    i + 22 <= j && j + 3 <= |name| && NoNewline(name[..j]) && Stamp(name, i) && At(name, j, NC)
  }

  ghost predicate RestartPattern(name: string) {
    exists i: nat, j: nat :: RestartMatchAt(name, i, j)
  }

  /** `re.match(r"multifile_restart_atm_\d{8}T.*.mfr", name)` with the
      unescaped `.` at `j`. */
  predicate MultiMatchAt(name: string, j: nat) {
    31 <= j && j + 4 <= |name| && NoNewline(name[..j + 1]) && MultiStamp(name) && At(name, j + 1, MFR)
  }

  ghost predicate MultiPattern(name: string) {
    exists j: nat :: MultiMatchAt(name, j)
  }

  ghost predicate RestartFilePattern(name: string) {
    RestartPattern(name) || MultiPattern(name)
  }

  /** Where the first line of `s` ends. */
  function LineEnd(s: string): (n: nat)
    ensures n <= |s| && NoNewline(s[..n]) && (n < |s| ==> s[n] == '\n')
  {
    if '\n' in s then FirstIndexOf(s, '\n') else assert s[..|s|] == s; |s|
  }

  /** The first stamp at or after `i`. */
  function FirstStamp(s: string, i: nat): (r: Option<nat>)
    ensures r.Some? ==> i <= r.value && Stamp(s, r.value) && forall k :: i <= k < r.value ==> !Stamp(s, k)
    ensures r.None? ==> forall k :: i <= k ==> !Stamp(s, k)
    decreases |s| - i
  {
    if i + 22 > |s| then None
    else if Stamp(s, i) then Some(i)
    else FirstStamp(s, i + 1)
  }

  /** Whether `w` occurs in `s` at or after `j`. */
  function HasAt(s: string, j: nat, w: string): (b: bool)
    ensures b <==> exists k: nat :: j <= k && At(s, k, w)
    decreases |s| - j
  {
    if j + |w| > |s| then false
    else At(s, j, w) || HasAt(s, j + 1, w)
  }

  /** The matcher for the single-file pattern: the first stamp on the first
      line, then ".nc" somewhere after it on that line. */
  function MatchesRestart(name: string): bool {
    var s := name[..LineEnd(name)];
    match FirstStamp(s, 0)
    case None => false
    case Some(i) => HasAt(s, i + 22, NC)
  }

  /** The matcher for the multi-file pattern. */
  function MatchesMulti(name: string): bool {
    var s := name[..LineEnd(name)];
    MultiStamp(s) && HasAt(s, 32, MFR)
  }

  function IsRestartFile(name: string): bool {
    MatchesRestart(name) || MatchesMulti(name)
  }

  lemma PrefixNoNewline(s: string, j: nat)
    requires j <= |s|
    ensures NoNewline(s[..j]) <==> j <= LineEnd(s)
  {
    var n := LineEnd(s);
    if j <= n {
      forall k | 0 <= k < j
        ensures s[..j][k] != '\n'
      {
        assert s[..j][k] == s[..n][k];
        assert s[..n][k] in s[..n];
      }
    } else {
      assert s[..j][n] == '\n';
    }
  }

  /** A newline-free word that starts on the first line ends on it. */
  lemma AtWithinLine(s: string, j: nat, w: string)
    requires At(s, j, w) && NoNewline(w) && j <= LineEnd(s)
    ensures j + |w| <= LineEnd(s)
  {
    forall k | j <= k < j + |w|
      ensures s[k] != '\n'
    {
      assert s[k] == s[j..j + |w|][k - j] == w[k - j];
      assert w[k - j] in w;
    }
  }

  lemma SlicePrefix(s: string, n: nat, a: nat, b: nat)
    requires a <= b <= n <= |s|
    ensures s[..n][a..b] == s[a..b]
  {
  }

  lemma StampPrefix(s: string, n: nat, i: nat)
    requires i + 22 <= n <= |s|
    ensures Stamp(s[..n], i) <==> Stamp(s, i)
  {
    SlicePrefix(s, n, i, i + 13);
    SlicePrefix(s, n, i + 13, i + 21);
  }

  lemma MultiStampPrefix(s: string, n: nat)
    requires 31 <= n <= |s|
    ensures MultiStamp(s[..n]) <==> MultiStamp(s)
  {
    SlicePrefix(s, n, 0, 22);
    SlicePrefix(s, n, 22, 30);
  }

  /** The single-file matcher accepts exactly the names the pattern
      matches. */
  lemma RestartMatcher(name: string)
    ensures MatchesRestart(name) <==> RestartPattern(name)
  {
    var n := LineEnd(name);
    var s := name[..n];
    assert |NC| == 3 && NoNewline(NC);
    if MatchesRestart(name) {
      var i := FirstStamp(s, 0).value;
      var j: nat :| i + 22 <= j && At(s, j, NC);
      StampPrefix(name, n, i);
      SlicePrefix(name, n, j, j + 3);
      PrefixNoNewline(name, j);
      assert RestartMatchAt(name, i, j);
    }
    if RestartPattern(name) {
      var i: nat, j: nat :| RestartMatchAt(name, i, j);
      PrefixNoNewline(name, j);
      AtWithinLine(name, j, NC);
      StampPrefix(name, n, i);
      SlicePrefix(name, n, j, j + 3);
      assert Stamp(s, i) && At(s, j, NC);
      var i0 := FirstStamp(s, 0).value;
      assert i0 <= i;
      assert HasAt(s, i0 + 22, NC);
    }
  }

  /** The multi-file matcher accepts exactly the names the pattern
      matches. */
  lemma MultiMatcher(name: string)
    ensures MatchesMulti(name) <==> MultiPattern(name)
  {
    var n := LineEnd(name);
    var s := name[..n];
    assert |MFR| == 3 && NoNewline(MFR);
    if MatchesMulti(name) {
      var k: nat :| 32 <= k && At(s, k, MFR);
      MultiStampPrefix(name, n);
      SlicePrefix(name, n, k, k + 3);
      PrefixNoNewline(name, k);
      assert MultiMatchAt(name, k - 1);
    }
    if MultiPattern(name) {
      var j: nat :| MultiMatchAt(name, j);
      PrefixNoNewline(name, j + 1);
      AtWithinLine(name, j + 1, MFR);
      MultiStampPrefix(name, n);
      SlicePrefix(name, n, j + 1, j + 4);
      assert MultiStamp(s) && At(s, j + 1, MFR);
    }
  }

  lemma RestartFileMatcher(name: string)
    ensures IsRestartFile(name) <==> RestartFilePattern(name)
  {
    RestartMatcher(name);
    MultiMatcher(name);
  }

  /** A file the multi-file pattern matches is linked under the multi-file
      name when the next month restarts from it. */
  lemma MultiRestartLinkName(name: string)
    requires MultiPattern(name)
    ensures RestartLinkName(name) == MULTIFILE_LINK
  {
    var j: nat :| MultiMatchAt(name, j);
    assert name[..9] == name[..22][..9];
  }

  /** What `IconParser.parse` attaches: the restart file name and a clone of
      the job's remote folder, or nothing. */
  datatype IconParsed = IconParsed(exitCode: int, restartFileName: Option<string>, restartFileDir: Option<Remote>)

  /** `IconParser.parse` over the names `listdir` returns, in that order:
      the first name either pattern matches is the restart file, and the
      remote folder is the restart directory; without one, exit code 300
      and no outputs. */
  method Parse(remote: Remote, files: seq<string>) returns (r: IconParsed)
    ensures r.exitCode == 0 || r.exitCode == ERROR_MISSING_OUTPUT_FILES
    ensures r.exitCode == 0 <==> exists k :: 0 <= k < |files| && RestartFilePattern(files[k])
    ensures r.exitCode == 0 ==> exists k :: 0 <= k < |files| && RestartFilePattern(files[k]) && r.restartFileName == Some(files[k])
                                        && forall k' :: 0 <= k' < k ==> !RestartFilePattern(files[k'])
    ensures r.exitCode == 0 ==> r.restartFileDir == Some(remote)
    ensures r.exitCode != 0 ==> r.restartFileName.None? && r.restartFileDir.None?
  {
    for i := 0 to |files|
      invariant forall k :: 0 <= k < i ==> !RestartFilePattern(files[k])
    {
      RestartFileMatcher(files[i]);
      if IsRestartFile(files[i]) {
        return IconParsed(0, Some(files[i]), Some(remote));
      }
    }
    return IconParsed(ERROR_MISSING_OUTPUT_FILES, None, None);
  }
}
