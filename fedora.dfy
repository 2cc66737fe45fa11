/**
 * fedora/kpkg.py: the Fedora helper, run from inside the kernel source tree. `build` reads
 * the base version from the kernel Makefile, runs rpmbuild with the version, release and
 * signing options in the environment, and collects the rpms of every architecture into
 * out/; `p clean` removes the rpmbuild tree. The script's directory (DIR_BASE) is the
 * parameter `base`; the resolved working directory (DIR_KERNEL_SOURCE) is `cwd`.
 */
module FedoraKpkg {
  import opened Wrappers
  import opened Seqs
  import opened Text
  import opened Process
  import opened FileSystem

  // ---------------------------------------------------------------------------------------
  // The base version in the kernel Makefile
  // ---------------------------------------------------------------------------------------

  /** The three Makefile variables that make up the base version. */
  datatype Level = Version | PatchLevel | SubLevel

  /** No line starts with two of the three names: their first letters differ. */
  lemma {:induction false} LevelNamesExclusive(line: string)
    ensures !(StartsWith(line, "VERSION") && StartsWith(line, "PATCHLEVEL"))
    ensures !(StartsWith(line, "VERSION") && StartsWith(line, "SUBLEVEL"))
    ensures !(StartsWith(line, "PATCHLEVEL") && StartsWith(line, "SUBLEVEL"))
  {
    if |line| > 0 {
      assert StartsWith(line, "VERSION") ==> line[0] == 'V';
      assert StartsWith(line, "PATCHLEVEL") ==> line[0] == 'P';
      assert StartsWith(line, "SUBLEVEL") ==> line[0] == 'S';
    }
  }

  /** The level a stripped line sets, by its leading word. */
  function LevelOf(line: string): (r: Option<Level>)
    ensures r == Some(Version) <==> StartsWith(line, "VERSION")
    ensures r == Some(PatchLevel) <==> StartsWith(line, "PATCHLEVEL")
    ensures r == Some(SubLevel) <==> StartsWith(line, "SUBLEVEL")
  {
    LevelNamesExclusive(line);
    if StartsWith(line, "VERSION") then Some(Version)
    else if StartsWith(line, "PATCHLEVEL") then Some(PatchLevel)
    else if StartsWith(line, "SUBLEVEL") then Some(SubLevel)
    else None
  }

  /** `line.split("=")[1].strip()`: the stripped text between the first and the second '=',
      or nothing when the line has no '=' (Python raises IndexError then). */
  function ValueOf(line: string): (r: Option<string>)
    ensures r.None? <==> '=' !in line
    ensures r.Some? ==> '=' !in r.value && (r.value == [] || !IsSpace(r.value[0]))
  {
    match SplitSecond(line, '=')
    case None => None
    case Some(v) => Some(Strip(v))
  }

  /** Every line stripped, as get_base_version strips each line it reads. */
  function StripAll(lines: seq<string>): (r: seq<string>)
    ensures |r| == |lines|
    ensures forall i :: 0 <= i < |lines| ==> r[i] == Strip(lines[i])
  {
    Map(Strip, lines)
  }

  // The functions below read stripped lines.

  /** The last line of p that sets the level. */
  function LastSetting(p: seq<string>, level: Level): (r: Option<string>)
    ensures r.Some? ==> LevelOf(r.value) == Some(level) && r.value in p
    decreases |p|
  {
    if p == [] then None
    else if LevelOf(p[|p| - 1]) == Some(level) then Some(p[|p| - 1])
    else
      var r := LastSetting(p[..|p| - 1], level);
      assert r.Some? ==> r.value in p by {
        if r.Some? {
          var i :| 0 <= i < |p| - 1 && p[..|p| - 1][i] == r.value;
          assert p[i] == r.value;
        }
      }
      r
  }

  /** The value the level holds after reading p; none when no line of p sets it. */
  function Setting(p: seq<string>, level: Level): Option<string> {
    match LastSetting(p, level)
    case None => None
    case Some(line) => ValueOf(line)
  }

  /** A line get_base_version fails on: it sets a level but has no '='. */
  predicate Bad(line: string) {
    LevelOf(line).Some? && '=' !in line
  }

  /** One of the first k lines is bad. */
  predicate BadBefore(s: seq<string>, k: nat) {
    exists j :: 0 <= j < k && j < |s| && Bad(s[j])
  }

  /** Every level is set by some line of p. */
  predicate AllSet(p: seq<string>) {
    LastSetting(p, Version).Some? && LastSetting(p, PatchLevel).Some? && LastSetting(p, SubLevel).Some?
  }

  /** The number of lines read when reading starts at line n: up to and including the first
      line from n on after which every level is set, or all of them. */
  function StopFrom(s: seq<string>, n: nat): (k: nat)
    requires n <= |s|
    ensures n <= k <= |s|
    ensures n < |s| ==> n < k
    decreases |s| - n
  {
    if n == |s| then n
    else if AllSet(s[..n + 1]) then n + 1
    else StopFrom(s, n + 1)
  }

  /** The number of lines get_base_version reads. */
  function StopLine(s: seq<string>): (k: nat)
    ensures k <= |s|
  {
    StopFrom(s, 0)
  }

  /** f"{x}" of an optional str: "None" when there is none. */
  function Format(x: Option<string>): string {
    if x.None? then "None" else x.value
  }

  /** The base version of stripped lines: IndexError when one of the lines read sets a level
      without an '=', otherwise the value each level last took among them, joined by dots. */
  function VersionOf(s: seq<string>): Result<string, Error> {
    var k := StopLine(s);
    if BadBefore(s, k) then Failure(IndexError)
    else Success(Format(Setting(s[..k], Version)) + "." + Format(Setting(s[..k], PatchLevel)) + "."
                 + Format(Setting(s[..k], SubLevel)))
  }

  /** What get_base_version returns for the Makefile's lines. */
  function BaseVersion(lines: seq<string>): Result<string, Error> {
    VersionOf(StripAll(lines))
  }

  /** Without bad lines a level has a value exactly when some line sets it. */
  lemma {:induction false} SettingOfGood(s: seq<string>, k: nat, level: Level)
    requires k <= |s| && !BadBefore(s, k)
    ensures Setting(s[..k], level).Some? <==> LastSetting(s[..k], level).Some?
  {
    var p := s[..k];
    if LastSetting(p, level).Some? {
      var i :| 0 <= i < |p| && p[i] == LastSetting(p, level).value;
      assert p[i] == s[i];
      assert !Bad(s[i]);
    }
  }

  /** A line that is not bad keeps the lines read so far free of bad ones. */
  lemma {:induction false} GoodStep(s: seq<string>, i: nat)
    requires i < |s| && !BadBefore(s, i) && !Bad(s[i])
    ensures !BadBefore(s, i + 1)
  {
  }

  /** Reading one more line: a line that sets the level overwrites it, any other line keeps it. */
  lemma {:induction false} SettingStep(s: seq<string>, i: nat, level: Level)
    requires i < |s|
    ensures LevelOf(s[i]) == Some(level) ==> Setting(s[..i + 1], level) == ValueOf(s[i])
    ensures LevelOf(s[i]) != Some(level) ==> Setting(s[..i + 1], level) == Setting(s[..i], level)
  {
    var p := s[..i + 1];
    assert p[|p| - 1] == s[i];
    assert p[..|p| - 1] == s[..i];
  }

  /** Reading stops at line k without a bad line: the version is the levels among the first k. */
  lemma {:induction false} VersionAt(s: seq<string>, k: nat)
    requires k <= |s| && StopLine(s) == k && !BadBefore(s, k)
    ensures VersionOf(s) == Success(Format(Setting(s[..k], Version)) + "." + Format(Setting(s[..k], PatchLevel))
                                    + "." + Format(Setting(s[..k], SubLevel)))
  {
  }

  /** A bad line among those read fails the scan. */
  lemma {:induction false} VersionFails(s: seq<string>, i: nat)
    requires i < StopLine(s) && Bad(s[i])
    ensures VersionOf(s) == Failure(IndexError)
  {
  }

  /** get_base_version over the Makefile's lines. */
  method GetBaseVersion(lines: seq<string>) returns (r: Result<string, Error>)
    ensures r == BaseVersion(lines)
  {
    ghost var s := StripAll(lines);
    var version: Option<string> := None;
    var patchlevel: Option<string> := None;
    var sublevel: Option<string> := None;
    var i := 0;
    while i < |lines|
      invariant 0 <= i <= |lines|
      invariant StopFrom(s, i) == StopLine(s)
      invariant !BadBefore(s, i)
      invariant version == Setting(s[..i], Version)
      invariant patchlevel == Setting(s[..i], PatchLevel)
      invariant sublevel == Setting(s[..i], SubLevel)
    {
      var line := Strip(lines[i]);
      assert line == s[i];
      SettingStep(s, i, Version);
      SettingStep(s, i, PatchLevel);
      SettingStep(s, i, SubLevel);
      var level := LevelOf(line);
      if level.Some? {
        var value := ValueOf(line);
        if value.None? {
          VersionFails(s, i);
          return Failure(IndexError);
        }
        match level.value
        case Version => version := value;
        case PatchLevel => patchlevel := value;
        case SubLevel => sublevel := value;
      }
      GoodStep(s, i);
      SettingOfGood(s, i + 1, Version);
      SettingOfGood(s, i + 1, PatchLevel);
      SettingOfGood(s, i + 1, SubLevel);
      i := i + 1;
      if version.Some? && patchlevel.Some? && sublevel.Some? {
        assert StopLine(s) == i;
        break;
      }
    }
    VersionAt(s, i);
    r := Success(Format(version) + "." + Format(patchlevel) + "." + Format(sublevel));
  }

  /** Stripping distributes over concatenation. */
  lemma {:induction false} StripAllAppend(lines: seq<string>, rest: seq<string>)
    ensures StripAll(lines + rest) == StripAll(lines) + StripAll(rest)
  {
    MapAppend(Strip, lines, rest);
  }

  /** Reading stops once every level is set: lines after that make no difference. */
  lemma {:induction false} StopIgnoresRest(lines: seq<string>, rest: seq<string>)
    requires AllSet(StripAll(lines))
    ensures BaseVersion(lines + rest) == BaseVersion(lines)
  {
    var s := StripAll(lines);
    var t := StripAll(rest);
    StripAllAppend(lines, rest);
    assert |s| > 0;
    StopPrefix(s, t, 0);
    var k := StopLine(s);
    assert (s + t)[..k] == s[..k];
    assert BadBefore(s + t, k) == BadBefore(s, k) by {
      assert forall j :: 0 <= j < k ==> (s + t)[j] == s[j];
    }
  }

  lemma {:induction false} StopPrefix(s: seq<string>, t: seq<string>, n: nat)
    requires AllSet(s) && n < |s|
    ensures StopFrom(s + t, n) == StopFrom(s, n)
    decreases |s| - n
  {
    assert (s + t)[..n + 1] == s[..n + 1];
    if !AllSet(s[..n + 1]) {
      assert n + 1 != |s| by {
        assert s[..|s|] == s;
      }
      StopPrefix(s, t, n + 1);
    }
  }

  /** A level no line sets shows up as "None": every (stripped) line is read and the version
      ends in ".None". */
  lemma {:induction false} UnsetSubLevelIsNone(s: seq<string>)
    requires forall i :: 0 <= i < |s| ==> LevelOf(s[i]) != Some(SubLevel)
    requires !BadBefore(s, |s|)
    ensures StopLine(s) == |s|
    ensures VersionOf(s).Success? && EndsWith(VersionOf(s).value, ".None")
  {
    NeverAllSet(s, 0);
    var p := s[..|s|];
    assert p == s;
    assert LastSetting(p, SubLevel).None?;
    VersionAt(s, |s|);
    var head := Format(Setting(p, Version)) + "." + Format(Setting(p, PatchLevel));
    assert head + "." + "None" == head + ".None";
    SuffixOfAppend(head, ".None");
  }

  lemma {:induction false} NeverAllSet(s: seq<string>, n: nat)
    requires forall i :: 0 <= i < |s| ==> LevelOf(s[i]) != Some(SubLevel)
    requires n <= |s|
    ensures StopFrom(s, n) == |s|
    decreases |s| - n
  {
    if n < |s| {
      assert LastSetting(s[..n + 1], SubLevel).None?;
      NeverAllSet(s, n + 1);
    }
  }

  // ---------------------------------------------------------------------------------------
  // The build request and the rpmbuild invocation
  // ---------------------------------------------------------------------------------------

  /** The parsed `build` arguments; the signing key and certificate are optional. */
  datatype BuildArgs = BuildArgs(
    suffix: string, target: string, pkgrel: int,
    sbsignKey: Option<string>, sbsignCert: Option<string>, j: int)

  /** The `build` defaults; `cpu` is multiprocessing.cpu_count(). */
  function DefaultBuildArgs(cpu: int): (a: BuildArgs)
    ensures a.suffix == "surface" && a.target == "" && a.pkgrel == 1
    ensures a.sbsignKey.None? && a.sbsignCert.None? && a.j == cpu
  {
    BuildArgs("surface", "", 1, None, None, cpu)
  }

  datatype KernelVersion = KernelVersion(suffix: string, pkgrel: int)
  datatype SecureBoot = SecureBoot(key: Option<string>, cert: Option<string>)

  /** The build spec cmd_build hands to package_make. */
  datatype BuildSpec = BuildSpec(
    nprocs: int, target: Option<string>, dirKernelSrc: Path, dirBase: Path,
    kernelVersion: KernelVersion, sb: SecureBoot)

  /** cmd_build: an empty target taken as none, the key and certificate made absolute
      (`absolute` is Path.absolute) when given. */
  function SpecOf(args: BuildArgs, base: Path, cwd: Path, absolute: string -> string): (spec: BuildSpec)
    ensures spec.target.None? <==> args.target == ""
    ensures spec.target.Some? ==> spec.target.value == args.target
    ensures spec.nprocs == args.j && spec.dirKernelSrc == cwd && spec.dirBase == base
    ensures spec.kernelVersion == KernelVersion(args.suffix, args.pkgrel)
    ensures spec.sb.key.Some? <==> args.sbsignKey.Some?
    ensures spec.sb.key.Some? ==> spec.sb.key.value == absolute(args.sbsignKey.value)
    ensures spec.sb.cert.Some? <==> args.sbsignCert.Some?
    ensures spec.sb.cert.Some? ==> spec.sb.cert.value == absolute(args.sbsignCert.value)
  {
    var key := if args.sbsignKey.Some? then Some(absolute(args.sbsignKey.value)) else None;
    var cert := if args.sbsignCert.Some? then Some(absolute(args.sbsignCert.value)) else None;
    BuildSpec(args.j, if args.target != "" then Some(args.target) else None, cwd, base,
              KernelVersion(args.suffix, args.pkgrel), SecureBoot(key, cert))
  }

  /** `if spec.target:` — a target is given and not empty. */
  predicate Cross(spec: BuildSpec) {
    spec.target.Some? && spec.target.value != ""
  }

  function BuildDir(base: Path): Path { base + ["build"] }
  function RpmsDir(base: Path): Path { base + ["build", "RPMS"] }
  function OutDir(base: Path): Path { base + ["out"] }

  /** The variables set on every build. */
  const BaseKeys: set<string> :=
    {"LANGUAGE", "LANG", "RPM_BUILD_NCPUS", "KBUILD_VERSION", "KBUILD_RELEASE", "KBUILD_SUFFIX"}

  /** The variables set only when their option is given. */
  function OptionalKeys(spec: BuildSpec): set<string> {
    (if spec.sb.key.Some? then {"KBUILD_SB_KEY"} else {})
    + (if spec.sb.cert.Some? then {"KBUILD_SB_CERT"} else {})
    + (if Cross(spec) then {"KBUILD_TOOLCHAIN"} else {})
  }

  /** The environment rpmbuild is given, for the base version `version`. */
  function BuildEnv(inherited: Env, spec: BuildSpec, version: string): (env: Env)
    ensures env.Keys == inherited.Keys + BaseKeys + OptionalKeys(spec)
    ensures forall k :: k in inherited && k !in BaseKeys && k !in OptionalKeys(spec) ==> env[k] == inherited[k]
    ensures env["LANGUAGE"] == "C" && env["LANG"] == "C"
    ensures env["RPM_BUILD_NCPUS"] == IntToString(spec.nprocs)
    ensures env["KBUILD_VERSION"] == version
    ensures env["KBUILD_RELEASE"] == IntToString(spec.kernelVersion.pkgrel)
    ensures env["KBUILD_SUFFIX"] == spec.kernelVersion.suffix
    ensures spec.sb.key.Some? ==> env["KBUILD_SB_KEY"] == spec.sb.key.value
    ensures spec.sb.cert.Some? ==> env["KBUILD_SB_CERT"] == spec.sb.cert.value
    ensures Cross(spec) ==> env["KBUILD_TOOLCHAIN"] == spec.target.value + "-linux-gnu-"
  {
    var env := inherited["LANGUAGE" := "C"]["LANG" := "C"]
                        ["RPM_BUILD_NCPUS" := IntToString(spec.nprocs)]
                        ["KBUILD_VERSION" := version]
                        ["KBUILD_RELEASE" := IntToString(spec.kernelVersion.pkgrel)]
                        ["KBUILD_SUFFIX" := spec.kernelVersion.suffix];
    var env := if spec.sb.key.Some? then env["KBUILD_SB_KEY" := spec.sb.key.value] else env;
    var env := if spec.sb.cert.Some? then env["KBUILD_SB_CERT" := spec.sb.cert.value] else env;
    if Cross(spec) then env["KBUILD_TOOLCHAIN" := spec.target.value + "-linux-gnu-"] else env
  }

  /** The job count and the release read back from their variables. */
  lemma {:induction false} NumbersReadBack(inherited: Env, spec: BuildSpec, version: string)
    ensures ParseInt(BuildEnv(inherited, spec, version)["RPM_BUILD_NCPUS"]) == Some(spec.nprocs)
    ensures ParseInt(BuildEnv(inherited, spec, version)["KBUILD_RELEASE"]) == Some(spec.kernelVersion.pkgrel)
  {
    ParseIntToString(spec.nprocs);
    ParseIntToString(spec.kernelVersion.pkgrel);
  }

  /** rpmbuild's argument vector: the three directory definitions, `--target <target>` exactly
      when cross-compiling, then the spec file to build. */
  function BuildArgv(spec: BuildSpec): (argv: seq<string>)
    ensures |argv| == 9 + if Cross(spec) then 2 else 0
    ensures argv[..7] == ["rpmbuild",
                          "--define", "_topdir " + Show(BuildDir(spec.dirBase)),
                          "--define", "_specdir " + Show(spec.dirBase),
                          "--define", "_builddir " + Show(spec.dirKernelSrc)]
    ensures Cross(spec) ==> argv[7..9] == ["--target", spec.target.value]
    ensures argv[|argv| - 2..] == ["-ba", "kernel.spec"]
  {
    var defines := ["--define", "_topdir " + Show(BuildDir(spec.dirBase)),
                    "--define", "_specdir " + Show(spec.dirBase),
                    "--define", "_builddir " + Show(spec.dirKernelSrc)];
    var args := if Cross(spec) then defines + ["--target", spec.target.value] else defines;
    ["rpmbuild"] + args + ["-ba", "kernel.spec"]
  }

  // ---------------------------------------------------------------------------------------
  // Collecting the rpms
  // ---------------------------------------------------------------------------------------

  predicate IsRpm(name: string) {
    EndsWith(name, ".rpm")
  }

  /** `arches` names architecture directories below rpms, each once, none of them out/. The
      collection loop works through such a listing; its tails are listings too. */
  predicate ArchListing(dirs: Dirs, rpms: Path, out: Path, arches: seq<string>) {
    && (forall i :: 0 <= i < |arches| ==> rpms + [arches[i]] in dirs && rpms + [arches[i]] != out)
    && (forall i, j :: 0 <= i < j < |arches| ==> arches[i] != arches[j])
  }

  /** d is a directory directly below parent. */
  predicate ChildOf(parent: Path, d: Path) {
    |d| == |parent| + 1 && d[..|parent|] == parent
  }

  /** `os.listdir(dir_rpms)` as package_make sees it: a listing that names every directory
      directly below rpms. */
  predicate CompleteListing(dirs: Dirs, rpms: Path, out: Path, arches: seq<string>) {
    && ArchListing(dirs, rpms, out, arches)
    && (forall d :: d in dirs && ChildOf(rpms, d) ==> d[|rpms|] in arches)
  }

  /** Some directory directly below rpms holds the rpm f. */
  predicate RpmBelow(dirs: Dirs, rpms: Path, f: string) {
    exists d :: d in dirs && ChildOf(rpms, d) && f in dirs[d] && IsRpm(f)
  }

  /** A listed directory is a directory directly below rpms, and with a complete listing every
      such directory is a listed one. */
  lemma {:induction false} ListedIsChild(dirs: Dirs, rpms: Path, out: Path, arches: seq<string>, d: Path)
    requires CompleteListing(dirs, rpms, out, arches)
    ensures d in dirs && ChildOf(rpms, d) <==> exists i :: 0 <= i < |arches| && d == rpms + [arches[i]]
  {
    if d in dirs && ChildOf(rpms, d) {
      var i :| 0 <= i < |arches| && arches[i] == d[|rpms|];
      assert d == rpms + [arches[i]];
    }
    if exists i :: 0 <= i < |arches| && d == rpms + [arches[i]] {
      var i :| 0 <= i < |arches| && d == rpms + [arches[i]];
      assert d[..|rpms|] == rpms;
    }
  }

  /** With a complete listing, the rpms of the listed directories are the rpms of all the
      directories directly below rpms. */
  lemma {:induction false} HarvestedIsBelow(dirs: Dirs, rpms: Path, out: Path, arches: seq<string>)
    requires CompleteListing(dirs, rpms, out, arches)
    ensures forall f :: Harvested(dirs, rpms, arches, f) <==> RpmBelow(dirs, rpms, f)
  {
    forall f ensures Harvested(dirs, rpms, arches, f) <==> RpmBelow(dirs, rpms, f) {
      if Harvested(dirs, rpms, arches, f) {
        var i :| 0 <= i < |arches| && rpms + [arches[i]] in dirs && f in dirs[rpms + [arches[i]]] && IsRpm(f);
        ListedIsChild(dirs, rpms, out, arches, rpms + [arches[i]]);
      }
      if RpmBelow(dirs, rpms, f) {
        var d :| d in dirs && ChildOf(rpms, d) && f in dirs[d] && IsRpm(f);
        ListedIsChild(dirs, rpms, out, arches, d);
      }
    }
  }

  /** d is one of the listed architecture directories. */
  predicate IsArchDir(rpms: Path, arches: seq<string>, d: Path) {
    |d| == |rpms| + 1 && d[..|rpms|] == rpms && d[|rpms|] in arches
  }

  /** Some listed architecture directory holds the rpm f. */
  predicate Harvested(dirs: Dirs, rpms: Path, arches: seq<string>, f: string) {
    exists i :: 0 <= i < |arches| && rpms + [arches[i]] in dirs && f in dirs[rpms + [arches[i]]] && IsRpm(f)
  }

  /** A tail of a listing is a listing. */
  lemma {:induction false} ListingSuffix(dirs: Dirs, rpms: Path, out: Path, arches: seq<string>, k: nat)
    requires ArchListing(dirs, rpms, out, arches) && k <= |arches|
    ensures ArchListing(dirs, rpms, out, arches[k..])
  {
    var t := arches[k..];
    forall i | 0 <= i < |t| ensures rpms + [t[i]] in dirs && rpms + [t[i]] != out {
      assert t[i] == arches[k + i];
    }
    forall i, j | 0 <= i < j < |t| ensures t[i] != t[j] {
      assert t[i] == arches[k + i] && t[j] == arches[k + j];
    }
  }

  /** base/a and base/b are distinct below base when a and b are. */
  lemma {:induction false} ArchDirsDiffer(rpms: Path, a: string, b: string)
    requires a != b
    ensures rpms + [a] != rpms + [b]
  {
    assert (rpms + [a])[|rpms|] == a;
  }

  /** The rpms of the first listed architecture directory moved into out. */
  function MoveFirst(dirs: Dirs, rpms: Path, out: Path, arches: seq<string>): (r: Dirs)
    requires out in dirs && ArchListing(dirs, rpms, out, arches) && arches != []
    ensures r.Keys == dirs.Keys
  {
    var arch := rpms + [arches[0]];
    MoveSome(dirs, arch, out, Names(dirs[arch], IsRpm))
  }

  /** The first move leaves the other listed directories alone, and what they hold is what is
      left to harvest. */
  lemma {:induction false} FirstMoveSpares(dirs: Dirs, rpms: Path, out: Path, arches: seq<string>)
    requires out in dirs && ArchListing(dirs, rpms, out, arches) && arches != []
    ensures var m := MoveFirst(dirs, rpms, out, arches);
      && out in m && ArchListing(m, rpms, out, arches[1..])
      && (forall j :: 0 <= j < |arches[1..]| ==> m[rpms + [arches[1..][j]]] == dirs[rpms + [arches[1..][j]]])
      && (forall f :: Harvested(m, rpms, arches[1..], f) <==> Harvested(dirs, rpms, arches[1..], f))
      && (forall f :: Harvested(dirs, rpms, arches, f) <==>
            (f in dirs[rpms + [arches[0]]] && IsRpm(f)) || Harvested(dirs, rpms, arches[1..], f))
  {
    var m := MoveFirst(dirs, rpms, out, arches);
    var rest := arches[1..];
    ListingSuffix(dirs, rpms, out, arches, 1);
    forall j | 0 <= j < |rest| ensures m[rpms + [rest[j]]] == dirs[rpms + [rest[j]]] {
      assert rest[j] == arches[j + 1];
      ArchDirsDiffer(rpms, rest[j], arches[0]);
    }
    forall f ensures Harvested(dirs, rpms, arches, f) <==>
      (f in dirs[rpms + [arches[0]]] && IsRpm(f)) || Harvested(dirs, rpms, rest, f)
    {
      if Harvested(dirs, rpms, arches, f) && !(f in dirs[rpms + [arches[0]]] && IsRpm(f)) {
        var j :| 0 <= j < |arches| && rpms + [arches[j]] in dirs && f in dirs[rpms + [arches[j]]] && IsRpm(f);
        assert arches[j] == rest[j - 1];
      }
      if Harvested(dirs, rpms, rest, f) {
        var j :| 0 <= j < |rest| && rpms + [rest[j]] in dirs && f in dirs[rpms + [rest[j]]] && IsRpm(f);
        assert rest[j] == arches[j + 1];
      }
    }
  }

  /** The nested listdir loops of package_make: the rpms of each architecture directory, in
      listing order, moved flat into out. */
  function CollectRpms(dirs: Dirs, rpms: Path, out: Path, arches: seq<string>): (r: Dirs)
    requires out in dirs && ArchListing(dirs, rpms, out, arches)
    ensures r.Keys == dirs.Keys
    decreases |arches|
  {
    if arches == [] then dirs
    else
      FirstMoveSpares(dirs, rpms, out, arches);
      CollectRpms(MoveFirst(dirs, rpms, out, arches), rpms, out, arches[1..])
  }

  /** Directories other than out and the listed architecture directories do not change. */
  lemma {:induction false} CollectRpmsSpares(dirs: Dirs, rpms: Path, out: Path, arches: seq<string>)
    requires out in dirs && ArchListing(dirs, rpms, out, arches)
    ensures forall d :: d in dirs && d != out && !IsArchDir(rpms, arches, d) ==>
      CollectRpms(dirs, rpms, out, arches)[d] == dirs[d]
    decreases |arches|
  {
    if arches != [] {
      var m := MoveFirst(dirs, rpms, out, arches);
      FirstMoveSpares(dirs, rpms, out, arches);
      CollectRpmsSpares(m, rpms, out, arches[1..]);
      forall d | d in dirs && d != out && !IsArchDir(rpms, arches, d)
        ensures CollectRpms(dirs, rpms, out, arches)[d] == dirs[d]
      {
        assert d != rpms + [arches[0]];
        assert !IsArchDir(rpms, arches[1..], d) by {
          assert forall x :: x in arches[1..] ==> x in arches;
        }
      }
    }
  }

  /** Each listed architecture directory keeps only its files that are not rpms. */
  lemma {:induction false} EmptiesListed(dirs: Dirs, rpms: Path, out: Path, arches: seq<string>)
    requires out in dirs && ArchListing(dirs, rpms, out, arches)
    ensures forall i :: 0 <= i < |arches| ==>
      CollectRpms(dirs, rpms, out, arches)[rpms + [arches[i]]] == Keep(dirs[rpms + [arches[i]]], IsRpm)
    decreases |arches|
  {
    if arches != [] {
      var m := MoveFirst(dirs, rpms, out, arches);
      var rest := arches[1..];
      var first := rpms + [arches[0]];
      var r := CollectRpms(dirs, rpms, out, arches);
      FirstMoveSpares(dirs, rpms, out, arches);
      EmptiesListed(m, rpms, out, rest);
      forall i | 0 <= i < |arches| ensures r[rpms + [arches[i]]] == Keep(dirs[rpms + [arches[i]]], IsRpm) {
        if i == 0 {
          CollectRpmsSpares(m, rpms, out, rest);
          assert arches[0] !in rest by {
            forall j | 0 <= j < |rest| ensures rest[j] != arches[0] {
              assert rest[j] == arches[j + 1];
            }
          }
          assert first[..|rpms|] == rpms && first[|rpms|] == arches[0];
          assert m[first] == Keep(dirs[first], IsRpm);
        } else {
          assert arches[i] == rest[i - 1];
        }
      }
    }
  }

  /** out ends up with what it had and every rpm of the listed directories; a file of out
      that no listed directory holds as an rpm keeps its content. */
  lemma {:induction false} FillsListed(dirs: Dirs, rpms: Path, out: Path, arches: seq<string>)
    requires out in dirs && ArchListing(dirs, rpms, out, arches)
    ensures var r := CollectRpms(dirs, rpms, out, arches);
      && (forall f :: f in r[out] <==> f in dirs[out] || Harvested(dirs, rpms, arches, f))
      && (forall f :: f in r[out] && !Harvested(dirs, rpms, arches, f) ==> r[out][f] == dirs[out][f])
    decreases |arches|
  {
    if arches != [] {
      var m := MoveFirst(dirs, rpms, out, arches);
      FirstMoveSpares(dirs, rpms, out, arches);
      FillsListed(m, rpms, out, arches[1..]);
    }
  }

  /** With the listing os.listdir gives, every directory directly below rpms keeps only its
      files that are not rpms. */
  lemma {:induction false} CollectRpmsEmpties(dirs: Dirs, rpms: Path, out: Path, arches: seq<string>)
    requires out in dirs && CompleteListing(dirs, rpms, out, arches)
    ensures forall d :: d in dirs && ChildOf(rpms, d) ==>
      CollectRpms(dirs, rpms, out, arches)[d] == Keep(dirs[d], IsRpm)
  {
    EmptiesListed(dirs, rpms, out, arches);
    forall d | d in dirs && ChildOf(rpms, d)
      ensures CollectRpms(dirs, rpms, out, arches)[d] == Keep(dirs[d], IsRpm)
    {
      ListedIsChild(dirs, rpms, out, arches, d);
    }
  }

  /** With the listing os.listdir gives, out ends up with what it had and every rpm of every
      directory directly below rpms; a file of out that no such directory holds as an rpm keeps
      its content. */
  lemma {:induction false} CollectRpmsFills(dirs: Dirs, rpms: Path, out: Path, arches: seq<string>)
    requires out in dirs && CompleteListing(dirs, rpms, out, arches)
    ensures var r := CollectRpms(dirs, rpms, out, arches);
      && (forall f :: f in r[out] <==> f in dirs[out] || RpmBelow(dirs, rpms, f))
      && (forall f :: f in r[out] && !RpmBelow(dirs, rpms, f) ==> r[out][f] == dirs[out][f])
  {
    FillsListed(dirs, rpms, out, arches);
    HarvestedIsBelow(dirs, rpms, out, arches);
  }

  /** The loop of package_make over the architecture directories. */
  method CollectAll(fs: Fs, rpms: Path, out: Path, arches: seq<string>)
    requires out in fs.dirs && ArchListing(fs.dirs, rpms, out, arches)
    modifies fs
    ensures fs.dirs == CollectRpms(old(fs.dirs), rpms, out, arches)
  {
    ghost var d0 := fs.dirs;
    var i := 0;
    while i < |arches|
      invariant 0 <= i <= |arches|
      invariant out in fs.dirs && ArchListing(fs.dirs, rpms, out, arches[i..])
      invariant CollectRpms(fs.dirs, rpms, out, arches[i..]) == CollectRpms(d0, rpms, out, arches)
    {
      ghost var before := fs.dirs;
      ghost var rest := arches[i..];
      assert rest[0] == arches[i];
      fs.MoveMatching(rpms + [arches[i]], out, IsRpm);
      assert fs.dirs == MoveFirst(before, rpms, out, rest);
      FirstMoveSpares(before, rpms, out, rest);
      assert rest[1..] == arches[i + 1..];
      i := i + 1;
    }
  }

  /** The environment of package_make, variable by variable. */
  method MakeEnv(inherited: Env, spec: BuildSpec, version: string) returns (env: Env)
    ensures env == BuildEnv(inherited, spec, version)
  {
    env := inherited;
    env := env["LANGUAGE" := "C"];
    env := env["LANG" := "C"];
    env := env["RPM_BUILD_NCPUS" := IntToString(spec.nprocs)];
    env := env["KBUILD_VERSION" := version];
    env := env["KBUILD_RELEASE" := IntToString(spec.kernelVersion.pkgrel)];
    env := env["KBUILD_SUFFIX" := spec.kernelVersion.suffix];
    if spec.sb.key.Some? {
      env := env["KBUILD_SB_KEY" := spec.sb.key.value];
    }
    if spec.sb.cert.Some? {
      env := env["KBUILD_SB_CERT" := spec.sb.cert.value];
    }
    if Cross(spec) {
      env := env["KBUILD_TOOLCHAIN" := spec.target.value + "-linux-gnu-"];
    }
  }

  /** out/ made when missing. */
  function WithOut(dirs: Dirs, base: Path): (r: Dirs)
    ensures r.Keys == dirs.Keys + {OutDir(base)}
    ensures OutDir(base) in dirs ==> r == dirs
    ensures OutDir(base) !in dirs ==> r == dirs[OutDir(base) := map[]]
  {
    if OutDir(base) in dirs then dirs else dirs[OutDir(base) := map[]]
  }

  /** build/RPMS/<arch> is never out/, so making out/ keeps the listing complete. */
  lemma {:induction false} ListingWithOut(dirs: Dirs, base: Path, arches: seq<string>)
    requires CompleteListing(dirs, RpmsDir(base), OutDir(base), arches)
    ensures CompleteListing(WithOut(dirs, base), RpmsDir(base), OutDir(base), arches)
    ensures RpmsDir(base) != OutDir(base) && !ChildOf(RpmsDir(base), OutDir(base))
  {
    assert RpmsDir(base)[|base|] == "build" && OutDir(base)[|base|] == "out";
  }

  /** What package_make's collection does to the state rpmbuild leaves: out/ exists and holds
      what it held and every rpm of every directory directly below build/RPMS, those
      directories keep only their other files, and no other directory changes. */
  lemma {:induction false} BuildCollects(dirs: Dirs, base: Path, arches: seq<string>)
    requires CompleteListing(dirs, RpmsDir(base), OutDir(base), arches)
    ensures var rpms, out := RpmsDir(base), OutDir(base);
      var r := CollectRpms(WithOut(dirs, base), rpms, out, arches);
      && r.Keys == dirs.Keys + {out}
      && (forall f :: f in r[out] <==> (out in dirs && f in dirs[out]) || RpmBelow(dirs, rpms, f))
      && (forall d :: d in dirs && ChildOf(rpms, d) ==> r[d] == Keep(dirs[d], IsRpm))
      && (forall d :: d in dirs && d != out && !ChildOf(rpms, d) ==> r[d] == dirs[d])
  {
    var rpms, out := RpmsDir(base), OutDir(base);
    var w := WithOut(dirs, base);
    ListingWithOut(dirs, base, arches);
    CollectRpmsFills(w, rpms, out, arches);
    CollectRpmsEmpties(w, rpms, out, arches);
    CollectRpmsSpares(w, rpms, out, arches);
    forall f ensures RpmBelow(w, rpms, f) <==> RpmBelow(dirs, rpms, f) {
      if RpmBelow(w, rpms, f) {
        var d :| d in w && ChildOf(rpms, d) && f in w[d] && IsRpm(f);
        assert d != out;
      }
    }
  }

  /** package_make. `makefile` is the kernel Makefile's lines, none when it cannot be opened;
      `arches` is the listing of build/RPMS; `fs` is the state rpmbuild leaves behind. */
  method PackageMake(fs: Fs, inherited: Env, spec: BuildSpec, makefile: Option<seq<string>>, arches: seq<string>)
    returns (trace: Trace)
    requires CompleteListing(fs.dirs, RpmsDir(spec.dirBase), OutDir(spec.dirBase), arches)
    modifies fs
    ensures makefile.None? ==>
      trace == Trace([], Some(FileNotFound(Show(spec.dirKernelSrc + ["Makefile"])))) && fs.dirs == old(fs.dirs)
    ensures makefile.Some? && BaseVersion(makefile.value).Failure? ==>
      trace == Trace([], Some(IndexError)) && fs.dirs == old(fs.dirs)
    ensures makefile.Some? && BaseVersion(makefile.value).Success? ==>
      trace.calls == [Invocation(BuildArgv(spec), BuildEnv(inherited, spec, BaseVersion(makefile.value).value))]
    ensures makefile.Some? && BaseVersion(makefile.value).Success? && RpmsDir(spec.dirBase) !in old(fs.dirs) ==>
      trace.raised == Some(FileNotFound(Show(RpmsDir(spec.dirBase)))) && fs.dirs == WithOut(old(fs.dirs), spec.dirBase)
    ensures makefile.Some? && BaseVersion(makefile.value).Success? && RpmsDir(spec.dirBase) in old(fs.dirs) ==>
      trace.raised.None? &&
      fs.dirs == CollectRpms(WithOut(old(fs.dirs), spec.dirBase), RpmsDir(spec.dirBase), OutDir(spec.dirBase), arches)
  {
    if makefile.None? {
      return Trace([], Some(FileNotFound(Show(spec.dirKernelSrc + ["Makefile"]))));
    }
    var version := GetBaseVersion(makefile.value);
    if version.Failure? {
      return Trace([], Some(IndexError));
    }
    var base := spec.dirBase;
    var rpms := RpmsDir(base);
    var out := OutDir(base);
    var env := MakeEnv(inherited, spec, version.value);
    var rpmbuild := Invocation(BuildArgv(spec), env);

    ListingWithOut(fs.dirs, base, arches);
    if out !in fs.dirs {
      fs.MakeDir(out);
    }
    if rpms !in fs.dirs {
      return Trace([rpmbuild], Some(FileNotFound(Show(rpms))));
    }
    CollectAll(fs, rpms, out, arches);
    trace := Trace([rpmbuild], None);
  }

  /** cmd_build. */
  method CmdBuild(fs: Fs, inherited: Env, args: BuildArgs, base: Path, cwd: Path, absolute: string -> string,
                  makefile: Option<seq<string>>, arches: seq<string>)
    returns (trace: Trace)
    requires CompleteListing(fs.dirs, RpmsDir(base), OutDir(base), arches)
    modifies fs
    ensures makefile.None? ==>
      trace == Trace([], Some(FileNotFound(Show(cwd + ["Makefile"])))) && fs.dirs == old(fs.dirs)
    ensures makefile.Some? && BaseVersion(makefile.value).Failure? ==>
      trace == Trace([], Some(IndexError)) && fs.dirs == old(fs.dirs)
    ensures var spec := SpecOf(args, base, cwd, absolute);
      makefile.Some? && BaseVersion(makefile.value).Success? ==>
      trace.calls == [Invocation(BuildArgv(spec), BuildEnv(inherited, spec, BaseVersion(makefile.value).value))]
    ensures makefile.Some? && BaseVersion(makefile.value).Success? && RpmsDir(base) !in old(fs.dirs) ==>
      trace.raised == Some(FileNotFound(Show(RpmsDir(base)))) && fs.dirs == WithOut(old(fs.dirs), base)
    ensures makefile.Some? && BaseVersion(makefile.value).Success? && RpmsDir(base) in old(fs.dirs) ==>
      trace.raised.None? && fs.dirs == CollectRpms(WithOut(old(fs.dirs), base), RpmsDir(base), OutDir(base), arches)
  {
    var spec := SpecOf(args, base, cwd, absolute);
    trace := PackageMake(fs, inherited, spec, makefile, arches);
  }

  // ---------------------------------------------------------------------------------------
  // Cleaning
  // ---------------------------------------------------------------------------------------

  /** cmd_package_clean: the rpmbuild tree removed, nothing else. */
  method CmdPackageClean(fs: Fs, base: Path)
    modifies fs
    ensures fs.dirs == WithoutTree(old(fs.dirs), BuildDir(base))
  {
    fs.RemoveTree(BuildDir(base));
  }

  /** The message Python gives for cmd_package_clean() called with no argument. */
  const CleanArity := "cmd_package_clean() missing 1 required positional argument: 'args'"

  /** cmd_package_clean_all as written: its call of cmd_package_clean() lacks the argument, so
      it raises before anything is removed. */
  method CmdPackageCleanAll(fs: Fs, base: Path) returns (r: Outcome<Error>)
    ensures r == Fail(TypeError(CleanArity))
  {
    r := Fail(TypeError(CleanArity));
  }

  /** cmd_package_clean_all with the argument passed on: build/ and out/ removed. */
  method CmdPackageCleanAllFixed(fs: Fs, base: Path)
    modifies fs
    ensures fs.dirs == WithoutTree(WithoutTree(old(fs.dirs), BuildDir(base)), OutDir(base))
  {
    CmdPackageClean(fs, base);
    fs.RemoveTree(OutDir(base));
  }

  /** The intended clean-all leaves neither build/ nor out/ behind, and touches nothing outside
      them. */
  lemma {:induction false} CleanAllRemovesBoth(dirs: Dirs, base: Path)
    ensures var r := WithoutTree(WithoutTree(dirs, BuildDir(base)), OutDir(base));
      && BuildDir(base) !in r && OutDir(base) !in r && RpmsDir(base) !in r
      && forall d :: d in dirs && !(BuildDir(base) <= d) && !(OutDir(base) <= d) ==> d in r && r[d] == dirs[d]
  {
    assert BuildDir(base) <= RpmsDir(base);
  }

  /** cmd_package: `clean` removes build/, `clean-all` raises as written, anything else does
      nothing. */
  method CmdPackage(fs: Fs, base: Path, subcommand: string) returns (r: Outcome<Error>)
    modifies fs
    ensures subcommand == "clean" ==> r == Pass && fs.dirs == WithoutTree(old(fs.dirs), BuildDir(base))
    ensures subcommand == "clean-all" ==> r == Fail(TypeError(CleanArity)) && fs.dirs == old(fs.dirs)
    ensures subcommand != "clean" && subcommand != "clean-all" ==> r == Pass && fs.dirs == old(fs.dirs)
  {
    r := Pass;
    if subcommand == "clean" {
      CmdPackageClean(fs, base);
    } else if subcommand == "clean-all" {
      r := CmdPackageCleanAll(fs, base);
    }
  }
}
