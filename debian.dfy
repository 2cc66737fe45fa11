/**
 * debian/kpkg.py: the Debian helper, run from inside the kernel source tree. `build` turns
 * off the automatic local version in .config with sed, asks make for the kernel release,
 * builds the package target with the version options in the environment, and collects the
 * packages from the source tree's parent into out/. The script's directory (DIR_BASE) is the
 * parameter `base`; the resolved working directory (DIR_KERNEL_SOURCE) is `cwd`.
 */
module DebianKpkg {
  import opened Wrappers
  import opened Text
  import opened Process
  import opened FileSystem

  /** The parsed `build` arguments. */
  datatype BuildArgs = BuildArgs(
    suffix: string, config: string, clean: string, htmldocs: bool,
    target: string, maketarget: string, sign: bool, key: string, pkgrel: int, j: int)

  /** The `build` defaults; `cpu` is multiprocessing.cpu_count(). */
  function DefaultBuildArgs(cpu: int): (a: BuildArgs)
    ensures a.suffix == "surface" && a.config == "" && a.clean == "" && !a.htmldocs
    ensures a.target == "" && a.maketarget == "bindeb-pkg"
    ensures !a.sign && a.key == "" && a.pkgrel == 1 && a.j == cpu
  {
    BuildArgs("surface", "", "", false, "", "bindeb-pkg", false, "", 1, cpu)
  }

  datatype KernelVersion = KernelVersion(suffix: string, pkgrel: int)
  datatype Signature = Signature(sign: bool, key: string)

  /** The build spec cmd_build hands to package_make. */
  datatype BuildSpec = BuildSpec(
    nprocs: int, config: string, clean: string, htmldocs: bool,
    target: Option<string>, makeTarget: string,
    dirKernelSrc: Path, dirBase: Path,
    kernelVersion: KernelVersion, signature: Signature)

  function OutDir(base: Path): Path { base + ["out"] }

  /** cmd_build: the arguments copied into the spec, an empty target taken as none. */
  function SpecOf(args: BuildArgs, base: Path, cwd: Path): (spec: BuildSpec)
    ensures spec.target.None? <==> args.target == ""
    ensures spec.target.Some? ==> spec.target.value == args.target
    ensures spec.nprocs == args.j && spec.makeTarget == args.maketarget
    ensures spec.config == args.config && spec.clean == args.clean && spec.htmldocs == args.htmldocs
    ensures spec.dirKernelSrc == cwd && spec.dirBase == base
    ensures spec.kernelVersion == KernelVersion(args.suffix, args.pkgrel)
    ensures spec.signature == Signature(args.sign, args.key)
  {
    BuildSpec(args.j, args.config, args.clean, args.htmldocs,
              if args.target != "" then Some(args.target) else None, args.maketarget,
              cwd, base, KernelVersion(args.suffix, args.pkgrel), Signature(args.sign, args.key))
  }

  /** The sed script that empties CONFIG_LOCALVERSION and turns CONFIG_LOCALVERSION_AUTO off. */
  const LocalVersionSubst := "s|CONFIG_LOCALVERSION=.*|CONFIG_LOCALVERSION=\\\"\\\"|g"
  const AutoVersionSubst := "s|CONFIG_LOCALVERSION_AUTO=.*|CONFIG_LOCALVERSION_AUTO=n|g"

  /** sed's argument vector: the two substitutions joined by ";", applied in place to .config. */
  function SedArgv(src: Path): (argv: seq<string>)
    ensures |argv| == 4 && argv[0] == "sed" && argv[1] == "-i"
    ensures argv[2] == LocalVersionSubst + ";" + AutoVersionSubst
    ensures argv[3] == Show(src) + "/.config"
  {
    var subst := Join(";", [LocalVersionSubst, AutoVersionSubst]);
    assert [LocalVersionSubst, AutoVersionSubst][1..] == [AutoVersionSubst];
    assert Join(";", [AutoVersionSubst]) == AutoVersionSubst;
    ["sed", "-i", subst, Show(src) + "/.config"]
  }

  /** The `-j<n>` flag: "-j" and the job count in decimal. */
  function JobsFlag(n: int): (flag: string)
    ensures StartsWith(flag, "-j") && flag[2..] == IntToString(n)
  {
    var flag := "-j" + IntToString(n);
    assert flag[2..] == IntToString(n);
    flag
  }

  /** The job count reads back from its flag. */
  lemma {:induction false} JobsFlagReadsBack(n: int)
    ensures ParseInt(JobsFlag(n)[2..]) == Some(n)
  {
    ParseIntToString(n);
  }

  /** The kernelrelease query: `make -s -j<n> kernelrelease`. */
  function KernelReleaseArgv(n: int): seq<string> {
    ["make", "-s", JobsFlag(n), "kernelrelease"]
  }

  /** The build: `make -j<n> <make target>`. */
  function MakeArgv(n: int, makeTarget: string): seq<string> {
    ["make", JobsFlag(n), makeTarget]
  }

  /** The kernel ARCH of a cross-compilation target; any other target is not in the table. */
  function Arch(target: string): (r: Option<string>)
    ensures r == Some("arm64") <==> target == "aarch64"
    ensures r == Some("x86") <==> target == "x86_64"
    ensures r.None? <==> target != "aarch64" && target != "x86_64"
  {
    var table := map["aarch64" := "arm64", "x86_64" := "x86"];
    if target in table then Some(table[target]) else None
  }

  /** The variables set whatever the target. */
  const LocaleKeys: set<string> := {"LANGUAGE", "LANG", "EXTRAVERSION", "LOCALVERSION"}

  /** The environment of the kernelrelease query, or the KeyError of an unknown target. */
  function BuildEnv(inherited: Env, spec: BuildSpec): (r: Result<Env, Error>)
    ensures r.Failure? <==> spec.target.Some? && Arch(spec.target.value).None?
    ensures r.Failure? ==> r.error == KeyError(spec.target.value)
    ensures r.Success? ==>
      r.value.Keys == inherited.Keys + LocaleKeys + if spec.target.Some? then {"CROSS_COMPILE", "ARCH"} else {}
    ensures r.Success? ==> forall k :: k in inherited && k !in LocaleKeys && k != "CROSS_COMPILE" && k != "ARCH" ==>
      r.value[k] == inherited[k]
    ensures r.Success? ==> r.value["LANGUAGE"] == "C" && r.value["LANG"] == "C" && r.value["EXTRAVERSION"] == ""
    ensures r.Success? ==> r.value["LOCALVERSION"] == "-" + spec.kernelVersion.suffix
    ensures r.Success? && spec.target.Some? ==>
      r.value["CROSS_COMPILE"] == spec.target.value + "-linux-gnu-" && r.value["ARCH"] == Arch(spec.target.value).value
  {
    var env := inherited["LANGUAGE" := "C"]["LANG" := "C"]["EXTRAVERSION" := ""]
                        ["LOCALVERSION" := "-" + spec.kernelVersion.suffix];
    match spec.target
    case None => Success(env)
    case Some(t) =>
      match Arch(t)
      case None => Failure(KeyError(t))
      case Some(a) => Success(env["CROSS_COMPILE" := t + "-linux-gnu-"]["ARCH" := a])
  }

  /** KDEB_PKGVERSION: the stripped kernelrelease output, a dash, and the package release in
      decimal. */
  function PkgVersion(stdout: string, pkgrel: int): (v: string)
    ensures |v| > |Strip(stdout)| && v[..|Strip(stdout)|] == Strip(stdout) && v[|Strip(stdout)|] == '-'
    ensures v[|Strip(stdout)| + 1..] == IntToString(pkgrel)
  {
    var k := Strip(stdout);
    var v := k + "-" + IntToString(pkgrel);
    assert v[..|k|] == k && v[|k|] == '-' && v[|k| + 1..] == IntToString(pkgrel);
    v
  }

  /** The package release reads back from KDEB_PKGVERSION. */
  lemma {:induction false} PkgrelReadsBack(stdout: string, pkgrel: int)
    ensures ParseInt(PkgVersion(stdout, pkgrel)[|Strip(stdout)| + 1..]) == Some(pkgrel)
  {
    ParseIntToString(pkgrel);
  }

  /** A file `make bindeb-pkg` leaves next to the source tree. */
  predicate IsDebArtifact(name: string) {
    EndsWith(name, ".deb") || EndsWith(name, ".buildinfo") || EndsWith(name, ".changes")
  }

  /** The directories after package_make: out/ exists and every package, buildinfo and
      changes file of the source tree's parent is in it under its own name. */
  function AfterBuild(dirs: Dirs, spec: BuildSpec): (r: Dirs)
    requires ParentDir(spec.dirKernelSrc) in dirs && ParentDir(spec.dirKernelSrc) != OutDir(spec.dirBase)
    ensures var src, out := ParentDir(spec.dirKernelSrc), OutDir(spec.dirBase);
      && r.Keys == dirs.Keys + {out}
      && (forall d :: d in dirs && d != src && d != out ==> r[d] == dirs[d])
      && r[src] == Keep(dirs[src], IsDebArtifact)
      && (forall f :: f in r[out] <==> (out in dirs && f in dirs[out]) || (f in dirs[src] && IsDebArtifact(f)))
  {
    Collect(dirs, ParentDir(spec.dirKernelSrc), OutDir(spec.dirBase), IsDebArtifact)
  }

  /** The environment built step by step, as package_make does; the unknown target's KeyError
      is raised after CROSS_COMPILE is set. */
  method MakeEnv(inherited: Env, spec: BuildSpec) returns (r: Result<Env, Error>)
    ensures r == BuildEnv(inherited, spec)
  {
    var env := inherited;
    env := env["LANGUAGE" := "C"];
    env := env["LANG" := "C"];
    env := env["EXTRAVERSION" := ""];
    env := env["LOCALVERSION" := "-" + spec.kernelVersion.suffix];
    if spec.target.Some? {
      env := env["CROSS_COMPILE" := spec.target.value + "-linux-gnu-"];
      var arch := Arch(spec.target.value);
      if arch.None? {
        return Failure(KeyError(spec.target.value));
      }
      env := env["ARCH" := arch.value];
    }
    r := Success(env);
  }

  /** package_make. `stdout` is what the kernelrelease query prints; `fs` is the state the
      build leaves behind. */
  method PackageMake(fs: Fs, inherited: Env, spec: BuildSpec, stdout: string) returns (trace: Trace)
    requires ParentDir(spec.dirKernelSrc) in fs.dirs && ParentDir(spec.dirKernelSrc) != OutDir(spec.dirBase)
    modifies fs
    ensures var sed := Invocation(SedArgv(spec.dirKernelSrc), inherited);
      match BuildEnv(inherited, spec)
      case Failure(e) => trace == Trace([sed], Some(e)) && fs.dirs == old(fs.dirs)
      case Success(env) =>
        && trace == Trace([sed, Invocation(KernelReleaseArgv(spec.nprocs), env),
                           Invocation(MakeArgv(spec.nprocs, spec.makeTarget),
                                      env["KDEB_PKGVERSION" := PkgVersion(stdout, spec.kernelVersion.pkgrel)])],
                          None)
        && fs.dirs == AfterBuild(old(fs.dirs), spec)
  {
    var sed := Invocation(SedArgv(spec.dirKernelSrc), inherited);
    var made := MakeEnv(inherited, spec);
    if made.Failure? {
      return Trace([sed], Some(made.error));
    }
    var env := made.value;
    var release := Invocation(KernelReleaseArgv(spec.nprocs), env);
    var kernelrelease := Strip(stdout);
    env := env["KDEB_PKGVERSION" := kernelrelease + "-" + IntToString(spec.kernelVersion.pkgrel)];
    var build := Invocation(MakeArgv(spec.nprocs, spec.makeTarget), env);
    fs.CollectInto(ParentDir(spec.dirKernelSrc), OutDir(spec.dirBase), IsDebArtifact);
    trace := Trace([sed, release, build], None);
  }

  /** cmd_build. */
  method CmdBuild(fs: Fs, inherited: Env, args: BuildArgs, base: Path, cwd: Path, stdout: string)
    returns (trace: Trace)
    requires ParentDir(cwd) in fs.dirs && ParentDir(cwd) != OutDir(base)
    modifies fs
    ensures trace.calls != [] && trace.calls[0] == Invocation(SedArgv(cwd), inherited)
    ensures trace.raised.Some? <==> args.target != "" && Arch(args.target).None?
    ensures trace.raised.Some? ==> trace.raised == Some(KeyError(args.target)) && fs.dirs == old(fs.dirs)
    ensures var spec := SpecOf(args, base, cwd);
      match BuildEnv(inherited, spec)
      case Failure(_) => trace.calls == [Invocation(SedArgv(cwd), inherited)]
      case Success(env) =>
        && trace == Trace([Invocation(SedArgv(cwd), inherited),
                           Invocation(KernelReleaseArgv(args.j), env),
                           Invocation(MakeArgv(args.j, args.maketarget),
                                      env["KDEB_PKGVERSION" := PkgVersion(stdout, args.pkgrel)])],
                          None)
        && fs.dirs == AfterBuild(old(fs.dirs), spec)
  {
    trace := PackageMake(fs, inherited, SpecOf(args, base, cwd), stdout);
  }

  /** The recorded options config, clean, htmldocs and signature change neither the
      environment nor an argument vector. */
  lemma {:induction false} UnusedOptions(inherited: Env, spec: BuildSpec, other: BuildSpec)
    requires other == spec.(config := other.config, clean := other.clean,
                            htmldocs := other.htmldocs, signature := other.signature)
    ensures BuildEnv(inherited, other) == BuildEnv(inherited, spec)
    ensures SedArgv(other.dirKernelSrc) == SedArgv(spec.dirKernelSrc)
    ensures KernelReleaseArgv(other.nprocs) == KernelReleaseArgv(spec.nprocs)
    ensures MakeArgv(other.nprocs, other.makeTarget) == MakeArgv(spec.nprocs, spec.makeTarget)
  {
  }

  /** cmd_package_clean does nothing. */
  method CmdPackageClean(fs: Fs) returns (r: Outcome<Error>)
    ensures r == Pass
  {
    r := Pass;
  }

  /** The message Python gives for cmd_package_clean() called with no argument. */
  const CleanArity := "cmd_package_clean() missing 1 required positional argument: 'args'"

  /** cmd_package_clean_all as written: its call of cmd_package_clean() lacks the argument, so
      it raises before out/ is removed. */
  method CmdPackageCleanAll(fs: Fs, base: Path) returns (r: Outcome<Error>)
    ensures r == Fail(TypeError(CleanArity))
  {
    r := Fail(TypeError(CleanArity));
  }

  /** cmd_package_clean_all with the argument passed on: out/ and everything below it removed,
      nothing else changed. */
  method CmdPackageCleanAllFixed(fs: Fs, base: Path)
    modifies fs
    ensures fs.dirs == WithoutTree(old(fs.dirs), OutDir(base))
  {
    var _ := CmdPackageClean(fs);
    fs.RemoveTree(OutDir(base));
  }

  /** cmd_package: `clean` does nothing, `clean-all` raises as written, anything else does
      nothing. */
  method CmdPackage(fs: Fs, base: Path, subcommand: string) returns (r: Outcome<Error>)
    ensures r == if subcommand == "clean-all" then Fail(TypeError(CleanArity)) else Pass
  {
    r := Pass;
    if subcommand == "clean" {
      r := CmdPackageClean(fs);
    } else if subcommand == "clean-all" {
      r := CmdPackageCleanAll(fs, base);
    }
  }

  /** A second collection right after a build changes nothing. */
  lemma {:induction false} BuildTwice(dirs: Dirs, spec: BuildSpec)
    requires ParentDir(spec.dirKernelSrc) in dirs && ParentDir(spec.dirKernelSrc) != OutDir(spec.dirBase)
    ensures var once := AfterBuild(dirs, spec); AfterBuild(once, spec) == once
  {
    CollectTwice(dirs, ParentDir(spec.dirKernelSrc), OutDir(spec.dirBase), IsDebArtifact);
  }
}
