/**
 * arch/kpkg.py: the Arch Linux helper with package signing and a package release number.
 * `build` gathers the arguments into a build spec, runs makepkg with the spec in the
 * environment and collects packages and signatures into out/; `p clean` removes what a
 * build leaves behind. The script's directory (DIR_BASE) is the parameter `base`.
 */
module ArchKpkg {
  import opened Wrappers
  import opened Text
  import opened Process
  import opened FileSystem

  /** The parsed `build` arguments. */
  datatype BuildArgs = BuildArgs(
    suffix: string, config: string, clean: string, htmldocs: bool,
    sign: bool, key: string, pkgrel: int, j: int)

  /** The `build` defaults; `cpu` is multiprocessing.cpu_count(). */
  function DefaultBuildArgs(cpu: int): (a: BuildArgs)
    ensures a.suffix == "" && a.config == "" && a.clean == "" && !a.htmldocs
    ensures !a.sign && a.key == "" && a.pkgrel == 1 && a.j == cpu
  {
    BuildArgs("", "", "", false, false, "", 1, cpu)
  }

  datatype KernelVersion = KernelVersion(suffix: string, pkgrel: int)
  datatype Signature = Signature(sign: bool, key: string)

  /** The build spec cmd_build hands to package_make. */
  datatype BuildSpec = BuildSpec(
    nprocs: int, config: string, clean: string, htmldocs: bool,
    dirKernelSrc: Path, dirBase: Path,
    kernelVersion: KernelVersion, signature: Signature)

  function KernelSource(base: Path): Path { base + ["linux"] }
  function OutDir(base: Path): Path { base + ["out"] }
  function SrcDir(base: Path): Path { base + ["src"] }
  function PkgDir(base: Path): Path { base + ["pkg"] }

  const InstallFile := "linux.install.pkg"

  /** cmd_build: every argument lands in the spec field of the same meaning. */
  function SpecOf(args: BuildArgs, base: Path): (spec: BuildSpec)
    ensures spec.nprocs == args.j && spec.config == args.config
    ensures spec.clean == args.clean && spec.htmldocs == args.htmldocs
    ensures spec.dirKernelSrc == KernelSource(base) && spec.dirBase == base
    ensures spec.kernelVersion == KernelVersion(args.suffix, args.pkgrel)
    ensures spec.signature == Signature(args.sign, args.key)
  {
    BuildSpec(args.j, args.config, args.clean, args.htmldocs, KernelSource(base), base,
              KernelVersion(args.suffix, args.pkgrel), Signature(args.sign, args.key))
  }

  /** The variables package_make sets on top of the inherited environment. */
  const BuildKeys: set<string> :=
    {"KBUILD_KERNELSRC", "KBUILD_SUFFIX", "KBUILD_RELEASE", "KBUILD_CONFIG", "KBUILD_CLEAN", "KBUILD_HTMLDOCS"}

  /** The environment makepkg is given; `realpath` is os.path.realpath. */
  function BuildEnv(inherited: Env, spec: BuildSpec, realpath: string -> string): (env: Env)
    ensures env.Keys == inherited.Keys + BuildKeys
    ensures forall k :: k in inherited && k !in BuildKeys ==> env[k] == inherited[k]
    ensures env["KBUILD_KERNELSRC"] == Show(spec.dirKernelSrc)
    ensures env["KBUILD_SUFFIX"] == spec.kernelVersion.suffix
    ensures env["KBUILD_RELEASE"] == IntToString(spec.kernelVersion.pkgrel)
    ensures env["KBUILD_CONFIG"] == if spec.config == "" then "" else realpath(spec.config)
    ensures env["KBUILD_CLEAN"] == spec.clean
    ensures env["KBUILD_HTMLDOCS"] == if spec.htmldocs then "y" else "n"
  {
    inherited["KBUILD_KERNELSRC" := Show(spec.dirKernelSrc)]
             ["KBUILD_SUFFIX" := spec.kernelVersion.suffix]
             ["KBUILD_RELEASE" := IntToString(spec.kernelVersion.pkgrel)]
             ["KBUILD_CONFIG" := if spec.config != "" then realpath(spec.config) else ""]
             ["KBUILD_CLEAN" := spec.clean]
             ["KBUILD_HTMLDOCS" := if spec.htmldocs then "y" else "n"]
  }

  /** The release number reads back from KBUILD_RELEASE. */
  lemma {:induction false} ReleaseReadsBack(inherited: Env, spec: BuildSpec, realpath: string -> string)
    ensures ParseInt(BuildEnv(inherited, spec, realpath)["KBUILD_RELEASE"]) == Some(spec.kernelVersion.pkgrel)
  {
    ParseIntToString(spec.kernelVersion.pkgrel);
  }

  /** makepkg's own flags: `-fs`, then `--sign` exactly when signing, then `--key <key>`
      exactly when a key is named. */
  function PkgFlags(signature: Signature): (flags: seq<string>)
    ensures |flags| == 1 + (if signature.sign then 1 else 0) + (if signature.key != "" then 2 else 0)
    ensures flags[0] == "-fs"
    ensures signature.sign <==> |flags| > 1 && flags[1] == "--sign"
    ensures signature.key != "" ==> flags[|flags| - 2..] == ["--key", signature.key]
  {
    var signed := if signature.sign then ["-fs", "--sign"] else ["-fs"];
    if signature.key != "" then signed + ["--key", signature.key] else signed
  }

  const MakeFlags := "MAKEFLAGS=-j"

  /** makepkg's argument vector: the tool, its flags, and MAKEFLAGS carrying the job count in
      decimal. */
  function BuildArgv(spec: BuildSpec): (argv: seq<string>)
    ensures |argv| == |PkgFlags(spec.signature)| + 2
    ensures argv[0] == "makepkg"
    ensures argv[1..|argv| - 1] == PkgFlags(spec.signature)
    ensures StartsWith(argv[|argv| - 1], MakeFlags)
    ensures argv[|argv| - 1][|MakeFlags|..] == IntToString(spec.nprocs)
  {
    var flags := MakeFlags + IntToString(spec.nprocs);
    assert flags[|MakeFlags|..] == IntToString(spec.nprocs);
    var argv := ["makepkg"] + PkgFlags(spec.signature) + [flags];
    assert argv[1..|argv| - 1] == PkgFlags(spec.signature);
    argv
  }

  /** The job count reads back from the MAKEFLAGS assignment. */
  lemma {:induction false} JobsReadBack(spec: BuildSpec)
    ensures var argv := BuildArgv(spec); ParseInt(argv[|argv| - 1][|MakeFlags|..]) == Some(spec.nprocs)
  {
    ParseIntToString(spec.nprocs);
  }

  /** A package makepkg produced, compressed with xz or zstd. */
  predicate IsPackage(name: string) {
    EndsWith(name, ".pkg.tar.xz") || EndsWith(name, ".pkg.tar.zst")
  }

  /** A detached signature. */
  predicate IsSignature(name: string) {
    EndsWith(name, ".sig")
  }

  predicate IsArtifact(name: string) {
    IsPackage(name) || IsSignature(name)
  }

  /** No name is both a package and a signature, so no file is moved twice. */
  lemma {:induction false} ArtifactTestsDisjoint(name: string)
    ensures !(IsPackage(name) && IsSignature(name))
    ensures !(EndsWith(name, ".pkg.tar.xz") && IsSignature(name))
  {
    if IsSignature(name) {
      assert name[|name| - 1] == 'g';
    }
  }

  /** The directories after package_make: out/ exists, every package and signature of the
      base directory is in it under its own name, linux.install.pkg is gone, and nothing else
      changed. */
  function AfterBuild(dirs: Dirs, base: Path): (r: Dirs)
    requires base in dirs
    ensures r.Keys == dirs.Keys + {OutDir(base)}
    ensures forall d :: d in dirs && d != base && d != OutDir(base) ==> r[d] == dirs[d]
    ensures forall f :: f in r[base] <==> f in dirs[base] && !IsArtifact(f) && f != InstallFile
    ensures forall f :: f in r[base] ==> r[base][f] == dirs[base][f]
    ensures forall f :: f in r[OutDir(base)] <==>
      (OutDir(base) in dirs && f in dirs[OutDir(base)]) || (f in dirs[base] && IsArtifact(f))
    ensures forall f :: f in r[OutDir(base)] ==>
      r[OutDir(base)][f] == if f in dirs[base] && IsArtifact(f) then dirs[base][f] else dirs[OutDir(base)][f]
  {
    var collected := Collect(dirs, base, OutDir(base), IsArtifact);
    collected[base := collected[base] - {InstallFile}]
  }

  /** The listdir loop of package_make, with its package test and its signature test. */
  method MoveArtifacts(fs: Fs, base: Path)
    requires base in fs.dirs && OutDir(base) in fs.dirs
    modifies fs
    ensures fs.dirs == MoveSome(old(fs.dirs), base, OutDir(base), Names(old(fs.dirs)[base], IsArtifact))
  {
    ghost var d0 := fs.dirs;
    var out := OutDir(base);
    var pending := fs.dirs[base].Keys;
    assert Names(d0[base], IsArtifact) - pending == {};
    MoveNone(d0, base, out);
    while pending != {}
      invariant base in fs.dirs && out in fs.dirs
      invariant pending <= d0[base].Keys
      invariant fs.dirs == MoveSome(d0, base, out, Names(d0[base], IsArtifact) - pending)
      decreases pending
    {
      var file :| file in pending;
      ghost var done := Names(d0[base], IsArtifact) - pending;
      pending := pending - {file};
      ArtifactTestsDisjoint(file);
      if IsPackage(file) {
        MoveSomeStep(d0, base, out, done, file);
        fs.Move(base, out, file);
      }
      if IsSignature(file) {
        MoveSomeStep(d0, base, out, done, file);
        fs.Move(base, out, file);
      }
      if IsArtifact(file) {
        assert done + {file} == Names(d0[base], IsArtifact) - pending;
      } else {
        assert done == Names(d0[base], IsArtifact) - pending;
      }
    }
    assert Names(d0[base], IsArtifact) - pending == Names(d0[base], IsArtifact);
  }

  /** package_make. `fs` is the state makepkg leaves behind; the result is the makepkg call. */
  method PackageMake(fs: Fs, inherited: Env, spec: BuildSpec, realpath: string -> string)
    returns (makepkg: Invocation)
    requires spec.dirBase in fs.dirs
    modifies fs
    ensures makepkg == Invocation(BuildArgv(spec), BuildEnv(inherited, spec, realpath))
    ensures fs.dirs == AfterBuild(old(fs.dirs), spec.dirBase)
  {
    var env := BuildEnv(inherited, spec, realpath);
    var pkgflags := PkgFlags(spec.signature);
    makepkg := Invocation(BuildArgv(spec), env);
    var base := spec.dirBase;
    if OutDir(base) !in fs.dirs {
      fs.MakeDir(OutDir(base));
    }
    MoveArtifacts(fs, base);
    fs.RemoveIfExists(base, InstallFile);
  }

  /** cmd_build. */
  method CmdBuild(fs: Fs, inherited: Env, args: BuildArgs, base: Path, realpath: string -> string)
    returns (makepkg: Invocation)
    requires base in fs.dirs
    modifies fs
    ensures makepkg == Invocation(BuildArgv(SpecOf(args, base)), BuildEnv(inherited, SpecOf(args, base), realpath))
    ensures fs.dirs == AfterBuild(old(fs.dirs), base)
  {
    makepkg := PackageMake(fs, inherited, SpecOf(args, base), realpath);
  }

  /** What `p clean` deletes from the base directory: xz packages (not zstd ones) and signatures. */
  predicate IsCleaned(name: string) {
    EndsWith(name, ".pkg.tar.xz") || IsSignature(name)
  }

  /** The directories after `p clean`: src/ and pkg/ gone, the xz packages, the signatures
      and linux.install.pkg removed from the base directory, and nothing else changed. */
  function AfterClean(dirs: Dirs, base: Path): (r: Dirs)
    requires base in dirs
    ensures forall d :: d in r <==> d in dirs && !(SrcDir(base) <= d) && !(PkgDir(base) <= d)
    ensures base in r
    ensures forall d :: d in r && d != base ==> r[d] == dirs[d]
    ensures forall f :: f in r[base] <==> f in dirs[base] && !IsCleaned(f) && f != InstallFile
    ensures forall f :: f in r[base] ==> r[base][f] == dirs[base][f]
    ensures OutDir(base) in dirs ==> OutDir(base) in r && r[OutDir(base)] == dirs[OutDir(base)]
  {
    Beside(base, "src", "out");
    Beside(base, "pkg", "out");
    var pruned := WithoutTree(WithoutTree(dirs, SrcDir(base)), PkgDir(base));
    pruned[base := Keep(pruned[base], IsCleaned) - {InstallFile}]
  }

  /** The listdir loop of cmd_package_clean, with its package test and its signature test. */
  method RemoveArtifacts(fs: Fs, base: Path)
    requires base in fs.dirs
    modifies fs
    ensures fs.dirs == old(fs.dirs)[base := Keep(old(fs.dirs)[base], IsCleaned)]
  {
    ghost var d0 := fs.dirs;
    var pending := fs.dirs[base].Keys;
    assert fs.dirs[base] == map f | f in d0[base] && (f in pending || !IsCleaned(f)) :: d0[base][f];
    while pending != {}
      invariant base in fs.dirs && pending <= d0[base].Keys
      invariant fs.dirs == d0[base := map f | f in d0[base] && (f in pending || !IsCleaned(f)) :: d0[base][f]]
      decreases pending
    {
      var file :| file in pending;
      pending := pending - {file};
      ArtifactTestsDisjoint(file);
      if EndsWith(file, ".pkg.tar.xz") {
        fs.Remove(base, file);
      }
      if IsSignature(file) {
        fs.Remove(base, file);
      }
      assert fs.dirs[base] == map g | g in d0[base] && (g in pending || !IsCleaned(g)) :: d0[base][g];
    }
    assert fs.dirs[base] == Keep(d0[base], IsCleaned);
  }

  /** cmd_package_clean, without the chmod of pkg/. */
  method CmdPackageClean(fs: Fs, base: Path)
    requires base in fs.dirs
    modifies fs
    ensures fs.dirs == AfterClean(old(fs.dirs), base)
  {
    fs.RemoveTree(SrcDir(base));
    fs.RemoveTree(PkgDir(base));
    RemoveArtifacts(fs, base);
    fs.RemoveIfExists(base, InstallFile);
  }

  /** The message Python gives for cmd_package_clean() called with no argument. */
  const CleanArity := "cmd_package_clean() missing 1 required positional argument: 'args'"

  /** cmd_package_clean_all as written: its call of cmd_package_clean() lacks the argument, so
      it raises before anything is removed. */
  method CmdPackageCleanAll(fs: Fs, base: Path) returns (r: Outcome<Error>)
    requires base in fs.dirs
    ensures r == Fail(TypeError(CleanArity))
  {
    r := Fail(TypeError(CleanArity));
  }

  /** The directories after `p clean-all` as intended: those after `p clean`, with out/
      removed as well. */
  function AfterCleanAll(dirs: Dirs, base: Path): (r: Dirs)
    requires base in dirs
    ensures forall d :: d in r <==>
      d in dirs && !(SrcDir(base) <= d) && !(PkgDir(base) <= d) && !(OutDir(base) <= d)
    ensures base in r && r[base] == AfterClean(dirs, base)[base]
    ensures forall d :: d in r && d != base ==> r[d] == dirs[d]
  {
    WithoutTree(AfterClean(dirs, base), OutDir(base))
  }

  /** cmd_package_clean_all with the argument passed on. */
  method CmdPackageCleanAllFixed(fs: Fs, base: Path)
    requires base in fs.dirs
    modifies fs
    ensures fs.dirs == AfterCleanAll(old(fs.dirs), base)
  {
    CmdPackageClean(fs, base);
    fs.RemoveTree(OutDir(base));
  }

  /** The intended clean-all removes out/, which the one as written never reaches. */
  lemma {:induction false} CleanAllRemovesOut(dirs: Dirs, base: Path)
    requires base in dirs && OutDir(base) in dirs
    ensures OutDir(base) !in AfterCleanAll(dirs, base)
    ensures OutDir(base) in AfterClean(dirs, base)
  {
  }

  /** cmd_package: `clean` cleans, `clean-all` raises as written, anything else does nothing. */
  method CmdPackage(fs: Fs, base: Path, subcommand: string) returns (r: Outcome<Error>)
    requires base in fs.dirs
    modifies fs
    ensures subcommand == "clean" ==> r == Pass && fs.dirs == AfterClean(old(fs.dirs), base)
    ensures subcommand == "clean-all" ==> r == Fail(TypeError(CleanArity)) && fs.dirs == old(fs.dirs)
    ensures subcommand != "clean" && subcommand != "clean-all" ==> r == Pass && fs.dirs == old(fs.dirs)
  {
    r := Pass;
    if subcommand == "clean" {
      CmdPackageClean(fs, base);
    } else if subcommand == "clean-all" {
      r := CmdPackageCleanAll(fs, base);
    }
  }

  /** A second collection right after a build changes nothing. */
  lemma {:induction false} BuildTwice(dirs: Dirs, base: Path)
    requires base in dirs
    ensures var once := AfterBuild(dirs, base); AfterBuild(once, base) == once
  {
    var once := AfterBuild(dirs, base);
    CollectNothing(once, base, OutDir(base), IsArtifact);
    assert once[base] - {InstallFile} == once[base];
  }

  /** `p clean` keeps the zstd packages a build may leave in the base directory. */
  lemma {:induction false} CleanKeepsZstd(dirs: Dirs, base: Path, name: string)
    requires base in dirs && name in dirs[base] && EndsWith(name, ".pkg.tar.zst")
    ensures name in AfterClean(dirs, base)[base]
  {
    ArtifactTestsDisjoint(name);
  }
}
