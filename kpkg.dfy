/**
 * kpkg.py: the Arch Linux helper at the top of the repository. `build` runs makepkg in
 * the script's directory with the build options in the environment, then collects the
 * packages into out/; `p clean` and `p clean-all` remove what a build leaves behind.
 * The script's directory (DIR_BASE) is the parameter `base`.
 */
module Kpkg {
  import opened Wrappers
  import opened Text
  import opened Process
  import opened FileSystem
  import Maps

  /** The parsed `build` arguments. */
  datatype BuildArgs = BuildArgs(suffix: string, config: string, clean: string, htmldocs: bool, cores: int)

  /** The `build` defaults; `cpu` is multiprocessing.cpu_count(). */
  function DefaultBuildArgs(cpu: int): (a: BuildArgs)
    ensures a.suffix == "" && a.config == "" && a.clean == "" && !a.htmldocs
    ensures a.cores == cpu
  {
    BuildArgs("", "", "", false, cpu)
  }

  function KernelSource(base: Path): Path { base + ["linux"] }
  function OutDir(base: Path): Path { base + ["out"] }
  function SrcDir(base: Path): Path { base + ["src"] }
  function PkgDir(base: Path): Path { base + ["pkg"] }

  const InstallFile := "linux.install.pkg"

  /** A file makepkg produced. */
  predicate IsPackage(name: string) {
    EndsWith(name, ".pkg.tar.xz")
  }

  /** The variables package_make sets on top of the inherited environment. */
  const BuildKeys: set<string> :=
    {"KBUILD_KERNELSRC", "KBUILD_SUFFIX", "KBUILD_CONFIG", "KBUILD_CLEAN", "KBUILD_HTMLDOCS"}

  /** The environment makepkg is given; `realpath` is os.path.realpath. */
  function BuildEnv(inherited: Env, base: Path, args: BuildArgs, realpath: string -> string): (env: Env)
    ensures env.Keys == inherited.Keys + BuildKeys
    ensures forall k :: k in inherited && k !in BuildKeys ==> env[k] == inherited[k]
    ensures env["KBUILD_KERNELSRC"] == Show(KernelSource(base))
    ensures env["KBUILD_SUFFIX"] == args.suffix
    ensures env["KBUILD_CONFIG"] == if args.config == "" then "" else realpath(args.config)
    ensures env["KBUILD_CLEAN"] == args.clean
    ensures env["KBUILD_HTMLDOCS"] == if args.htmldocs then "y" else "n"
  {
    inherited["KBUILD_KERNELSRC" := Show(KernelSource(base))]
             ["KBUILD_SUFFIX" := args.suffix]
             ["KBUILD_CONFIG" := if args.config != "" then realpath(args.config) else ""]
             ["KBUILD_CLEAN" := args.clean]
             ["KBUILD_HTMLDOCS" := if args.htmldocs then "y" else "n"]
  }

  const MakeFlags := "MAKEFLAGS=-j"

  /** makepkg's argument vector: the tool, `-fs`, and MAKEFLAGS carrying the job count in decimal. */
  function BuildArgv(cores: int): (argv: seq<string>)
    ensures |argv| == 3 && argv[0] == "makepkg" && argv[1] == "-fs"
    ensures StartsWith(argv[2], MakeFlags) && argv[2][|MakeFlags|..] == IntToString(cores)
  {
    var flags := MakeFlags + IntToString(cores);
    assert flags[|MakeFlags|..] == IntToString(cores);
    ["makepkg", "-fs", flags]
  }

  /** The job count reads back from the MAKEFLAGS assignment. */
  lemma {:induction false} CoresReadBack(cores: int)
    ensures ParseInt(BuildArgv(cores)[2][|MakeFlags|..]) == Some(cores)
  {
    ParseIntToString(cores);
  }

  /** The directories after package_make: out/ exists, every package of the base directory is
      in it under its own name, linux.install.pkg is gone, and nothing else changed. */
  function AfterBuild(dirs: Dirs, base: Path): (r: Dirs)
    requires base in dirs
    ensures r.Keys == dirs.Keys + {OutDir(base)}
    ensures forall d :: d in dirs && d != base && d != OutDir(base) ==> r[d] == dirs[d]
    ensures forall f :: f in r[base] <==> f in dirs[base] && !IsPackage(f) && f != InstallFile
    ensures forall f :: f in r[base] ==> r[base][f] == dirs[base][f]
    ensures forall f :: f in r[OutDir(base)] <==>
      (OutDir(base) in dirs && f in dirs[OutDir(base)]) || (f in dirs[base] && IsPackage(f))
    ensures forall f :: f in r[OutDir(base)] ==>
      r[OutDir(base)][f] == if f in dirs[base] && IsPackage(f) then dirs[base][f] else dirs[OutDir(base)][f]
  {
    var collected := Collect(dirs, base, OutDir(base), IsPackage);
    collected[base := collected[base] - {InstallFile}]
  }

  /** package_make. `fs` is the state makepkg leaves behind; the result is the makepkg call. */
  method PackageMake(fs: Fs, inherited: Env, base: Path, args: BuildArgs, realpath: string -> string)
    returns (makepkg: Invocation)
    requires base in fs.dirs
    modifies fs
    ensures makepkg == Invocation(BuildArgv(args.cores), BuildEnv(inherited, base, args, realpath))
    ensures fs.dirs == AfterBuild(old(fs.dirs), base)
  {
    var env := BuildEnv(inherited, base, args, realpath);
    makepkg := Invocation(BuildArgv(args.cores), env);
    fs.CollectInto(base, OutDir(base), IsPackage);
    fs.RemoveIfExists(base, InstallFile);
  }

  /** The directories after `p clean`: src/ and pkg/ gone, the packages and linux.install.pkg
      removed from the base directory, and nothing else changed (out/ included). */
  function AfterClean(dirs: Dirs, base: Path): (r: Dirs)
    requires base in dirs
    ensures forall d :: d in r <==> d in dirs && !(SrcDir(base) <= d) && !(PkgDir(base) <= d)
    ensures base in r
    ensures forall d :: d in r && d != base ==> r[d] == dirs[d]
    ensures forall f :: f in r[base] <==> f in dirs[base] && !IsPackage(f) && f != InstallFile
    ensures forall f :: f in r[base] ==> r[base][f] == dirs[base][f]
    ensures OutDir(base) in dirs ==> OutDir(base) in r && r[OutDir(base)] == dirs[OutDir(base)]
  {
    Beside(base, "src", "out");
    Beside(base, "pkg", "out");
    var pruned := WithoutTree(WithoutTree(dirs, SrcDir(base)), PkgDir(base));
    pruned[base := Keep(pruned[base], IsPackage) - {InstallFile}]
  }

  /** package_cmd_clean, without the chmod of pkg/. */
  method PackageCmdClean(fs: Fs, base: Path)
    requires base in fs.dirs
    modifies fs
    ensures fs.dirs == AfterClean(old(fs.dirs), base)
  {
    fs.RemoveTree(SrcDir(base));
    fs.RemoveTree(PkgDir(base));
    fs.RemoveMatching(base, IsPackage);
    fs.RemoveIfExists(base, InstallFile);
  }

  /** The directories after `p clean-all`: those after `p clean`, with out/ removed as well. */
  function AfterCleanAll(dirs: Dirs, base: Path): (r: Dirs)
    requires base in dirs
    ensures forall d :: d in r <==>
      d in dirs && !(SrcDir(base) <= d) && !(PkgDir(base) <= d) && !(OutDir(base) <= d)
    ensures base in r && r[base] == AfterClean(dirs, base)[base]
    ensures forall d :: d in r && d != base ==> r[d] == dirs[d]
  {
    WithoutTree(AfterClean(dirs, base), OutDir(base))
  }

  /** package_cmd_clean_all. */
  method PackageCmdCleanAll(fs: Fs, base: Path)
    requires base in fs.dirs
    modifies fs
    ensures fs.dirs == AfterCleanAll(old(fs.dirs), base)
  {
    PackageCmdClean(fs, base);
    fs.RemoveTree(OutDir(base));
  }

  /** package_cmd: any subcommand other than the two changes nothing. */
  method PackageCmd(fs: Fs, base: Path, subcommand: string)
    requires base in fs.dirs
    modifies fs
    ensures subcommand == "clean" ==> fs.dirs == AfterClean(old(fs.dirs), base)
    ensures subcommand == "clean-all" ==> fs.dirs == AfterCleanAll(old(fs.dirs), base)
    ensures subcommand != "clean" && subcommand != "clean-all" ==> fs.dirs == old(fs.dirs)
  {
    if subcommand == "clean" {
      PackageCmdClean(fs, base);
    } else if subcommand == "clean-all" {
      PackageCmdCleanAll(fs, base);
    }
  }

  /** A second collection right after a build changes nothing. */
  lemma {:induction false} BuildTwice(dirs: Dirs, base: Path)
    requires base in dirs
    ensures var once := AfterBuild(dirs, base); AfterBuild(once, base) == once
  {
    var once := AfterBuild(dirs, base);
    CollectNothing(once, base, OutDir(base), IsPackage);
    assert once[base] - {InstallFile} == once[base];
  }

  /** Cleaning twice is cleaning once. */
  lemma {:induction false} CleanTwice(dirs: Dirs, base: Path)
    requires base in dirs
    ensures var once := AfterClean(dirs, base); AfterClean(once, base) == once
  {
    var once := AfterClean(dirs, base);
    var twice := AfterClean(once, base);
    assert twice[base] == once[base];
    assert twice.Keys == once.Keys;
  }

  /** A clean after a build leaves the base directory as a clean alone would, and the
      collected packages in out/. */
  lemma {:induction false} CleanAfterBuild(dirs: Dirs, base: Path)
    requires base in dirs
    ensures var built := AfterBuild(dirs, base);
      AfterClean(built, base)[base] == AfterClean(dirs, base)[base]
      && AfterClean(built, base)[OutDir(base)] == built[OutDir(base)]
  {
    var built := AfterBuild(dirs, base);
    Maps.SameEntries(AfterClean(built, base)[base], AfterClean(dirs, base)[base]);
  }
}
