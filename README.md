# kernel-pkgscripts, modelled in Dafny

kernel-pkgscripts is a set of helper scripts that build Linux kernel packages for several
distributions. Each script is a thin layer over a native build tool:

- `kpkg.py` (Arch Linux) and `arch/kpkg.py` (Arch Linux with signing and a package release
  number) drive `makepkg`;
- `debian/kpkg.py` drives `make bindeb-pkg` inside the kernel tree;
- `fedora/kpkg.py` drives `rpmbuild` after reading the base version from the kernel Makefile;
- `deb/kpkg.py` builds inside an LXD container over SSH and fetches the packages back.

Every local script has a `build` command and a `p clean` / `p clean-all` command. `build`
turns a parsed build request into a build spec, and the spec into the environment and
argument vector of the native tool. After the tool runs, the script collects what it made
into `out/`. The clean commands remove what a build leaves behind.

This project models that deterministic logic:

- **Requests and invocations.** The request, the build spec, and the environment and
  argument vector derived from them are values. The inherited environment is a parameter.
  `os.path.realpath`, `Path.absolute` and `multiprocessing.cpu_count` are parameters too.
- **Directories.** The directories are a map from absolute path to the regular files
  directly inside, each file as name to content.
- **File operations.** A class `FileSystem.Fs` holds that map. Its methods are the
  `os`/`shutil` calls the scripts make: `mkdir`, `shutil.move`, `os.remove` and
  `shutil.rmtree(..., True)`, plus the `listdir` loops built on them. Each method is proved
  against a function on the map.
- **Native tools.** They are never run. The `Fs` a build method is given is the state the
  tool left behind. Their standard output (kernelrelease, `nproc`, the `find` listing) is a
  parameter.
- **Errors.** A Python exception that ends a script (a `KeyError`, `IndexError`, `TypeError`,
  `ValueError`, or a missing file) is an explicit error value.
- **The remote helper.** The LXD network state is a list of interfaces. The SSH connection
  is the class `DebRemote.Connection`. It records every step asked of it, and a given
  function supplies the output of each remote command. `DebRemote.Makepkg` is proved to take
  exactly the steps of the function `DebRemote.Plan`, in order. The lemmas beside `Plan`
  state the step order and the error cases.

The modules are:

- `Wrappers`: `Option`, `Result` and `Outcome`.
- `Seqs` and `Maps`: small helpers.
- `Text`: Python's `str.strip()`, `str.split()`, `sep.join()`, `str()` of an int, and
  `int()` of a string.
- `Paths`: `PurePosixPath` parsing, `str()`, `/` and `.parent`.
- `FileSystem`: the directory state and the class `Fs`.
- `Process`: invocations, errors and traces.
- One module per script: `Kpkg`, `ArchKpkg`, `DebianKpkg`, `FedoraKpkg` and `DebRemote`.

## Model

| member | source | states |
|---|---|---|
| Text.Strip | fedora/kpkg.py:24 | str.strip(): the result is no longer than the input, starts and ends with non-whitespace (or is empty), and a string without surrounding whitespace is returned unchanged |
| Text.StripRemovesOnlySpace | fedora/kpkg.py:24 | the stripped string is a slice of the input, and everything cut off on either side is whitespace |
| Text.Split | deb/kpkg.py:98 | str.split(): every piece is a non-empty run without whitespace |
| Text.SplitJoin | deb/kpkg.py:88-98 | splitting the single-space join of whitespace-free words gives back exactly those words |
| Text.JoinAppend | deb/kpkg.py:44-51 | joining a concatenation is joining both halves with the separator between them |
| Text.IntToString | kpkg.py:24 | str() of an int is non-empty and starts with '-' exactly when the number is negative |
| Text.NumeralOfNat | kpkg.py:24 | the decimal digits of a natural number read back as that number |
| Text.ParseIntToString | deb/kpkg.py:40 | int(str(i)) == i for every integer i |
| Text.StripKeepsNumber | deb/kpkg.py:40 | stripping str(i) changes nothing |
| Text.NumberAfter | debian/kpkg.py:45 | a number written after a prefix is found as the suffix after that prefix and reads back as the number |
| Text.Before | fedora/kpkg.py:27 | the text before the first occurrence of a character: a prefix without the character, followed by it when shorter than the input |
| Text.SplitSecond | fedora/kpkg.py:27 | split(c)[1]: none exactly when c does not occur; otherwise the text right after the first c, up to the second c or the end, without any c |
| Paths.Parse | deb/kpkg.py:86 | Path(s) is absolute exactly when s starts with '/', and each component is non-empty, not "." and slash-free |
| Paths.ParseStr | deb/kpkg.py:86-107 | str() of a pathlib path parses back to the same path |
| Paths.Concat | deb/kpkg.py:106 | p / s appends the components of s, and an absolute s replaces p |
| Paths.Parent | deb/kpkg.py:86 | .parent drops the last component and keeps absoluteness; the empty path is its own parent |
| FileSystem.ParentDir | debian/kpkg.py:53 | .parent of an absolute directory: adding back the last component gives the path |
| FileSystem.Names | kpkg.py:32-33 | the names of a listing that pass the test, exactly |
| FileSystem.Keep | kpkg.py:47-49 | exactly the files failing the test are kept, with their contents |
| FileSystem.MoveSomeEffect | kpkg.py:32-34 | moving named files takes exactly them out of the source and into the destination, replacing same-named files there; no other directory changes; a move within one directory changes nothing |
| FileSystem.WithoutTree | kpkg.py:44-45 | rmtree(p, True): exactly the directories at or below p are gone and the others keep their files; a missing tree is no error |
| FileSystem.Collect | kpkg.py:29-34 | out/ made when missing, then exactly the matching files moved into it with their contents; the source keeps the rest and no other directory changes |
| FileSystem.CollectNothing | kpkg.py:29-34 | when out/ exists and nothing matches, the collection changes nothing |
| FileSystem.CollectTwice | kpkg.py:29-34 | collecting again right after a collection changes nothing |
| FileSystem.MoveNone | kpkg.py:32-34 | a loop that moves no file changes nothing |
| FileSystem.MoveSomeStep | kpkg.py:32-34 | moving the files one at a time is moving them all at once |
| FileSystem.Fs.MakeDir | kpkg.py:30 | os.mkdir adds one empty directory and changes nothing else |
| FileSystem.Fs.Move | kpkg.py:34 | shutil.move of one file is the move of that one name |
| FileSystem.Fs.Remove | kpkg.py:49 | os.remove deletes exactly one file of one directory |
| FileSystem.Fs.RemoveIfExists | kpkg.py:36-37 | the guarded remove deletes the file when present, and otherwise changes nothing |
| FileSystem.Fs.RemoveTree | kpkg.py:44 | the state afterwards is WithoutTree of the state before |
| FileSystem.Fs.MoveMatching | kpkg.py:32-34 | the listdir loop moves exactly the matching names of the source directory |
| FileSystem.Fs.CollectInto | kpkg.py:29-34 | the mkdir guard followed by the loop has the effect of Collect |
| FileSystem.Fs.RemoveMatching | kpkg.py:47-49 | the listdir loop leaves the directory with exactly its non-matching files and changes nothing else |
| Kpkg.DefaultBuildArgs | kpkg.py:76-81 | the `build` defaults: empty suffix, config and clean target, no htmldocs, and the CPU count as job count |
| Kpkg.BuildEnv | kpkg.py:17-22 | the inherited environment plus exactly the five KBUILD_ variables; other inherited keys unchanged; KBUILD_CONFIG is '' without a config and the resolved path otherwise; KBUILD_HTMLDOCS is y or n |
| Kpkg.BuildArgv | kpkg.py:24-26 | exactly `makepkg -fs MAKEFLAGS=-j<cores>`, the count in decimal |
| Kpkg.CoresReadBack | kpkg.py:24 | the job count reads back from the MAKEFLAGS assignment |
| Kpkg.AfterBuild | kpkg.py:29-37 | out/ exists; exactly the .pkg.tar.xz files of the base directory move into it under their own names; linux.install.pkg is gone; nothing else changes |
| Kpkg.PackageMake | kpkg.py:16-37 | the makepkg call is BuildArgv with BuildEnv, and the directories end as AfterBuild |
| Kpkg.AfterClean | kpkg.py:40-52 | src/ and pkg/ trees gone; the .pkg.tar.xz files and linux.install.pkg removed from the base directory; out/ and everything else untouched |
| Kpkg.PackageCmdClean | kpkg.py:40-52 | the removals leave the state AfterClean |
| Kpkg.AfterCleanAll | kpkg.py:55-57 | clean-all is clean followed by removal of the out/ tree |
| Kpkg.PackageCmdCleanAll | kpkg.py:55-57 | package_cmd_clean_all leaves the state AfterCleanAll |
| Kpkg.PackageCmd | kpkg.py:60-64 | clean and clean-all dispatch to their effects; any other subcommand changes nothing |
| Kpkg.BuildTwice | kpkg.py:29-37 | a second collection right after a build changes nothing |
| Kpkg.CleanTwice | kpkg.py:40-52 | cleaning twice is cleaning once |
| Kpkg.CleanAfterBuild | kpkg.py:16-52 | a clean after a build leaves the base directory as a clean alone would, and keeps the collected packages in out/ |
| ArchKpkg.DefaultBuildArgs | arch/kpkg.py:113-121 | the `build` defaults, including no signing, empty key and release 1 |
| ArchKpkg.SpecOf | arch/kpkg.py:87-106 | cmd_build puts each argument into the spec field of the same meaning, with the kernel tree at base/linux |
| ArchKpkg.BuildEnv | arch/kpkg.py:18-24 | the inherited environment plus exactly the six KBUILD_ variables; KBUILD_RELEASE is str(pkgrel); KBUILD_CONFIG is '' or the resolved path; KBUILD_SUFFIX and KBUILD_CLEAN are copied verbatim; KBUILD_HTMLDOCS is y or n |
| ArchKpkg.ReleaseReadsBack | arch/kpkg.py:21 | the release number reads back from KBUILD_RELEASE |
| ArchKpkg.PkgFlags | arch/kpkg.py:26-31 | `-fs` first; `--sign` present exactly when signing; `--key <key>` last exactly when a key is named |
| ArchKpkg.BuildArgv | arch/kpkg.py:33-35 | makepkg, then the flags, then MAKEFLAGS=-j<n> with n in decimal |
| ArchKpkg.JobsReadBack | arch/kpkg.py:33 | the job count reads back from the MAKEFLAGS assignment |
| ArchKpkg.ArtifactTestsDisjoint | arch/kpkg.py:42-45 | no name is both a package and a signature, so the loop moves no file twice |
| ArchKpkg.AfterBuild | arch/kpkg.py:38-49 | exactly the .pkg.tar.xz, .pkg.tar.zst and .sig files move into out/ under their own names; linux.install.pkg is gone; nothing else changes |
| ArchKpkg.MoveArtifacts | arch/kpkg.py:41-46 | the loop with its two tests moves exactly the artifacts |
| ArchKpkg.PackageMake | arch/kpkg.py:17-49 | the makepkg call is BuildArgv with BuildEnv, and the directories end as AfterBuild |
| ArchKpkg.CmdBuild | arch/kpkg.py:87-106 | the build of the spec cmd_build makes |
| ArchKpkg.AfterClean | arch/kpkg.py:52-67 | src/ and pkg/ gone; .pkg.tar.xz, .sig and linux.install.pkg removed from the base directory; .pkg.tar.zst files, out/ and everything else untouched |
| ArchKpkg.RemoveArtifacts | arch/kpkg.py:59-64 | the loop with its two tests removes exactly the xz packages and the signatures |
| ArchKpkg.CmdPackageClean | arch/kpkg.py:52-67 | the removals leave the state AfterClean |
| ArchKpkg.CleanKeepsZstd | arch/kpkg.py:59-61 | a .pkg.tar.zst file in the base directory survives `p clean` |
| ArchKpkg.CmdPackageCleanAll | arch/kpkg.py:70-72 | as written: raises TypeError for the missing argument and removes nothing |
| ArchKpkg.AfterCleanAll | arch/kpkg.py:70-72 | as intended: the state after clean, with the out/ tree removed as well |
| ArchKpkg.CmdPackageCleanAllFixed | arch/kpkg.py:70-72 | with the argument passed on, the state ends as AfterCleanAll |
| ArchKpkg.CleanAllRemovesOut | arch/kpkg.py:70-72 | the intended clean-all removes an existing out/, which clean alone keeps |
| ArchKpkg.CmdPackage | arch/kpkg.py:75-79 | clean cleans; clean-all raises TypeError with nothing changed; any other subcommand changes nothing |
| ArchKpkg.BuildTwice | arch/kpkg.py:38-49 | a second collection right after a build changes nothing |
| DebianKpkg.DefaultBuildArgs | debian/kpkg.py:109-119 | the `build` defaults: suffix "surface", make target bindeb-pkg, empty target, release 1 |
| DebianKpkg.SpecOf | debian/kpkg.py:79-102 | the arguments go into the spec; an empty target becomes none; the kernel tree is the working directory |
| DebianKpkg.SedArgv | debian/kpkg.py:18-22 | `sed -i <subst> <src>/.config`; the two substitutions are joined by ';', the first emptying CONFIG_LOCALVERSION and the second turning CONFIG_LOCALVERSION_AUTO off |
| DebianKpkg.JobsFlag | debian/kpkg.py:24 | `-j` followed by the job count in decimal |
| DebianKpkg.JobsFlagReadsBack | debian/kpkg.py:24 | the job count reads back from the flag |
| DebianKpkg.Arch | debian/kpkg.py:35-38 | aarch64 maps to arm64 and x86_64 to x86; every other target is missing from the table |
| DebianKpkg.BuildEnv | debian/kpkg.py:26-38 | LANGUAGE=C, LANG=C, EXTRAVERSION='' and LOCALVERSION=-<suffix>; with a target, CROSS_COMPILE=<target>-linux-gnu- and ARCH from the table; a KeyError exactly when the target is not in the table; no other key changes |
| DebianKpkg.MakeEnv | debian/kpkg.py:26-38 | the step-by-step dict updates give BuildEnv, the KeyError included |
| DebianKpkg.PkgVersion | debian/kpkg.py:43-45 | KDEB_PKGVERSION is the stripped kernelrelease output, '-', and pkgrel in decimal |
| DebianKpkg.PkgrelReadsBack | debian/kpkg.py:45 | the release number reads back from KDEB_PKGVERSION |
| DebianKpkg.AfterBuild | debian/kpkg.py:50-55 | out/ exists; exactly the .deb, .buildinfo and .changes files of the kernel tree's parent move into it; the parent keeps only its other files; nothing else changes |
| DebianKpkg.PackageMake | debian/kpkg.py:16-55 | the calls, in order, are `sed`, `make -s -j<n> kernelrelease` and `make -j<n> <make target>` with KDEB_PKGVERSION added; an unknown target raises after sed with no collection; otherwise the directories end as AfterBuild |
| DebianKpkg.CmdBuild | debian/kpkg.py:79-102 | sed runs first; the KeyError is raised exactly for a non-empty target outside the table, and then nothing else runs or changes; otherwise the kernelrelease query runs with `-j<j>` and the environment of the spec built from the request, and make runs with `-j<j>`, the request's make target and KDEB_PKGVERSION set to the stripped release, '-' and the request's pkgrel; the packages are then collected |
| DebianKpkg.UnusedOptions | debian/kpkg.py:83-100 | config, clean, htmldocs and the signature options change neither the environment nor any argument vector |
| DebianKpkg.CmdPackageClean | debian/kpkg.py:58-59 | clean does nothing |
| DebianKpkg.CmdPackageCleanAll | debian/kpkg.py:62-64 | as written: raises TypeError for the missing argument before out/ is removed |
| DebianKpkg.CmdPackageCleanAllFixed | debian/kpkg.py:62-64 | with the argument passed on, exactly the out/ tree is removed |
| DebianKpkg.CmdPackage | debian/kpkg.py:67-71 | clean-all raises TypeError; clean and any other subcommand pass |
| DebianKpkg.BuildTwice | debian/kpkg.py:50-55 | a second collection right after a build changes nothing |
| FedoraKpkg.LevelOf | fedora/kpkg.py:26-31 | a line sets VERSION, PATCHLEVEL or SUBLEVEL exactly when it starts with that name; no line sets two |
| FedoraKpkg.ValueOf | fedora/kpkg.py:27 | `split("=")[1].strip()`: none exactly when the line has no '=' (the IndexError); otherwise the value holds no '=' and starts with non-whitespace |
| FedoraKpkg.StripAll | fedora/kpkg.py:24 | every line is stripped before it is looked at |
| FedoraKpkg.LastSetting | fedora/kpkg.py:26-31 | the line a level last took its value from sets that level and is among the lines read |
| FedoraKpkg.StopFrom | fedora/kpkg.py:33-34 | reading from line n stops after at least one more line, and never past the end |
| FedoraKpkg.StopLine | fedora/kpkg.py:23-34 | the number of lines read is at most the number of lines |
| FedoraKpkg.SettingStep | fedora/kpkg.py:26-31 | a line that sets a level overwrites its value, and any other line keeps it |
| FedoraKpkg.VersionAt | fedora/kpkg.py:33-36 | when reading stops at line k with no bad line, the result is "V.P.S" of the values among the first k lines |
| FedoraKpkg.VersionFails | fedora/kpkg.py:26-31 | a level line without '=' among the lines read raises IndexError |
| FedoraKpkg.GetBaseVersion | fedora/kpkg.py:17-36 | the scan with its three locals and its break yields BaseVersion of the lines |
| FedoraKpkg.StripAllAppend | fedora/kpkg.py:23-24 | stripping line by line distributes over concatenation |
| FedoraKpkg.StopIgnoresRest | fedora/kpkg.py:33-34 | once every level is set, the lines after that make no difference |
| FedoraKpkg.UnsetSubLevelIsNone | fedora/kpkg.py:18-36 | when no line sets SUBLEVEL, every line is read and the version ends in ".None" |
| FedoraKpkg.DefaultBuildArgs | fedora/kpkg.py:129-135 | the `build` defaults: suffix "surface", empty target, release 1, no key or certificate |
| FedoraKpkg.SpecOf | fedora/kpkg.py:105-122 | an empty target becomes none; the key and certificate are present exactly when given, made absolute |
| FedoraKpkg.BuildEnv | fedora/kpkg.py:46-61 | LANGUAGE, LANG, RPM_BUILD_NCPUS, KBUILD_VERSION, KBUILD_RELEASE and KBUILD_SUFFIX always set; KBUILD_SB_KEY, KBUILD_SB_CERT and KBUILD_TOOLCHAIN=<target>-linux-gnu- present exactly when their option is given; no other key changes |
| FedoraKpkg.NumbersReadBack | fedora/kpkg.py:49-51 | the job count and the release read back from their variables |
| FedoraKpkg.BuildArgv | fedora/kpkg.py:63-72 | rpmbuild, the three --define pairs (_topdir, _specdir, _builddir) in order, `--target <target>` exactly when cross-compiling, then `-ba kernel.spec` |
| FedoraKpkg.MoveFirst | fedora/kpkg.py:79-81 | moving the rpms of one architecture directory keeps the set of directories |
| FedoraKpkg.FirstMoveSpares | fedora/kpkg.py:78-81 | the first architecture's move leaves the later ones untouched |
| FedoraKpkg.CollectRpms | fedora/kpkg.py:78-81 | the nested loops keep the set of directories |
| FedoraKpkg.CollectRpmsSpares | fedora/kpkg.py:78-81 | only out/ and the listed architecture directories change |
| FedoraKpkg.EmptiesListed | fedora/kpkg.py:79-81 | each listed architecture directory keeps exactly its files that are not .rpm |
| FedoraKpkg.FillsListed | fedora/kpkg.py:79-81 | out/ ends with what it had plus every .rpm of the listed directories; files no listed directory holds as an rpm keep their content |
| FedoraKpkg.ListedIsChild | fedora/kpkg.py:78 | with the listing os.listdir gives, the listed directories are exactly the directories directly below build/RPMS |
| FedoraKpkg.HarvestedIsBelow | fedora/kpkg.py:78-80 | with that listing, an rpm of a listed directory is exactly an rpm of some directory directly below build/RPMS |
| FedoraKpkg.CollectRpmsEmpties | fedora/kpkg.py:78-81 | with that listing, every directory directly below build/RPMS keeps exactly its files that are not .rpm |
| FedoraKpkg.CollectRpmsFills | fedora/kpkg.py:78-81 | with that listing, out/ ends with what it had plus every .rpm of every directory directly below build/RPMS, flat, under the same name; files no such directory holds as an rpm keep their content |
| FedoraKpkg.CollectAll | fedora/kpkg.py:78-81 | the nested listdir loops give CollectRpms |
| FedoraKpkg.MakeEnv | fedora/kpkg.py:46-61 | the key-by-key dict updates give BuildEnv |
| FedoraKpkg.WithOut | fedora/kpkg.py:75-76 | out/ is added when missing and nothing else changes |
| FedoraKpkg.ListingWithOut | fedora/kpkg.py:42-44 | out/ is neither build/RPMS nor a directory directly below it, so making out/ keeps the listing of build/RPMS complete |
| FedoraKpkg.BuildCollects | fedora/kpkg.py:75-81 | after out/ is made when missing and the rpms collected, in terms of the state rpmbuild left: the directories are those plus out/; out/ holds what it held and every .rpm directly inside any directory below build/RPMS; those directories keep only their other files; every other directory is unchanged |
| FedoraKpkg.PackageMake | fedora/kpkg.py:39-81 | an unreadable Makefile or a bad version line raises before rpmbuild; otherwise rpmbuild is called with BuildArgv and BuildEnv; a missing build/RPMS raises after out/ is made; otherwise the rpms are collected |
| FedoraKpkg.CmdBuild | fedora/kpkg.py:105-122 | an unreadable Makefile or a bad version line raises before rpmbuild; otherwise rpmbuild is called with the argument vector and environment of the spec cmd_build makes; a missing build/RPMS raises after out/ is made; otherwise the rpms are collected |
| FedoraKpkg.CmdPackageClean | fedora/kpkg.py:84-85 | clean removes exactly the build/ tree |
| FedoraKpkg.CmdPackageCleanAll | fedora/kpkg.py:88-90 | as written: raises TypeError for the missing argument and removes nothing |
| FedoraKpkg.CmdPackageCleanAllFixed | fedora/kpkg.py:88-90 | with the argument passed on, the build/ and out/ trees are removed |
| FedoraKpkg.CleanAllRemovesBoth | fedora/kpkg.py:88-90 | the intended clean-all leaves no build/, build/RPMS or out/, and touches nothing outside them |
| FedoraKpkg.CmdPackage | fedora/kpkg.py:93-97 | clean removes build/; clean-all raises TypeError with nothing changed; any other subcommand changes nothing |
| DebRemote.Without | deb/kpkg.py:19-20 | `del net['lo']`: exactly the entries with other names remain |
| DebRemote.FirstMatch | deb/kpkg.py:23-25 | the first address with the family and global scope, with none matching before it; none when no address matches |
| DebRemote.FirstMatchAppend | deb/kpkg.py:22-25 | the first match of a concatenation is the first part's match if it has one, else the second part's |
| DebRemote.GetContainerIp | deb/kpkg.py:18-25 | the nested loop with its early return yields ContainerIp: KeyError without 'lo', otherwise the first matching address in interface order and then address order, or none |
| DebRemote.LoIgnored | deb/kpkg.py:19-20 | the addresses of the 'lo' entry never change the result |
| DebRemote.OverrideCmd | deb/kpkg.py:28-36 | `sed -i "<subst>" "<src>/.config"`, with the same two substitutions the Debian helper uses, joined by ';' |
| DebRemote.FullMakeInserts | deb/kpkg.py:56-80 | the full make is the plain make with the KDEB_PKGVERSION, KDEB_SOURCENAME and KDEB_CHANGELOG_DIST assignments inserted, in that order, just before the target |
| DebRemote.JobsFlagIsWord | deb/kpkg.py:47 | `-j<n>` holds no whitespace |
| DebRemote.KernelReleaseJoin | deb/kpkg.py:43-51 | the kernelrelease command is the single-space join of make, -s, -C, the tree, -j<n>, the two version assignments and kernelrelease |
| DebRemote.KernelReleaseWords | deb/kpkg.py:43-51 | for a tree and versions without whitespace, splitting the command on whitespace gives back exactly those words |
| DebRemote.LocalVersion | deb/kpkg.py:180 | "-surface-<suffix>" when a suffix is given, otherwise "-surface" |
| DebRemote.LocalVersionInjective | deb/kpkg.py:180 | different suffixes give different local versions |
| DebRemote.Connection.RunCmd | deb/kpkg.py:36 | connection.run is logged, and its output is the container's answer to that command |
| DebRemote.Connection.PutFile | deb/kpkg.py:133 | connection.put is logged |
| DebRemote.Connection.GetFile | deb/kpkg.py:106 | connection.get is logged |
| DebRemote.Connection.MakeDirs | deb/kpkg.py:101 | the host-side mkdir is logged |
| DebRemote.FindCmd | deb/kpkg.py:88-94 | the listing command begins `cd <dir>&&find .` with no blank around `&&`, because the first two items are concatenated without a comma, and then `-maxdepth 1` and the name test follow |
| DebRemote.FetchStepsShape | deb/kpkg.py:104-107 | the fetch and the remote removal of the i-th listed file are steps 2i and 2i+1 |
| DebRemote.FetchMakesNoDirs | deb/kpkg.py:104-107 | no fetch or removal step makes a directory |
| DebRemote.MakesOutOnlyWhenListed | deb/kpkg.py:100-101 | the output directory is made exactly when the listing names a file |
| DebRemote.FetchAll | deb/kpkg.py:104-107 | the loop logs, in listed order, each file's fetch followed by its remote removal |
| DebRemote.XferPackages | deb/kpkg.py:85-107 | the listing command, then the directory made when the split listing is non-empty, then the fetches and removals |
| DebRemote.DefaultBuildArgs | deb/kpkg.py:200-206 | the `build` defaults: target deb-pkg, empty suffix, config and clean, release 1, no job count |
| DebRemote.BuildSpec.constructor | deb/kpkg.py:166-191 | cmd_build's spec: tree devel/linux, out/ beside the script, version override on, the local version of the suffix, extra version '', no package version, source name linux-surface, changelog dist unstable, container kdev-deb10 with user build |
| DebRemote.RunPrepare | deb/kpkg.py:124-140 | the clean make when a clean target is given, the config upload when a config is given, and the override when asked for, in that order |
| DebRemote.RunConfigure | deb/kpkg.py:142-146 | oldconfig, then prepare |
| DebRemote.QueryVersion | deb/kpkg.py:148-154 | the kernelrelease query runs only when no package version is set; the version is the set one or the stripped kernelrelease, '-', and the release |
| DebRemote.RunMake | deb/kpkg.py:124-159 | prepare, configure, the version query and the full make, in that order |
| DebRemote.BuildAndFetch | deb/kpkg.py:124-163 | the make phase and then the transfer; the spec keeps its job count and holds the package version afterwards |
| DebRemote.RemoteNproc | deb/kpkg.py:39-40 | `nproc` is run and its stripped answer read by int(); none when int() would raise |
| DebRemote.QueryJobCount | deb/kpkg.py:121-122 | with no job count set, the nproc answer becomes it; the package version is untouched |
| DebRemote.FillJobCount | deb/kpkg.py:121-122 | the nproc query is made exactly when no job count is set, and a set count is kept |
| DebRemote.OpenSession | deb/kpkg.py:112-122 | container start, connection to the address, then the nproc query when needed |
| DebRemote.Makepkg | deb/kpkg.py:110-163 | the steps and the error are exactly Plan's; on success the spec holds the job count and the package version |
| DebRemote.PlanNoLoopback | deb/kpkg.py:112-116 | a network state without 'lo' stops right after the container start, with the KeyError |
| DebRemote.PlanNoJobCount | deb/kpkg.py:119-122 | an nproc answer that is not a number stops right after the query, with ValueError |
| DebRemote.PlanCompleted | deb/kpkg.py:119-163 | past the nproc query, the steps are the connection steps followed by the make phase and the transfer |
| DebRemote.NprocFirst | deb/kpkg.py:121-122 | with no job count set, the first command run in the container is nproc |
| DebRemote.NoNprocWhenSet | deb/kpkg.py:121-122 | with a job count set, no nproc query is made |
| DebRemote.SetVersionKept | deb/kpkg.py:149-154 | a set package version is used unchanged, and no kernelrelease query is made |
| DebRemote.KernelReleaseIsNotMake | deb/kpkg.py:43-66 | the kernelrelease command differs from every plain make command |
| DebRemote.KernelReleaseIsNotFullMake | deb/kpkg.py:43-82 | the kernelrelease command differs from every full make command |
| DebRemote.UnsetVersionFromRelease | deb/kpkg.py:149-154 | an unset package version becomes kernelrelease, '-', pkgrel, and the release reads back |
| DebRemote.CmdBuild | deb/kpkg.py:166-193 | the session is Plan of the spec cmd_build makes |

## Left out

- Running processes (`subprocess`, `communicate`) and what makepkg, rpmbuild, make, sed and
  find do. Their effects on the directories and their output are parameters, and the exit
  status of a native tool is not looked at, as the scripts do not look at it.
- LXD (`pylxd`): getting the container, `container.start()` and `container.state()` are not
  modelled. They appear only as the `StartContainer` step and the given network state.
- SSH (`fabric`): remote commands cannot fail in the model, and `hide`/`pty` are not
  modelled. The connection's close at the end of the `with` block is not a step. A connection
  to host `None` (no address found) is logged like any other.
- The `k` subcommand (`kernel_make`/`cmd_kernel_make`) is not modelled. It passes its
  options to one make process and has no logic of its own.
- `main()` and argparse parsing are not modelled. Each parsed request is a record, built
  from the defaults of the `add_argument` calls.
- `os.chmod` of pkg/ in the Arch clean commands, `print`/`cprint` output and terminal colours
  are not modelled.
- Symlinks, permissions, cross-device moves, and a file and a directory that share a name.
- Directory order: `os.listdir` order is a set iteration when order cannot matter. For
  fedora's build/RPMS it is the given `arches` sequence, which is required to name every
  directory directly below build/RPMS once, as `os.listdir` does. `Path.mkdir(parents=True)` is
  one step.
- FedoraKpkg.PackageMake: regular files directly inside build/RPMS are not modelled, and
  neither are directories inside an architecture directory. The `arches` listing names the
  architecture directories only.
- FedoraKpkg.PackageMake: reading the kernel Makefile is given as its lines, or none when it
  cannot be opened. UTF-8 decoding and line endings are not modelled.
- FedoraKpkg.CollectRpmsFills: it states which names out/ ends up with. It does not state
  which content a name gets when two architecture directories hold an rpm of the same name.
  That is the later one in listing order, as `CollectRpms` computes.
- DebianKpkg.PackageMake: the kernelrelease output is given as an already decoded string.
  `str(proc.stdout, encoding='utf-8')` raises UnicodeDecodeError on output that is not UTF-8,
  and that error path is not modelled.
- DebianKpkg.AfterBuild: it states which names out/ holds, not their contents. The contents
  follow from FileSystem.Collect, which it is.
- DebianKpkg.PackageMake: the kernel tree's parent directory is required to exist, since it
  is the parent of the working directory. It is also required not to be out/ itself.
- Text.ParseInt: int() is modelled on ASCII decimal digits only, with surrounding whitespace,
  a sign and single underscores between digits. Other Unicode digits are not accepted.
- Paths.Parse: pathlib's special case of a path starting with exactly two slashes is not
  modelled.
- DebRemote.GetContainerIp: the network state is a list of interfaces. Python dict keys are
  distinct, and this model does not enforce that. Every entry named 'lo' is dropped, which is
  what `del` does when the name is unique.

## Findings

| source | as written | input that shows it | evidently intended | confidence | as-written member | corrected member |
|---|---|---|---|---|---|---|
| arch/kpkg.py:70-72 | `cmd_package_clean_all(args)` calls `cmd_package_clean()` with no argument, but `cmd_package_clean` requires `args` | `arch/kpkg.py p clean-all` raises TypeError before anything is removed | clean, then removal of out/ | high (not executed) | ArchKpkg.CmdPackageCleanAll | ArchKpkg.CmdPackageCleanAllFixed |
| debian/kpkg.py:62-64 | the same call without its required argument | `debian/kpkg.py p clean-all` raises TypeError and out/ stays | clean (a no-op), then removal of out/ | high (not executed) | DebianKpkg.CmdPackageCleanAll | DebianKpkg.CmdPackageCleanAllFixed |
| fedora/kpkg.py:88-90 | the same call without its required argument | `fedora/kpkg.py p clean-all` raises TypeError; neither build/ nor out/ is removed | removal of build/, then of out/ | high (not executed) | FedoraKpkg.CmdPackageCleanAll | FedoraKpkg.CmdPackageCleanAllFixed |
