/**
 * deb/kpkg.py: the Debian helper that builds inside an LXD container over SSH. It starts
 * the container, picks the container's global IPv4 address, then runs the configure and
 * build makes in the container's kernel tree and fetches the produced packages back to
 * out/ beside the script. The container and the SSH connection are foreign: what they
 * answer is given (the network state, the output of each remote command) and what is
 * asked of them is recorded as a log of steps.
 */
module DebRemote {
  import opened Wrappers
  import opened Seqs
  import opened Text
  import opened Process
  import Paths
  import DebianKpkg

  // ---------------------------------------------------------------------------------------
  // The container's address
  // ---------------------------------------------------------------------------------------

  datatype Address = Address(family: string, scope: string, address: string)

  /** One entry of the container's network state: an interface and its addresses. */
  datatype Interface = Interface(name: string, addresses: seq<Address>)

  predicate HasInterface(net: seq<Interface>, name: string) {
    exists i :: 0 <= i < |net| && net[i].name == name
  }

  /** `del net[name]`, for a name that is there. */
  function Without(net: seq<Interface>, name: string): (r: seq<Interface>)
    ensures forall x :: x in r <==> x in net && x.name != name
    ensures |r| <= |net|
    decreases |net|
  {
    if net == [] then []
    else if net[0].name == name then Without(net[1..], name)
    else [net[0]] + Without(net[1..], name)
  }

  predicate Matches(a: Address, family: string) {
    a.family == family && a.scope == "global"
  }

  /** The first address of the family with global scope, if any. */
  function FirstMatch(addrs: seq<Address>, family: string): (r: Option<string>)
    ensures r.Some? ==> exists i :: 0 <= i < |addrs| && Matches(addrs[i], family) && addrs[i].address == r.value
                                  && forall j :: 0 <= j < i ==> !Matches(addrs[j], family)
    ensures r.None? ==> forall i :: 0 <= i < |addrs| ==> !Matches(addrs[i], family)
    decreases |addrs|
  {
    if addrs == [] then None
    else if Matches(addrs[0], family) then Some(addrs[0].address)
    else
      var r := FirstMatch(addrs[1..], family);
      assert forall i :: 0 < i < |addrs| ==> addrs[i] == addrs[1..][i - 1];
      r
  }

  /** The addresses of all interfaces, interface by interface. */
  function Flatten(ifaces: seq<Interface>): seq<Address>
    decreases |ifaces|
  {
    if ifaces == [] then [] else ifaces[0].addresses + Flatten(ifaces[1..])
  }

  lemma {:induction false} FlattenAppend(xs: seq<Interface>, ys: seq<Interface>)
    ensures Flatten(xs + ys) == Flatten(xs) + Flatten(ys)
    decreases |xs|
  {
    if xs != [] {
      assert (xs + ys)[1..] == xs[1..] + ys;
      FlattenAppend(xs[1..], ys);
    } else {
      assert xs + ys == ys;
    }
  }

  /** The first match of a concatenation is the first match of its first part, if any. */
  lemma {:induction false} FirstMatchAppend(a: seq<Address>, b: seq<Address>, family: string)
    ensures FirstMatch(a + b, family) == if FirstMatch(a, family).Some? then FirstMatch(a, family) else FirstMatch(b, family)
    decreases |a|
  {
    if a != [] {
      assert (a + b)[1..] == a[1..] + b;
      FirstMatchAppend(a[1..], b, family);
    } else {
      assert a + b == b;
    }
  }

  /** What get_container_ip returns: KeyError when there is no 'lo' entry to delete, otherwise
      the first global address of the family over the other interfaces in order. */
  function ContainerIp(net: seq<Interface>, family: string): Result<Option<string>, Error> {
    if !HasInterface(net, "lo") then Failure(KeyError("lo"))
    else Success(FirstMatch(Flatten(Without(net, "lo")), family))
  }

  /** A match at index j with none before it is the first match. */
  lemma {:induction false} FoundInAddresses(addrs: seq<Address>, j: nat, family: string)
    requires j < |addrs| && FirstMatch(addrs[..j], family).None? && Matches(addrs[j], family)
    ensures FirstMatch(addrs, family) == Some(addrs[j].address)
  {
    assert addrs == addrs[..j] + addrs[j..];
    FirstMatchAppend(addrs[..j], addrs[j..], family);
  }

  /** A first match in interface i, with none in the interfaces before it, is the first match
      over all interfaces. */
  lemma {:induction false} FoundInInterface(ifaces: seq<Interface>, i: nat, family: string)
    requires i < |ifaces| && FirstMatch(Flatten(ifaces[..i]), family).None?
    requires FirstMatch(ifaces[i].addresses, family).Some?
    ensures FirstMatch(Flatten(ifaces), family) == FirstMatch(ifaces[i].addresses, family)
  {
    var rest := ifaces[i..];
    assert ifaces == ifaces[..i] + rest;
    assert rest[0] == ifaces[i];
    FlattenAppend(ifaces[..i], rest);
    assert Flatten(rest) == ifaces[i].addresses + Flatten(rest[1..]);
    FirstMatchAppend(Flatten(ifaces[..i]), Flatten(rest), family);
    FirstMatchAppend(ifaces[i].addresses, Flatten(rest[1..]), family);
  }

  /** An address that does not match extends the run without a match. */
  lemma {:induction false} NoMatchStep(addrs: seq<Address>, j: nat, family: string)
    requires j < |addrs| && FirstMatch(addrs[..j], family).None? && !Matches(addrs[j], family)
    ensures FirstMatch(addrs[..j + 1], family).None?
  {
    assert addrs[..j + 1] == addrs[..j] + [addrs[j]];
    FirstMatchAppend(addrs[..j], [addrs[j]], family);
  }

  /** An interface without a match extends the run of interfaces without one. */
  lemma {:induction false} NoMatchInterface(ifaces: seq<Interface>, i: nat, family: string)
    requires i < |ifaces| && FirstMatch(Flatten(ifaces[..i]), family).None?
    requires FirstMatch(ifaces[i].addresses, family).None?
    ensures FirstMatch(Flatten(ifaces[..i + 1]), family).None?
  {
    assert ifaces[..i + 1] == ifaces[..i] + [ifaces[i]];
    assert Flatten([ifaces[i]]) == ifaces[i].addresses + Flatten([]);
    assert ifaces[i].addresses + [] == ifaces[i].addresses;
    FlattenAppend(ifaces[..i], [ifaces[i]]);
    FirstMatchAppend(Flatten(ifaces[..i]), ifaces[i].addresses, family);
  }

  /** get_container_ip. */
  method GetContainerIp(net: seq<Interface>, family: string) returns (r: Result<Option<string>, Error>)
    ensures r == ContainerIp(net, family)
  {
    if !HasInterface(net, "lo") {
      return Failure(KeyError("lo"));
    }
    var ifaces := Without(net, "lo");
    var i := 0;
    while i < |ifaces|
      invariant 0 <= i <= |ifaces|
      invariant FirstMatch(Flatten(ifaces[..i]), family).None?
    {
      var addrs := ifaces[i].addresses;
      var j := 0;
      while j < |addrs|
        invariant 0 <= j <= |addrs|
        invariant FirstMatch(addrs[..j], family).None?
      {
        if addrs[j].family == family && addrs[j].scope == "global" {
          FoundInAddresses(addrs, j, family);
          FoundInInterface(ifaces, i, family);
          return Success(Some(addrs[j].address));
        }
        NoMatchStep(addrs, j, family);
        j := j + 1;
      }
      assert addrs[..j] == addrs;
      NoMatchInterface(ifaces, i, family);
      i := i + 1;
    }
    assert ifaces[..i] == ifaces;
    return Success(None);
  }

  /** The 'lo' entry's addresses never matter. */
  lemma {:induction false} LoIgnored(net: seq<Interface>, k: nat, addrs: seq<Address>, family: string)
    requires k < |net| && net[k].name == "lo"
    ensures ContainerIp(net[k := Interface("lo", addrs)], family) == ContainerIp(net, family)
  {
    WithoutReplaced(net, k, addrs);
    assert net[k := Interface("lo", addrs)][k].name == "lo";
  }

  lemma {:induction false} WithoutReplaced(net: seq<Interface>, k: nat, addrs: seq<Address>)
    requires k < |net| && net[k].name == "lo"
    ensures Without(net[k := Interface("lo", addrs)], "lo") == Without(net, "lo")
    decreases |net|
  {
    var m := net[k := Interface("lo", addrs)];
    if k > 0 {
      assert m[1..] == net[1..][k - 1 := Interface("lo", addrs)];
      WithoutReplaced(net[1..], k - 1, addrs);
    } else {
      assert m[1..] == net[1..];
    }
  }

  // ---------------------------------------------------------------------------------------
  // The remote command lines
  // ---------------------------------------------------------------------------------------

  /** The kernel version options: whether to force the config's version options, the local
      version and the extra version. */
  datatype KernelVersion = KernelVersion(override: bool, local: string, extra: string)

  /** The Debian package metadata. */
  datatype Pkg = Pkg(pkgrel: int, sourcename: string, changelogDist: string)

  /** The sed command that forces the version options of the remote .config: the same two
      substitutions the local Debian helper applies, joined by ';'. */
  function OverrideCmd(src: string): (cmd: string)
    ensures cmd == "sed -i \"" + DebianKpkg.LocalVersionSubst + ";" + DebianKpkg.AutoVersionSubst + "\" \"" + src + "/.config\""
  {
    var subst := Join(";", [DebianKpkg.LocalVersionSubst, DebianKpkg.AutoVersionSubst]);
    assert [DebianKpkg.LocalVersionSubst, DebianKpkg.AutoVersionSubst][1..] == [DebianKpkg.AutoVersionSubst];
    assert Join(";", [DebianKpkg.AutoVersionSubst]) == DebianKpkg.AutoVersionSubst;
    "sed -i \"" + subst + "\" \"" + src + "/.config\""
  }

  /** f'-j{n}'. */
  function Jobs(n: int): string {
    "-j" + IntToString(n)
  }

  /** The options every remote make gets: the tree, the job count and the two versions. */
  function CommonWords(src: string, nprocs: int, kv: KernelVersion): seq<string> {
    ["-C " + src, Jobs(nprocs), "LOCALVERSION=\"" + kv.local + "\"", "EXTRAVERSION=\"" + kv.extra + "\""]
  }

  /** remote_get_kernelrelease's command. */
  function KernelReleaseCmd(src: string, nprocs: int, kv: KernelVersion): string {
    Join(" ", ["make -s"] + CommonWords(src, nprocs, kv) + ["kernelrelease"])
  }

  /** remote_make_target's command. */
  function MakeCmd(target: string, src: string, nprocs: int, kv: KernelVersion): string {
    Join(" ", ["make"] + CommonWords(src, nprocs, kv) + [target])
  }

  /** The package assignments of remote_make_target_full. */
  function PkgWords(pkgversion: string, pkg: Pkg): seq<string> {
    ["KDEB_PKGVERSION=\"" + pkgversion + "\"", "KDEB_SOURCENAME=\"" + pkg.sourcename + "\"",
     "KDEB_CHANGELOG_DIST=\"" + pkg.changelogDist + "\""]
  }

  /** remote_make_target_full's command. */
  function MakeFullCmd(target: string, src: string, nprocs: int, kv: KernelVersion, pkgversion: string, pkg: Pkg): string {
    Join(" ", ["make"] + CommonWords(src, nprocs, kv) + PkgWords(pkgversion, pkg) + [target])
  }

  /** The full make is the plain make with the three package assignments inserted, in order,
      just before the target. */
  lemma {:induction false} FullMakeInserts(target: string, src: string, nprocs: int, kv: KernelVersion,
                                           pkgversion: string, pkg: Pkg)
    ensures var head := Join(" ", ["make"] + CommonWords(src, nprocs, kv));
      && MakeCmd(target, src, nprocs, kv) == head + " " + target
      && MakeFullCmd(target, src, nprocs, kv, pkgversion, pkg) == head + " " + Join(" ", PkgWords(pkgversion, pkg)) + " " + target
  {
    var common := ["make"] + CommonWords(src, nprocs, kv);
    JoinAppend(" ", common, [target]);
    JoinAppend(" ", common, PkgWords(pkgversion, pkg));
    JoinAppend(" ", common + PkgWords(pkgversion, pkg), [target]);
  }

  /** The job flag has no whitespace in it. */
  lemma {:induction false} JobsFlagIsWord(n: int)
    ensures IsWord(Jobs(n))
  {
    var digits := NatToString(if n < 0 then -n else n);
    var flag := Jobs(n);
    assert flag == "-j" + (if n < 0 then "-" else "") + digits;
    forall i | 0 <= i < |flag| ensures !IsSpace(flag[i]) {
      if i >= |flag| - |digits| {
        assert flag[i] == digits[i - (|flag| - |digits|)];
      }
      GraphicNotSpace(flag[i]);
    }
  }

  /** Joining "a b" with the rest is joining a and b with it. */
  lemma {:induction false} JoinSpacedHead(a: string, b: string, rest: seq<string>)
    requires |rest| > 0
    ensures Join(" ", [a + " " + b] + rest) == Join(" ", [a, b] + rest)
  {
    assert ([a + " " + b] + rest)[1..] == rest;
    assert ([a, b] + rest)[1..] == [b] + rest;
    assert ([b] + rest)[1..] == rest;
  }

  /** A quoted assignment such as LOCALVERSION="v" has no whitespace when v has none;
      `opening` is the name with `="`. */
  lemma {:induction false} AssignmentNoSpace(opening: string, v: string)
    requires NoSpace(opening) && NoSpace(v)
    ensures NoSpace(opening + v + "\"")
  {
    var x := opening + v + "\"";
    forall i | 0 <= i < |x| ensures !IsSpace(x[i]) {
      if i < |opening| {
        assert x[i] == opening[i];
      } else if i < |opening| + |v| {
        assert x[i] == v[i - |opening|];
      } else {
        GraphicNotSpace(x[i]);
      }
    }
  }

  /** The kernelrelease command is the single-space join of its words. */
  lemma {:induction false} KernelReleaseJoin(src: string, nprocs: int, kv: KernelVersion)
    ensures KernelReleaseCmd(src, nprocs, kv) ==
      Join(" ", ["make", "-s", "-C", src, Jobs(nprocs),
                 "LOCALVERSION=\"" + kv.local + "\"", "EXTRAVERSION=\"" + kv.extra + "\"", "kernelrelease"])
  {
    var tail := [Jobs(nprocs), "LOCALVERSION=\"" + kv.local + "\"", "EXTRAVERSION=\"" + kv.extra + "\"", "kernelrelease"];
    assert "make -s" == "make" + " " + "-s";
    assert "-C " + src == "-C" + " " + src;
    assert ["make -s"] + CommonWords(src, nprocs, kv) + ["kernelrelease"] == ["make" + " " + "-s"] + (["-C" + " " + src] + tail);
    JoinSpacedHead("make", "-s", ["-C" + " " + src] + tail);
    assert ["make", "-s"] + (["-C" + " " + src] + tail) == ["make", "-s", "-C" + " " + src] + tail;
    var front := ["make", "-s"];
    JoinAppend(" ", front, ["-C" + " " + src] + tail);
    JoinSpacedHead("-C", src, tail);
    JoinAppend(" ", front, ["-C", src] + tail);
    assert front + (["-C", src] + tail) ==
      ["make", "-s", "-C", src, Jobs(nprocs), "LOCALVERSION=\"" + kv.local + "\"", "EXTRAVERSION=\"" + kv.extra + "\"", "kernelrelease"];
  }

  /** The fixed words of the remote make commands hold no whitespace. */
  lemma {:induction false} FixedWords()
    ensures IsWord("make") && IsWord("-s") && IsWord("-C") && IsWord("kernelrelease")
    ensures NoSpace("LOCALVERSION=\"") && NoSpace("EXTRAVERSION=\"")
  {
    GraphicWord("LOCALVERSION=\"");
    GraphicWord("EXTRAVERSION=\"");
    GraphicWord("make");
    GraphicWord("-s");
    GraphicWord("-C");
    GraphicWord("kernelrelease");
  }

  /** The words of the kernelrelease command, for a tree and versions without whitespace. */
  lemma {:induction false} KernelReleaseArgsAreWords(src: string, nprocs: int, kv: KernelVersion)
    requires IsWord(src) && NoSpace(kv.local) && NoSpace(kv.extra)
    ensures var words := ["make", "-s", "-C", src, Jobs(nprocs),
                          "LOCALVERSION=\"" + kv.local + "\"", "EXTRAVERSION=\"" + kv.extra + "\"", "kernelrelease"];
      forall i :: 0 <= i < |words| ==> IsWord(words[i])
  {
    FixedWords();
    JobsFlagIsWord(nprocs);
    AssignmentNoSpace("LOCALVERSION=\"", kv.local);
    AssignmentNoSpace("EXTRAVERSION=\"", kv.extra);
  }

  /** The kernelrelease command splits, as a shell would split it, into make's arguments
      (for a tree and versions without whitespace). */
  lemma {:induction false} KernelReleaseWords(src: string, nprocs: int, kv: KernelVersion)
    requires IsWord(src) && NoSpace(kv.local) && NoSpace(kv.extra)
    ensures Split(KernelReleaseCmd(src, nprocs, kv)) ==
      ["make", "-s", "-C", src, Jobs(nprocs),
       "LOCALVERSION=\"" + kv.local + "\"", "EXTRAVERSION=\"" + kv.extra + "\"", "kernelrelease"]
  {
    KernelReleaseJoin(src, nprocs, kv);
    KernelReleaseArgsAreWords(src, nprocs, kv);
    SplitJoin(["make", "-s", "-C", src, Jobs(nprocs),
               "LOCALVERSION=\"" + kv.local + "\"", "EXTRAVERSION=\"" + kv.extra + "\"", "kernelrelease"]);
  }

  /** The local version cmd_build chooses: "-surface", with "-<suffix>" after it when a
      suffix is given. */
  function LocalVersion(suffix: string): (local: string)
    ensures suffix != "" ==> local == "-surface-" + suffix
    ensures suffix == "" ==> local == "-surface"
  {
    if suffix != "" then "-surface-" + suffix else "-surface"
  }

  /** Different suffixes give different local versions. */
  lemma {:induction false} LocalVersionInjective(a: string, b: string)
    requires LocalVersion(a) == LocalVersion(b)
    ensures a == b
  {
    if a != "" && b != "" {
      assert a == LocalVersion(a)[9..];
      assert b == LocalVersion(b)[9..];
    }
  }

  // ---------------------------------------------------------------------------------------
  // The connection
  // ---------------------------------------------------------------------------------------

  /** What the helper asks of the container, the SSH connection and the host. */
  datatype Step =
    | StartContainer(name: string)
    | Connect(host: Option<string>, user: string)
    | Run(command: string)
    | Put(local: string, remote: string)
    | MakeDirs(path: string)
    | Fetch(remote: string, local: string)

  /** An SSH connection: `respond` is the standard output the container gives each command;
      `log` is every step so far. */
  class Connection {
    const respond: string -> string
    var log: seq<Step>

    constructor (respond: string -> string, log: seq<Step>)
      ensures this.respond == respond && this.log == log
    {
      this.respond := respond;
      this.log := log;
    }

    /** connection.run(command): its standard output. */
    method RunCmd(command: string) returns (stdout: string)
      modifies this
      ensures log == old(log) + [Run(command)]
      ensures stdout == respond(command)
    {
      log := log + [Run(command)];
      stdout := respond(command);
    }

    /** connection.put(local, remote). */
    method PutFile(local: string, remote: string)
      modifies this
      ensures log == old(log) + [Put(local, remote)]
    {
      log := log + [Put(local, remote)];
    }

    /** connection.get(remote, local). */
    method GetFile(remote: string, local: string)
      modifies this
      ensures log == old(log) + [Fetch(remote, local)]
    {
      log := log + [Fetch(remote, local)];
    }

    /** Path(path).mkdir(parents=True, exist_ok=True) on the host. */
    method MakeDirs(path: string)
      modifies this
      ensures log == old(log) + [Step.MakeDirs(path)]
    {
      log := log + [Step.MakeDirs(path)];
    }
  }

  // ---------------------------------------------------------------------------------------
  // Fetching the packages
  // ---------------------------------------------------------------------------------------

  /** The parent of the remote kernel tree, where the packages are made. */
  function RemoteOut(src: string): Paths.PurePath {
    Paths.Parent(Paths.Parse(src))
  }

  lemma {:induction false} JoinThree(a: string, b: string, c: string)
    ensures Join(" ", [a, b, c]) == (a + " ") + (b + " " + c)
  {
    assert [a, b, c][1..] == [b, c];
    assert [b, c][1..] == [c];
    assert Join(" ", [c]) == c;
    assert Join(" ", [b, c]) == b + " " + c;
  }

  /** The name test of the listing: the files ending .deb, .changes or .buildinfo. */
  const FindTest := "\\( -name \"*.deb\" -o -name \"*.changes\" -o -name \"*.buildinfo\" \\)"

  /** The listing command. The first two items lack a separating blank in the source, so it
      reads `cd <dir>&&find .` with no blank around `&&`. */
  function FindCmd(src: string): (cmd: string)
    ensures var dir := Paths.Str(RemoteOut(src));
      cmd == "cd " + dir + "&&find ." + " " + ("-maxdepth 1" + " " + ("-type f " + FindTest))
  {
    var dir := Paths.Str(RemoteOut(src));
    JoinThree("cd " + dir + "&&" + "find .", "-maxdepth 1", "-type f " + FindTest);
    assert "cd " + dir + "&&" + "find ." == "cd " + dir + "&&find .";
    Join(" ", ["cd " + dir + "&&" + "find .", "-maxdepth 1", "-type f " + FindTest])
  }

  /** The fetch and the remote removal of one listed file. */
  function FetchOne(src: string, out: Paths.PurePath, f: string): seq<Step> {
    var remote := Paths.Str(Paths.Concat(RemoteOut(src), f));
    [Fetch(remote, Paths.Str(Paths.Concat(out, f))), Run("rm -f \"" + remote + "\"")]
  }

  /** Every listed file fetched and then removed remotely, in listed order. */
  function FetchSteps(src: string, out: Paths.PurePath, files: seq<string>): seq<Step>
    decreases |files|
  {
    if files == [] then []
    else FetchSteps(src, out, files[..|files| - 1]) + FetchOne(src, out, files[|files| - 1])
  }

  /** The i-th listed file's fetch and removal are steps 2i and 2i + 1. */
  lemma {:induction false} FetchStepsShape(src: string, out: Paths.PurePath, files: seq<string>)
    ensures var r := FetchSteps(src, out, files);
      && |r| == 2 * |files|
      && forall i :: 0 <= i < |files| ==>
           r[2 * i] == FetchOne(src, out, files[i])[0] && r[2 * i + 1] == FetchOne(src, out, files[i])[1]
    decreases |files|
  {
    if files != [] {
      var front := files[..|files| - 1];
      FetchStepsShape(src, out, front);
      var head := FetchSteps(src, out, front);
      var last := FetchOne(src, out, files[|files| - 1]);
      var r := head + last;
      forall i | 0 <= i < |files|
        ensures r[2 * i] == FetchOne(src, out, files[i])[0] && r[2 * i + 1] == FetchOne(src, out, files[i])[1]
      {
        if i < |front| {
          assert files[i] == front[i];
          IndexFront(head, last, 2 * i);
          IndexFront(head, last, 2 * i + 1);
        } else {
          IndexBack(head, last, 2 * i);
          IndexBack(head, last, 2 * i + 1);
        }
      }
    }
  }

  /** The steps of remote_xfer_packages for the files the listing names. */
  function XferSteps(src: string, out: Paths.PurePath, files: seq<string>): seq<Step> {
    [Run(FindCmd(src))]
    + (if files != [] then [Step.MakeDirs(Paths.Str(out))] else [])
    + FetchSteps(src, out, files)
  }

  /** No fetch or remote removal makes a directory. */
  lemma {:induction false} FetchMakesNoDirs(src: string, out: Paths.PurePath, files: seq<string>)
    ensures forall k :: 0 <= k < |FetchSteps(src, out, files)| ==> !FetchSteps(src, out, files)[k].MakeDirs?
    decreases |files|
  {
    if files != [] {
      var front := files[..|files| - 1];
      FetchMakesNoDirs(src, out, front);
      var head := FetchSteps(src, out, front);
      var last := FetchOne(src, out, files[|files| - 1]);
      assert |last| == 2 && last[0].Fetch? && last[1].Run?;
      var steps := head + last;
      forall k | 0 <= k < |steps| ensures !steps[k].MakeDirs? {
        if k < |head| {
          IndexFront(head, last, k);
        } else {
          IndexBack(head, last, k);
        }
      }
    }
  }

  /** The output directory is made exactly when the listing names a file. */
  lemma {:induction false} MakesOutOnlyWhenListed(src: string, out: Paths.PurePath, files: seq<string>)
    ensures Step.MakeDirs(Paths.Str(out)) in XferSteps(src, out, files) <==> files != []
  {
    FetchMakesNoDirs(src, out, files);
    if files == [] {
      assert XferSteps(src, out, files) == [Run(FindCmd(src))];
    } else {
      assert XferSteps(src, out, files)[1] == Step.MakeDirs(Paths.Str(out));
    }
  }

  /** Fetching one more file extends the steps by that file's fetch and removal. */
  lemma {:induction false} FetchStepsSnoc(src: string, out: Paths.PurePath, files: seq<string>, i: nat)
    requires i < |files|
    ensures FetchSteps(src, out, files[..i + 1]) == FetchSteps(src, out, files[..i]) + FetchOne(src, out, files[i])
  {
    var front := files[..i + 1];
    assert front[..|front| - 1] == files[..i];
    assert front[|front| - 1] == files[i];
  }

  /** The fetch/delete loop of remote_xfer_packages. */
  method FetchAll(con: Connection, dirOut: Paths.PurePath, src: string, files: seq<string>)
    modifies con
    ensures con.log == old(con.log) + FetchSteps(src, dirOut, files)
  {
    ghost var start := con.log;
    var remoteOut := RemoteOut(src);
    var i := 0;
    assert files[..0] == [];
    while i < |files|
      invariant 0 <= i <= |files|
      invariant con.log == start + FetchSteps(src, dirOut, files[..i])
    {
      var f := files[i];
      var remote := Paths.Str(Paths.Concat(remoteOut, f));
      ghost var before := con.log;
      con.GetFile(remote, Paths.Str(Paths.Concat(dirOut, f)));
      var _ := con.RunCmd("rm -f \"" + remote + "\"");
      assert con.log == before + FetchOne(src, dirOut, f);
      FetchStepsSnoc(src, dirOut, files, i);
      Regroup2(start, FetchSteps(src, dirOut, files[..i]), FetchOne(src, dirOut, f));
      i := i + 1;
    }
    assert files[..i] == files;
  }

  /** remote_xfer_packages over the connection. */
  method XferPackages(con: Connection, dirOut: Paths.PurePath, src: string)
    modifies con
    ensures con.log == old(con.log) + XferSteps(src, dirOut, Split(con.respond(FindCmd(src))))
  {
    ghost var start := con.log;
    var listing := con.RunCmd(FindCmd(src));
    var files := Split(listing);
    if files != [] {
      con.MakeDirs(Paths.Str(dirOut));
    }
    ghost var made := if files != [] then [Step.MakeDirs(Paths.Str(dirOut))] else [];
    assert con.log == start + [Run(FindCmd(src))] + made;
    FetchAll(con, dirOut, src, files);
    Regroup3(start, [Run(FindCmd(src))], made, FetchSteps(src, dirOut, files));
  }

  // ---------------------------------------------------------------------------------------
  // The remote build
  // ---------------------------------------------------------------------------------------

  /** The container to build in and the user to log in as. */
  datatype Container = Container(name: string, user: string)

  /** The parsed `build` arguments; the job count is optional. */
  datatype BuildArgs = BuildArgs(target: string, suffix: string, config: string, clean: string,
                                 pkgrel: int, j: Option<int>)

  /** The `build` defaults (`-c` alone gives "clean"). */
  function DefaultBuildArgs(): (a: BuildArgs)
    ensures a.target == "deb-pkg" && a.suffix == "" && a.config == "" && a.clean == ""
    ensures a.pkgrel == 1 && a.j.None?
  {
    BuildArgs("deb-pkg", "", "", "", 1, None)
  }

  /** The fields of a build spec, at one moment. */
  datatype Settings = Settings(
    target: string, nprocs: Option<int>, src: string, out: Paths.PurePath, config: string, clean: string,
    kernelVersion: KernelVersion, pkgversion: Option<string>, pkg: Pkg, container: Container)

  /** The build spec: a namespace whose job count and package version makepkg fills in. */
  class BuildSpec {
    var nprocs: Option<int>
    var pkgversion: Option<string>
    const target: string
    const src: string
    const out: Paths.PurePath
    const config: string
    const clean: string
    const kernelVersion: KernelVersion
    const pkg: Pkg
    const container: Container

    function Now(): Settings
      reads this
    {
      Settings(target, nprocs, src, out, config, clean, kernelVersion, pkgversion, pkg, container)
    }

    /** cmd_build's spec; `scriptDir` is the directory of the resolved script path. */
    constructor (args: BuildArgs, scriptDir: seq<string>)
      ensures target == args.target && nprocs == args.j
      ensures src == "devel/linux" && out == Paths.PurePath(true, scriptDir + ["out"])
      ensures config == args.config && clean == args.clean
      ensures kernelVersion == KernelVersion(true, LocalVersion(args.suffix), "")
      ensures pkgversion.None? && pkg == Pkg(args.pkgrel, "linux-surface", "unstable")
      ensures container == Container("kdev-deb10", "build")
    {
      target := args.target;
      nprocs := args.j;
      src := "devel/linux";
      out := Paths.PurePath(true, scriptDir + ["out"]);
      config := args.config;
      clean := args.clean;
      kernelVersion := KernelVersion(true, LocalVersion(args.suffix), "");
      pkgversion := None;
      pkg := Pkg(args.pkgrel, "linux-surface", "unstable");
      container := Container("kdev-deb10", "build");
    }
  }

  /** The job count after the nproc query: the set one, or the container's answer; none when
      that answer is not a number (int() raises ValueError). */
  function JobCount(s: Settings, respond: string -> string): Option<int> {
    if s.nprocs.Some? then s.nprocs else NprocAnswer(respond)
  }

  /** int() of the container's stripped nproc output. */
  function NprocAnswer(respond: string -> string): Option<int> {
    ParseInt(Strip(respond("nproc")))
  }

  /** The package version after the kernelrelease query: the set one, or the stripped
      kernelrelease, '-', and the release number. */
  function PackageVersion(s: Settings, nprocs: int, respond: string -> string): string {
    if s.pkgversion.Some? then s.pkgversion.value
    else Strip(respond(KernelReleaseCmd(s.src, nprocs, s.kernelVersion))) + "-" + IntToString(s.pkg.pkgrel)
  }

  /** The outcome of makepkg: the steps taken and the error it stopped on, if any. */
  datatype Session = Session(log: seq<Step>, raised: Option<Error>)

  /** Starting the container, connecting, and the nproc query when no job count is set. */
  function ConnectSteps(s: Settings, ip: Option<string>): seq<Step> {
    [StartContainer(s.container.name), Connect(ip, s.container.user)]
    + (if s.nprocs.None? then [Run("nproc")] else [])
  }

  /** The clean make, when a clean target is given. */
  function CleanSteps(s: Settings, n: int): seq<Step> {
    if s.clean != "" then [Run(MakeCmd(s.clean, s.src, n, s.kernelVersion))] else []
  }

  /** The config upload into the remote tree, when a config is given. */
  function UploadSteps(s: Settings): seq<Step> {
    if s.config != "" then [Put(s.config, Paths.Str(Paths.Concat(Paths.Parse(s.src), ".config")))] else []
  }

  /** The version override, when asked for. */
  function OverrideSteps(s: Settings): seq<Step> {
    if s.kernelVersion.override then [Run(OverrideCmd(s.src))] else []
  }

  /** The clean make, the config upload and the version override, each when asked for. */
  function PrepareSteps(s: Settings, n: int): seq<Step> {
    CleanSteps(s, n) + UploadSteps(s) + OverrideSteps(s)
  }

  /** oldconfig and prepare. */
  function ConfigureSteps(s: Settings, n: int): seq<Step> {
    [Run(MakeCmd("oldconfig", s.src, n, s.kernelVersion)), Run(MakeCmd("prepare", s.src, n, s.kernelVersion))]
  }

  /** The kernelrelease query, made only when no package version is set. */
  function VersionSteps(s: Settings, n: int): seq<Step> {
    if s.pkgversion.None? then [Run(KernelReleaseCmd(s.src, n, s.kernelVersion))] else []
  }

  /** The package build. */
  function BuildStep(s: Settings, n: int, respond: string -> string): Step {
    Run(MakeFullCmd(s.target, s.src, n, s.kernelVersion, PackageVersion(s, n, respond), s.pkg))
  }

  /** The make phase: preparing, configuring, the version query and the build. */
  function MakeSteps(s: Settings, n: int, respond: string -> string): seq<Step> {
    PrepareSteps(s, n) + (ConfigureSteps(s, n) + VersionSteps(s, n) + [BuildStep(s, n, respond)])
  }

  /** Everything after the connection: the make phase, then fetching the packages. */
  function AfterConnect(s: Settings, n: int, respond: string -> string): seq<Step> {
    MakeSteps(s, n, respond) + XferSteps(s.src, s.out, Split(respond(FindCmd(s.src))))
  }

  /** Every step makepkg takes, in order, and the error it stops on. */
  function Plan(s: Settings, net: seq<Interface>, respond: string -> string): Session {
    match ContainerIp(net, "inet")
    case Failure(e) => Session([StartContainer(s.container.name)], Some(e))
    case Success(ip) =>
      match JobCount(s, respond)
      case None => Session(ConnectSteps(s, ip), Some(ValueError(Strip(respond("nproc")))))
      case Some(n) => Session(ConnectSteps(s, ip) + AfterConnect(s, n, respond), None)
  }

  /** The clean make, the config upload and the version override of makepkg. */
  method RunPrepare(con: Connection, s: Settings, n: int)
    modifies con
    ensures con.log == old(con.log) + PrepareSteps(s, n)
  {
    ghost var start := con.log;
    if s.clean != "" {
      var _ := con.RunCmd(MakeCmd(s.clean, s.src, n, s.kernelVersion));
    }
    assert con.log == start + CleanSteps(s, n);
    if s.config != "" {
      con.PutFile(s.config, Paths.Str(Paths.Concat(Paths.Parse(s.src), ".config")));
    }
    assert con.log == start + CleanSteps(s, n) + UploadSteps(s);
    if s.kernelVersion.override {
      var _ := con.RunCmd(OverrideCmd(s.src));
    }
    assert con.log == start + CleanSteps(s, n) + UploadSteps(s) + OverrideSteps(s);
    Regroup3(start, CleanSteps(s, n), UploadSteps(s), OverrideSteps(s));
  }

  /** oldconfig and prepare. */
  method RunConfigure(con: Connection, s: Settings, n: int)
    modifies con
    ensures con.log == old(con.log) + ConfigureSteps(s, n)
  {
    var _ := con.RunCmd(MakeCmd("oldconfig", s.src, n, s.kernelVersion));
    var _ := con.RunCmd(MakeCmd("prepare", s.src, n, s.kernelVersion));
  }

  /** The package version: the set one, or one made from the kernelrelease query. */
  method QueryVersion(con: Connection, s: Settings, n: int) returns (version: string)
    modifies con
    ensures con.log == old(con.log) + VersionSteps(s, n)
    ensures version == PackageVersion(s, n, con.respond)
  {
    if s.pkgversion.None? {
      var krel := con.RunCmd(KernelReleaseCmd(s.src, n, s.kernelVersion));
      version := Strip(krel) + "-" + IntToString(s.pkg.pkgrel);
    } else {
      version := s.pkgversion.value;
    }
  }

  /** The make phase of makepkg, with the package version it builds. */
  method RunMake(con: Connection, s: Settings, n: int) returns (version: string)
    modifies con
    ensures con.log == old(con.log) + MakeSteps(s, n, con.respond)
    ensures version == PackageVersion(s, n, con.respond)
  {
    ghost var start := con.log;
    RunPrepare(con, s, n);
    RunConfigure(con, s, n);
    version := QueryVersion(con, s, n);
    var _ := con.RunCmd(MakeFullCmd(s.target, s.src, n, s.kernelVersion, version, s.pkg));
    Regroup(start, PrepareSteps(s, n), ConfigureSteps(s, n), VersionSteps(s, n), [BuildStep(s, n, con.respond)]);
  }

  /** The part of makepkg after the job count is known: the make phase, the package version
      recorded in the spec when it was unset, and the transfer. */
  method BuildAndFetch(spec: BuildSpec, con: Connection, s: Settings, n: int)
    requires spec.Now() == s.(nprocs := Some(n))
    modifies spec, con
    ensures con.log == old(con.log) + AfterConnect(s, n, con.respond)
    ensures spec.nprocs == Some(n) && spec.pkgversion == Some(PackageVersion(s, n, con.respond))
  {
    ghost var start := con.log;
    var version := RunMake(con, s, n);
    if spec.pkgversion.None? {
      spec.pkgversion := Some(version);
    }
    XferPackages(con, spec.out, spec.src);
    Regroup2(start, MakeSteps(s, n, con.respond), XferSteps(s.src, s.out, Split(con.respond(FindCmd(s.src)))));
  }

  /** remote_get_nproc: int() of the stripped output of `nproc` in the container; None when
      int() raises ValueError. */
  method RemoteNproc(con: Connection) returns (jobs: Option<int>)
    modifies con
    ensures con.log == old(con.log) + [Run("nproc")]
    ensures jobs == NprocAnswer(con.respond)
  {
    var stdout := con.RunCmd("nproc");
    jobs := ParseInt(Strip(stdout));
  }

  /** The nproc query of a spec with no job count; the answer, a number or none, becomes the
      spec's job count. */
  method QueryJobCount(spec: BuildSpec, con: Connection) returns (n: Option<int>)
    requires spec.nprocs.None?
    modifies spec, con
    ensures con.log == old(con.log) + [Run("nproc")]
    ensures n == NprocAnswer(con.respond) && spec.nprocs == n
    ensures spec.pkgversion == old(spec.pkgversion)
  {
    n := RemoteNproc(con);
    spec.nprocs := n;
  }

  /** The nproc query, made when the spec has no job count; the count is recorded in the spec
      when the answer is a number. */
  method FillJobCount(spec: BuildSpec, con: Connection) returns (n: Option<int>)
    modifies spec, con
    ensures old(spec.nprocs).Some? ==> n == old(spec.nprocs) && con.log == old(con.log)
    ensures old(spec.nprocs).None? ==> n == NprocAnswer(con.respond) && con.log == old(con.log) + [Run("nproc")]
    ensures n.Some? ==> spec.nprocs == n
    ensures spec.pkgversion == old(spec.pkgversion)
  {
    if spec.nprocs.None? {
      n := QueryJobCount(spec, con);
    } else {
      n := spec.nprocs;
    }
  }

  /** Starting the container and connecting to it, then the nproc query when the spec has
      no job count. */
  method OpenSession(spec: BuildSpec, respond: string -> string, ip: Option<string>)
    returns (con: Connection, jobs: Option<int>)
    modifies spec
    ensures fresh(con) && con.respond == respond
    ensures con.log == ConnectSteps(old(spec.Now()), ip)
    ensures jobs == JobCount(old(spec.Now()), respond)
    ensures jobs.Some? ==> spec.nprocs == jobs
    ensures spec.pkgversion == old(spec.pkgversion)
  {
    con := new Connection(respond, [StartContainer(spec.container.name), Connect(ip, spec.container.user)]);
    jobs := FillJobCount(spec, con);
  }

  /** makepkg: starts the container, connects, fills in the job count and the package version
      when unset, and runs the steps of Plan. */
  method Makepkg(spec: BuildSpec, net: seq<Interface>, respond: string -> string) returns (session: Session)
    modifies spec
    ensures session == Plan(old(spec.Now()), net, respond)
    ensures session.raised.None? ==> spec.nprocs == JobCount(old(spec.Now()), respond)
    ensures session.raised.None? ==>
      spec.pkgversion == Some(PackageVersion(old(spec.Now()), spec.nprocs.value, respond))
  {
    var s := spec.Now();
    var ip := GetContainerIp(net, "inet");
    if ip.Failure? {
      PlanNoLoopback(s, net, respond);
      return Session([StartContainer(spec.container.name)], Some(ip.error));
    }
    var con, jobs := OpenSession(spec, respond, ip.value);
    if jobs.None? {
      PlanNoJobCount(s, net, respond, ip.value);
      return Session(con.log, Some(ValueError(Strip(respond("nproc")))));
    }
    var n := jobs.value;
    assert spec.Now() == s.(nprocs := Some(n));
    BuildAndFetch(spec, con, s, n);
    PlanCompleted(s, net, respond, ip.value, n);
    return Session(con.log, None);
  }

  /** A network state without 'lo' stops makepkg right after the container start. */
  lemma {:induction false} PlanNoLoopback(s: Settings, net: seq<Interface>, respond: string -> string)
    requires ContainerIp(net, "inet").Failure?
    ensures Plan(s, net, respond) == Session([StartContainer(s.container.name)], Some(ContainerIp(net, "inet").error))
  {
  }

  /** An nproc answer that is not a number stops makepkg right after the query. */
  lemma {:induction false} PlanNoJobCount(s: Settings, net: seq<Interface>, respond: string -> string, ip: Option<string>)
    requires ContainerIp(net, "inet") == Success(ip) && JobCount(s, respond).None?
    ensures Plan(s, net, respond) == Session(ConnectSteps(s, ip), Some(ValueError(Strip(respond("nproc")))))
  {
  }

  /** The steps of a makepkg that gets past the nproc query. */
  lemma {:induction false} PlanCompleted(s: Settings, net: seq<Interface>, respond: string -> string,
                                         ip: Option<string>, n: int)
    requires ContainerIp(net, "inet") == Success(ip) && JobCount(s, respond) == Some(n)
    ensures Plan(s, net, respond) == Session(ConnectSteps(s, ip) + AfterConnect(s, n, respond), None)
  {
  }

  /** With no job count set, the first command run in the container is the nproc query. */
  lemma {:induction false} NprocFirst(s: Settings, net: seq<Interface>, respond: string -> string)
    requires s.nprocs.None? && ContainerIp(net, "inet").Success?
    ensures var log := Plan(s, net, respond).log;
      |log| >= 3 && log[2] == Run("nproc") && !log[0].Run? && !log[1].Run?
  {
    var ip := ContainerIp(net, "inet").value;
    var start := ConnectSteps(s, ip);
    assert start == [StartContainer(s.container.name), Connect(ip, s.container.user), Run("nproc")];
    match JobCount(s, respond)
    case None =>
    case Some(n) =>
      PlanCompleted(s, net, respond, ip, n);
      IndexFront(start, AfterConnect(s, n, respond), 0);
      IndexFront(start, AfterConnect(s, n, respond), 1);
      IndexFront(start, AfterConnect(s, n, respond), 2);
  }

  /** With a job count set, makepkg goes from the connection straight to the make phase:
      no nproc query is made. */
  lemma {:induction false} NoNprocWhenSet(s: Settings, net: seq<Interface>, respond: string -> string)
    requires s.nprocs.Some? && ContainerIp(net, "inet").Success?
    ensures Plan(s, net, respond) ==
      Session([StartContainer(s.container.name), Connect(ContainerIp(net, "inet").value, s.container.user)]
              + AfterConnect(s, s.nprocs.value, respond), None)
  {
    var ip := ContainerIp(net, "inet").value;
    assert ConnectSteps(s, ip) == [StartContainer(s.container.name), Connect(ip, s.container.user)];
    PlanCompleted(s, net, respond, ip, s.nprocs.value);
  }

  /** A set package version is used as it is, and no kernelrelease query is made for it. */
  lemma {:induction false} SetVersionKept(s: Settings, n: int, respond: string -> string)
    requires s.pkgversion.Some?
    ensures PackageVersion(s, n, respond) == s.pkgversion.value
    ensures BuildStep(s, n, respond) ==
      Run(MakeFullCmd(s.target, s.src, n, s.kernelVersion, s.pkgversion.value, s.pkg))
    ensures VersionSteps(s, n) == []
    ensures Run(KernelReleaseCmd(s.src, n, s.kernelVersion)) !in ConfigureSteps(s, n) + [BuildStep(s, n, respond)]
  {
    KernelReleaseIsNotMake(s.src, n, s.kernelVersion, "oldconfig");
    KernelReleaseIsNotMake(s.src, n, s.kernelVersion, "prepare");
    KernelReleaseIsNotFullMake(s, n, s.pkgversion.value);
    assert ConfigureSteps(s, n) + [BuildStep(s, n, respond)] ==
      [Run(MakeCmd("oldconfig", s.src, n, s.kernelVersion)), Run(MakeCmd("prepare", s.src, n, s.kernelVersion)),
       BuildStep(s, n, respond)];
  }

  /** The kernelrelease query starts "make -s", a make "make -C". */
  lemma {:induction false} KernelReleaseIsNotMake(src: string, n: int, kv: KernelVersion, target: string)
    ensures KernelReleaseCmd(src, n, kv) != MakeCmd(target, src, n, kv)
  {
    var a := ["make -s"] + CommonWords(src, n, kv) + ["kernelrelease"];
    var b := ["make"] + CommonWords(src, n, kv) + [target];
    assert a[1..] == CommonWords(src, n, kv) + ["kernelrelease"];
    assert b[1..] == CommonWords(src, n, kv) + [target];
    JoinStartsWith(" ", a[1..]);
    JoinStartsWith(" ", b[1..]);
    assert KernelReleaseCmd(src, n, kv)[5] == '-';
    assert MakeCmd(target, src, n, kv)[5] == '-';
    assert KernelReleaseCmd(src, n, kv)[6] == 's';
    assert MakeCmd(target, src, n, kv)[6] == 'C';
  }

  lemma {:induction false} KernelReleaseIsNotFullMake(s: Settings, n: int, v: string)
    ensures Run(KernelReleaseCmd(s.src, n, s.kernelVersion)) != Run(MakeFullCmd(s.target, s.src, n, s.kernelVersion, v, s.pkg))
  {
    var a := ["make -s"] + CommonWords(s.src, n, s.kernelVersion) + ["kernelrelease"];
    var b := ["make"] + CommonWords(s.src, n, s.kernelVersion) + PkgWords(v, s.pkg) + [s.target];
    assert a[1..] == CommonWords(s.src, n, s.kernelVersion) + ["kernelrelease"];
    assert b[1..] == CommonWords(s.src, n, s.kernelVersion) + PkgWords(v, s.pkg) + [s.target];
    JoinStartsWith(" ", a[1..]);
    JoinStartsWith(" ", b[1..]);
    assert KernelReleaseCmd(s.src, n, s.kernelVersion)[6] == 's';
    assert MakeFullCmd(s.target, s.src, n, s.kernelVersion, v, s.pkg)[6] == 'C';
  }

  /** An unset package version is the kernelrelease, '-', and the release, which reads back. */
  lemma {:induction false} UnsetVersionFromRelease(s: Settings, n: int, respond: string -> string)
    requires s.pkgversion.None?
    ensures var krel := Strip(respond(KernelReleaseCmd(s.src, n, s.kernelVersion)));
      var v := PackageVersion(s, n, respond);
      && v[..|krel|] == krel && v[|krel|] == '-'
      && ParseInt(v[|krel| + 1..]) == Some(s.pkg.pkgrel)
  {
    var krel := Strip(respond(KernelReleaseCmd(s.src, n, s.kernelVersion)));
    var v := PackageVersion(s, n, respond);
    assert v == (krel + "-") + IntToString(s.pkg.pkgrel);
    assert v[..|krel|] == krel && v[|krel|] == '-';
    NumberAfter(krel + "-", s.pkg.pkgrel);
  }

  /** cmd_build. */
  method CmdBuild(args: BuildArgs, scriptDir: seq<string>, net: seq<Interface>, respond: string -> string)
    returns (spec: BuildSpec, session: Session)
    ensures session == Plan(Settings(args.target, args.j, "devel/linux", Paths.PurePath(true, scriptDir + ["out"]),
                                           args.config, args.clean, KernelVersion(true, LocalVersion(args.suffix), ""),
                                           None, Pkg(args.pkgrel, "linux-surface", "unstable"),
                                           Container("kdev-deb10", "build")), net, respond)
  {
    spec := new BuildSpec(args, scriptDir);
    session := Makepkg(spec, net, respond);
  }
}
