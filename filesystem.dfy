/**
 * The file system as the scripts see it: every directory, by absolute path, with
 * the regular files directly inside it (name to content). A directory exists
 * exactly when its path is a key; a sub-tree is every path it is a prefix of.
 */
module FileSystem {
  import Paths
  import opened Maps

  /** An absolute path, as its list of components. */
  type Path = seq<string>

  /** The regular files directly inside one directory. */
  type Listing = map<string, string>

  type Dirs = map<Path, Listing>

  /** str() of an absolute path. */
  function Show(p: Path): string {
    Paths.Str(Paths.PurePath(true, p))
  }

  /** Path(p).parent: the last component dropped; the root is its own parent. */
  function ParentDir(p: Path): (r: Path)
    ensures p != [] ==> r + [p[|p| - 1]] == p
    ensures p == [] ==> r == []
  {
    if p == [] then [] else p[..|p| - 1]
  }

  /** The names in l that pass the test p. */
  function Names(l: Listing, p: string -> bool): (r: set<string>)
    ensures forall f :: f in r <==> f in l && p(f)
  {
    set f | f in l && p(f)
  }

  /** The files of l that fail the test p, with their contents. */
  function Keep(l: Listing, p: string -> bool): (r: Listing)
    ensures forall f :: f in r <==> f in l && !p(f)
    ensures forall f :: f in r ==> r[f] == l[f]
  {
    map f | f in l && !p(f) :: l[f]
  }

  /** The files of src named in `names` moved into dst under the same name. */
  function MoveSome(dirs: Dirs, src: Path, dst: Path, names: set<string>): Dirs
    requires src in dirs && dst in dirs
  {
    if src == dst then dirs
    else dirs[src := Without(dirs[src], names)][dst := dirs[dst] + Only(dirs[src], names)]
  }

  /** A move takes exactly the named files out of src and puts them into dst, replacing a file
      of the same name there; no other directory changes, and moving within one directory
      changes nothing. */
  lemma {:induction false} MoveSomeEffect(dirs: Dirs, src: Path, dst: Path, names: set<string>)
    requires src in dirs && dst in dirs
    ensures var r := MoveSome(dirs, src, dst, names);
      && r.Keys == dirs.Keys
      && (forall d :: d in dirs && d != src && d != dst ==> r[d] == dirs[d])
      && (src == dst ==> r == dirs)
      && (src != dst ==> forall f :: f in r[src] <==> f in dirs[src] && f !in names)
      && (src != dst ==> forall f :: f in r[src] ==> r[src][f] == dirs[src][f])
      && (src != dst ==> forall f :: f in r[dst] <==> f in dirs[dst] || (f in dirs[src] && f in names))
      && (src != dst ==> forall f :: f in r[dst] ==>
           r[dst][f] == if f in dirs[src] && f in names then dirs[src][f] else dirs[dst][f])
  {
  }

  /** Every directory at or below p removed. */
  function WithoutTree(dirs: Dirs, p: Path): (r: Dirs)
    ensures forall d :: d in r <==> d in dirs && !(p <= d)
    ensures forall d :: d in r ==> r[d] == dirs[d]
  {
    map d | d in dirs && !(p <= d) :: dirs[d]
  }

  /** `if not os.path.exists(dst): os.mkdir(dst)`, then every file of src passing p moved
      into dst under its own name. */
  function Collect(dirs: Dirs, src: Path, dst: Path, p: string -> bool): (r: Dirs)
    requires src in dirs && src != dst
    ensures r.Keys == dirs.Keys + {dst}
    ensures forall d :: d in dirs && d != src && d != dst ==> r[d] == dirs[d]
    ensures r[src] == Keep(dirs[src], p)
    ensures forall f :: f in r[dst] <==> (dst in dirs && f in dirs[dst]) || (f in dirs[src] && p(f))
    ensures forall f :: f in r[dst] ==>
      r[dst][f] == if f in dirs[src] && p(f) then dirs[src][f] else dirs[dst][f]
  {
    var made := if dst in dirs then dirs else dirs[dst := map[]];
    MoveSomeEffect(made, src, dst, Names(made[src], p));
    MoveSome(made, src, dst, Names(made[src], p))
  }

  /** Collecting when dst exists and no file of src passes p changes nothing. */
  lemma {:induction false} CollectNothing(dirs: Dirs, src: Path, dst: Path, p: string -> bool)
    requires src in dirs && src != dst && dst in dirs
    requires forall f :: f in dirs[src] ==> !p(f)
    ensures Collect(dirs, src, dst, p) == dirs
  {
    assert Names(dirs[src], p) == {};
    MoveNone(dirs, src, dst);
  }

  /** Collecting again right after a collection changes nothing: no file left in src passes p. */
  lemma {:induction false} CollectTwice(dirs: Dirs, src: Path, dst: Path, p: string -> bool)
    requires src in dirs && src != dst
    ensures var once := Collect(dirs, src, dst, p); Collect(once, src, dst, p) == once
  {
    var once := Collect(dirs, src, dst, p);
    assert dst in once;
    CollectNothing(once, src, dst, p);
  }

  /** base/a is neither base itself nor at or above a sibling base/b. */
  lemma {:induction false} Beside(base: Path, a: string, b: string)
    requires a != b
    ensures !(base + [a] <= base) && !(base + [a] <= base + [b])
  {
    assert (base + [a])[|base|] == a;
    assert (base + [b])[|base|] == b;
  }

  /** Moving no file changes nothing. */
  lemma {:induction false} MoveNone(dirs: Dirs, src: Path, dst: Path)
    requires src in dirs && dst in dirs
    ensures MoveSome(dirs, src, dst, {}) == dirs
  {
    if src != dst {
      WithoutNothing(dirs[src]);
      OnlyNothing(dirs[src], dirs[dst]);
      UpdateSame(dirs, src, dst);
    }
  }

  /** Moving the files one at a time is moving them all at once. */
  lemma {:induction false} MoveSomeStep(dirs: Dirs, src: Path, dst: Path, done: set<string>, f: string)
    requires src in dirs && dst in dirs && f in dirs[src] && f !in done
    ensures var m := MoveSome(dirs, src, dst, done); src in m && dst in m && f in m[src]
    ensures MoveSome(MoveSome(dirs, src, dst, done), src, dst, {f}) == MoveSome(dirs, src, dst, done + {f})
  {
    if src != dst {
      var s, d := dirs[src], dirs[dst];
      var m := MoveSome(dirs, src, dst, done);
      assert m[src] == Without(s, done) && m[dst] == d + Only(s, done);
      WithoutStep(s, done, f);
      OnlyStep(s, d, done, f);
      UpdateAgain(dirs, src, dst, Without(s, done), d + Only(s, done),
                  Without(s, done + {f}), d + Only(s, done + {f}));
    }
  }

  class Fs {
    var dirs: Dirs

    constructor (dirs: Dirs)
      ensures this.dirs == dirs
    {
      this.dirs := dirs;
    }

    /** os.mkdir(p). */
    method MakeDir(p: Path)
      requires p !in dirs
      modifies this
      ensures dirs == old(dirs)[p := map[]]
    {
      dirs := dirs[p := map[]];
    }

    /** shutil.move(src/name, dst/name) of a regular file. */
    method Move(src: Path, dst: Path, name: string)
      requires src in dirs && dst in dirs && name in dirs[src]
      modifies this
      ensures dirs == MoveSome(old(dirs), src, dst, {name})
    {
      var content := dirs[src][name];
      if src == dst {
        RemoveRestore(dirs[src], name);
      } else {
        WithoutOne(dirs[src], name);
        OnlyOne(dirs[src], dirs[dst], name);
      }
      dirs := dirs[src := dirs[src] - {name}];
      dirs := dirs[dst := dirs[dst][name := content]];
      if src == dst {
        UpdateOne(old(dirs), src);
      }
    }

    /** os.remove(dir/name). */
    method Remove(dir: Path, name: string)
      requires dir in dirs && name in dirs[dir]
      modifies this
      ensures dirs == old(dirs)[dir := old(dirs)[dir] - {name}]
    {
      dirs := dirs[dir := dirs[dir] - {name}];
    }

    /** `if os.path.exists(dir/name): os.remove(dir/name)`. */
    method RemoveIfExists(dir: Path, name: string)
      requires dir in dirs
      modifies this
      ensures dirs == old(dirs)[dir := old(dirs)[dir] - {name}]
    {
      if name in dirs[dir] {
        Remove(dir, name);
      } else {
        assert dirs[dir] - {name} == dirs[dir];
      }
    }

    /** shutil.rmtree(p, ignore_errors=True): a missing tree is no error. */
    method RemoveTree(p: Path)
      modifies this
      ensures dirs == WithoutTree(old(dirs), p)
    {
      dirs := map d | d in dirs && !(p <= d) :: dirs[d];
    }

    /** `for file in os.listdir(src): if p(file): shutil.move(src/file, dst/file)`. */
    method MoveMatching(src: Path, dst: Path, p: string -> bool)
      requires src in dirs && dst in dirs
      modifies this
      ensures dirs == MoveSome(old(dirs), src, dst, Names(old(dirs)[src], p))
    {
      ghost var d0 := dirs;
      var pending := dirs[src].Keys;
      assert Names(d0[src], p) - pending == {};
      MoveNone(d0, src, dst);
      while pending != {}
        invariant src in dirs && dst in dirs
        invariant pending <= d0[src].Keys
        invariant dirs == MoveSome(d0, src, dst, Names(d0[src], p) - pending)
        decreases pending
      {
        var f :| f in pending;
        ghost var done := Names(d0[src], p) - pending;
        pending := pending - {f};
        if p(f) {
          MoveSomeStep(d0, src, dst, done, f);
          Move(src, dst, f);
          assert done + {f} == Names(d0[src], p) - pending;
        } else {
          assert done == Names(d0[src], p) - pending;
        }
      }
      assert Names(d0[src], p) - pending == Names(d0[src], p);
    }

    /** The effect of `Collect`, made with `MakeDir` and `MoveMatching`. */
    method CollectInto(src: Path, dst: Path, p: string -> bool)
      requires src in dirs && src != dst
      modifies this
      ensures dirs == Collect(old(dirs), src, dst, p)
    {
      if dst !in dirs {
        MakeDir(dst);
      }
      MoveMatching(src, dst, p);
    }

    /** `for file in os.listdir(dir): if p(file): os.remove(dir/file)`. */
    method RemoveMatching(dir: Path, p: string -> bool)
      requires dir in dirs
      modifies this
      ensures dirs == old(dirs)[dir := Keep(old(dirs)[dir], p)]
    {
      ghost var d0 := dirs;
      var pending := dirs[dir].Keys;
      assert dirs[dir] == map f | f in d0[dir] && (f in pending || !p(f)) :: d0[dir][f];
      while pending != {}
        invariant dir in dirs && pending <= d0[dir].Keys
        invariant dirs == d0[dir := map f | f in d0[dir] && (f in pending || !p(f)) :: d0[dir][f]]
        decreases pending
      {
        var f :| f in pending;
        pending := pending - {f};
        if p(f) {
          Remove(dir, f);
        }
        assert dirs[dir] == map g | g in d0[dir] && (g in pending || !p(g)) :: d0[dir][g];
      }
      assert dirs[dir] == Keep(d0[dir], p);
    }
  }
}
