/** The part of the operating system the volume code talks to, reduced to abstract
    state: the directories and other files that exist, and the bind mounts
    (for each mount point, the sources mounted on it). Every call that the
    kernel may refuse for reasons outside this state (permissions, I/O, a busy
    mount) fails nondeterministically; the
    cases that the Go library decides from the state alone are deterministic. */
module Fs {

  type Path = string

  /** filepath.Join(base, name), without the lexical cleaning of the Go library:
      the two agree when `base` is already clean and is neither "/" nor ".",
      and `name` is a PlainName. For "/" and "." Go gives "/x" and "x" where
      this gives "//x" and "./x". */
  function Join(base: Path, name: Path): Path
  {
    base + "/" + name
  }

  /** A single path element that filepath.Join keeps as it is: not empty, no
      separator, and neither "." nor "..". */
  predicate PlainName(name: Path)
  {
    name != "" && '/' !in name && name != "." && name != ".."
  }

  /** `d` is `p` itself or lies somewhere underneath it. */
  predicate Within(d: Path, p: Path)
  {
    d == p || p + "/" <= d
  }

  /** `d` is an immediate entry of directory `p`. */
  predicate IsChild(d: Path, p: Path)
  {
    p + "/" <= d && |p| + 1 < |d| && '/' !in d[|p| + 1..]
  }

  /** The name under which `d` is listed in its parent `p`. */
  function ChildName(d: Path, p: Path): Path
    requires IsChild(d, p)
  {
    d[|p| + 1..]
  }

  /** The paths of `s` that are neither `p` nor underneath it. */
  function Outside(s: set<Path>, p: Path): (r: set<Path>)
    ensures r <= s
    ensures forall d :: d in s && !Within(d, p) <==> d in r
  {
    set d | d in s && !Within(d, p)
  }

  /** The names of the entries of directory `p` among the paths `s`. */
  function ChildNames(s: set<Path>, p: Path): set<Path>
  {
    set d | d in s && IsChild(d, p) :: ChildName(d, p)
  }

  /** A plain name joined to a directory is an entry of it listed under that name. */
  lemma {:induction false} JoinIsChild(p: Path, name: Path)
    requires PlainName(name)
    ensures IsChild(Join(p, name), p) && ChildName(Join(p, name), p) == name
  {
    var d := Join(p, name);
    assert d == (p + "/") + name;
    assert d[..|p| + 1] == p + "/";
    assert d[|p| + 1..] == name;
  }

  /** A child's path is the join of its parent with its name. */
  lemma {:induction false} ChildIsJoin(d: Path, p: Path)
    requires IsChild(d, p)
    ensures Join(p, ChildName(d, p)) == d
  {
    var n := ChildName(d, p);
    assert d == d[..|p| + 1] + d[|p| + 1..];
    assert d[..|p| + 1] == p + "/";
  }

  /** One entry of os.ReadDir. */
  datatype DirEntry = DirEntry(name: Path, isDir: bool)

  function Names(entries: seq<DirEntry>): (r: set<Path>)
    ensures forall i :: 0 <= i < |entries| ==> entries[i].name in r
    ensures forall n :: n in r ==> exists i :: 0 <= i < |entries| && entries[i].name == n
  {
    set i | 0 <= i < |entries| :: entries[i].name
  }

  /** The mount table: for each mount point, the sources bind-mounted on it,
      oldest first. A new bind mount on a mount point stacks over the old
      ones, and only the last is visible there. */
  type MountTable = map<Path, seq<Path>>

  /** `mount --bind source target`: stacks `source` on `target`. */
  function Push(m: MountTable, target: Path, source: Path): MountTable
  {
    m[target := (if target in m then m[target] else []) + [source]]
  }

  /** Unmounting `target` takes off its most recent mount only. */
  function Pop(m: MountTable, target: Path): MountTable
    requires target in m
  {
    if |m[target]| <= 1 then m - {target} else m[target := m[target][..|m[target]| - 1]]
  }

  /** Every mount point carries at least one mount. */
  predicate Stacked(m: MountTable)
  {
    forall t | t in m :: m[t] != []
  }

  /** Mounting and then unmounting the same target restores the table. */
  lemma {:induction false} PopPush(m: MountTable, target: Path, source: Path)
    requires Stacked(m)
    ensures Stacked(Push(m, target, source))
    ensures Pop(Push(m, target, source), target) == m
  {
    var pushed := Push(m, target, source);
    if target in m {
      assert |pushed[target]| == |m[target]| + 1 > 1;
      assert pushed[target][..|pushed[target]| - 1] == m[target];
      assert Pop(pushed, target) == m[target := m[target]];
    } else {
      assert |pushed[target]| == 1;
      assert Pop(pushed, target) == m;
    }
  }

  /** The visible sources of the mounts at or under `p`: removing the tree at
      `p` reaches into them through their mount points. */
  function Exposed(m: MountTable, p: Path): set<Path>
  {
    set t | t in m && Within(t, p) && m[t] != [] :: m[t][|m[t]| - 1]
  }

  /** The paths of `s` that lie under none of `roots`. */
  function OutsideAll(s: set<Path>, roots: set<Path>): set<Path>
  {
    set d | d in s && forall q | q in roots :: !Within(d, q)
  }

  class Host {
    var dirs: set<Path>
    var files: set<Path>
    var mounts: MountTable

    /** A path is a directory or a file, never both, and every mount point
        exists and carries at least one mount. */
    ghost predicate Valid()
      reads this
    {
      && dirs !! files
      && Stacked(mounts)
      && forall t | t in mounts :: t in dirs || t in files
    }

    constructor (dirs0: set<Path>, files0: set<Path>)
      requires dirs0 !! files0
      ensures Valid()
      ensures dirs == dirs0 && files == files0 && mounts == map[]
    {
      dirs, files, mounts := dirs0, files0, map[];
    }

    /** os.Stat succeeds. */
    predicate Exists(p: Path)
      reads this
    {
      p in dirs || p in files
    }

    /** Nothing exists at `p` or underneath it. */
    predicate NothingAt(p: Path)
      reads this
    {
      forall d | d in dirs + files :: !Within(d, p)
    }

    /** Something is mounted at `p` or underneath it. */
    predicate MountedUnder(p: Path)
      reads this
    {
      exists t :: t in mounts && Within(t, p)
    }

    /** os.MkdirAll(p, mode). It first stats `p`: an existing directory is a
        success and any other existing file a failure; otherwise the creation may fail. */
    method MkdirAll(p: Path) returns (ok: bool)
      requires Valid()
      modifies this
      ensures Valid()
      ensures p in old(dirs) ==> ok
      ensures p in old(files) ==> !ok
      ensures dirs == if ok then old(dirs) + {p} else old(dirs)
      ensures files == old(files) && mounts == old(mounts)
    {
      if p in dirs {
        ok := true;
      } else if p in files {
        ok := false;
      } else {
        ok :| true;
        if ok {
          dirs := dirs + {p};
        }
      }
    }

    /** os.RemoveAll(p). Nothing to remove is a success. A mount point at or
        under `p` cannot be removed (EBUSY), so the call then fails, after
        descending through the mount point into the mounted source. A failure may
        leave some of what is underneath `p` or inside such a source removed, but
        touches nothing else, and keeps `p` itself (it is removed last) and every
        mount point. */
    method RemoveAll(p: Path) returns (ok: bool)
      requires Valid()
      modifies this
      ensures Valid()
      ensures old(NothingAt(p)) ==> ok
      ensures old(MountedUnder(p)) ==> !ok
      ensures ok ==> dirs == Outside(old(dirs), p) && files == Outside(old(files), p)
      ensures ok ==> NothingAt(p)
      ensures !ok ==> dirs <= old(dirs) && files <= old(files)
      ensures !ok ==>
        && OutsideAll(dirs, {p} + Exposed(mounts, p)) == OutsideAll(old(dirs), {p} + Exposed(mounts, p))
        && OutsideAll(files, {p} + Exposed(mounts, p)) == OutsideAll(old(files), {p} + Exposed(mounts, p))
      ensures !ok ==> (p in old(dirs) ==> p in dirs) && (p in old(files) ==> p in files)
      ensures mounts == old(mounts)
    {
      if NothingAt(p) {
        ok := true;
      } else if MountedUnder(p) {
        ok := false;
      } else {
        ok :| true;
        if ok {
          dirs, files := Outside(dirs, p), Outside(files, p);
        }
      }
    }

    /** `mount --bind source target`: both paths must exist, and the command
        may fail for other reasons. The new mount stacks on any earlier one at `target`. */
    method BindMount(source: Path, target: Path) returns (ok: bool)
      requires Valid()
      modifies this
      ensures Valid()
      ensures !(old(Exists(source)) && old(Exists(target))) ==> !ok
      ensures mounts == if ok then Push(old(mounts), target, source) else old(mounts)
      ensures dirs == old(dirs) && files == old(files)
    {
      if !(Exists(source) && Exists(target)) {
        ok := false;
      } else {
        ok :| true;
        if ok {
          mounts := Push(mounts, target, source);
        }
      }
    }

    /** syscall.Unmount(target, 0) or `umount target`: a target that is not a
        mount point is an error (EINVAL), and the call may fail for other
        reasons. It removes the most recent mount at `target` only. */
    method Unmount(target: Path) returns (ok: bool)
      requires Valid()
      modifies this
      ensures Valid()
      ensures target !in old(mounts) ==> !ok
      ensures ok ==> target in old(mounts) && mounts == Pop(old(mounts), target)
      ensures !ok ==> mounts == old(mounts)
      ensures dirs == old(dirs) && files == old(files)
    {
      if target !in mounts {
        ok := false;
      } else {
        ok :| true;
        if ok {
          mounts := Pop(mounts, target);
        }
      }
    }

    /** DirEntry.Info() for the entry at `p`: fails when the entry has gone,
        and may fail anyway; the size it reports is left open. */
    method Info(p: Path) returns (ok: bool, size: int)
      ensures !Exists(p) ==> !ok
    {
      if !Exists(p) {
        return false, 0;
      }
      ok :| true;
      size :| true;
    }

    /** os.ReadDir(p): fails unless `p` is a directory, and may fail anyway; on
        success lists every entry of `p` once, saying which are directories.
        The listing order is left open. */
    method ReadDir(p: Path) returns (ok: bool, entries: seq<DirEntry>)
      requires Valid()
      ensures p !in dirs ==> !ok
      ensures !ok ==> entries == []
      ensures ok ==> Names(entries) == ChildNames(dirs + files, p)
      ensures ok ==> forall i, j :: 0 <= i < j < |entries| ==> entries[i].name != entries[j].name
      ensures ok ==> forall i :: 0 <= i < |entries| ==> (entries[i].isDir <==> Join(p, entries[i].name) in dirs)
    {
      entries := [];
      if p !in dirs {
        ok := false;
        return;
      }
      ok :| true;
      if !ok {
        return;
      }
      var rest := set d | d in dirs + files && IsChild(d, p);
      while rest != {}
        invariant rest <= dirs + files
        invariant forall d :: d in rest ==> IsChild(d, p)
        invariant Names(entries) + ChildNames(rest, p) == ChildNames(dirs + files, p)
        invariant Names(entries) !! ChildNames(rest, p)
        invariant forall i, j :: 0 <= i < j < |entries| ==> entries[i].name != entries[j].name
        invariant forall i :: 0 <= i < |entries| ==> (entries[i].isDir <==> Join(p, entries[i].name) in dirs)
        decreases rest
      {
        var d :| d in rest;
        var n := ChildName(d, p);
        ChildIsJoin(d, p);
        NamesAppend(entries, DirEntry(n, d in dirs));
        ChildNamesRemove(rest, d, p);
        entries := entries + [DirEntry(n, d in dirs)];
        rest := rest - {d};
      }
    }
  }

  lemma NamesAppend(entries: seq<DirEntry>, e: DirEntry)
    ensures Names(entries + [e]) == Names(entries) + {e.name}
  {
    var s := entries + [e];
    assert s[|entries|] == e;
    forall n | n in Names(entries) ensures n in Names(s) {
      var i :| 0 <= i < |entries| && entries[i].name == n;
      assert s[i] == entries[i];
    }
  }

  /** Taking one entry out of a set of children takes exactly its name out of their names. */
  lemma ChildNamesRemove(rest: set<Path>, d: Path, p: Path)
    requires d in rest && forall x :: x in rest ==> IsChild(x, p)
    ensures ChildNames(rest, p) == ChildNames(rest - {d}, p) + {ChildName(d, p)}
    ensures ChildName(d, p) !in ChildNames(rest - {d}, p)
  {
    forall x | x in rest - {d}
      ensures ChildName(x, p) != ChildName(d, p)
    {
      ChildIsJoin(x, p);
      ChildIsJoin(d, p);
    }
  }
}
