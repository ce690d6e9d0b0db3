/** Directory trees, the paths the storage code builds while it walks them, and what those paths mean. */
module Trees {

  /** A directory: its subdirectories by name, and the names of its files. */
  datatype Tree = Dir(dirs: seq<Sub>, files: seq<string>)

  /** A directory with the name or the path it is known by. */
  datatype Sub = Sub(name: string, tree: Tree)

  /** `os.path.join` of two parts. */
  function Join(a: string, b: string): string {
    if b != [] && b[0] == '/' then b
    else if a == [] || a[|a| - 1] == '/' then a + b
    else a + "/" + b
  }

  /** A name a directory listing can return. */
  predicate IsName(n: string) {
    n != [] && '/' !in n
  }

  function Size(t: Tree): (n: nat)
    ensures n >= 1
  {
    1 + SizeOf(t.dirs)
  }

  function SizeOf(ds: seq<Sub>): nat
  {
    if ds == [] then 0 else Size(ds[0].tree) + SizeOf(ds[1..])
  }

  function Children(p: string, t: Tree): (q: seq<Sub>)
    ensures |q| == |t.dirs|
    ensures forall i :: 0 <= i < |q| ==> q[i] == Sub(Join(p, t.dirs[i].name), t.dirs[i].tree)
  {
    seq(|t.dirs|, i requires 0 <= i < |t.dirs| => Sub(Join(p, t.dirs[i].name), t.dirs[i].tree))
  }

  lemma {:induction false} SameSize(q: seq<Sub>, ds: seq<Sub>)
    requires |q| == |ds| && forall i :: 0 <= i < |q| ==> q[i].tree == ds[i].tree
    ensures SizeOf(q) == SizeOf(ds)
  {
    if q != [] {
      SameSize(q[1..], ds[1..]);
    }
  }

  function Joined(p: string, names: seq<string>): (r: seq<string>)
    ensures |r| == |names| && forall i :: 0 <= i < |r| ==> r[i] == Join(p, names[i])
  {
    seq(|names|, i requires 0 <= i < |names| => Join(p, names[i]))
  }

  /** The paths of all files below `p`. */
  function Files(p: string, t: Tree): seq<string>
    decreases Size(t), 0
  {
    SameSize(Children(p, t), t.dirs);
    Joined(p, t.files) + FilesOf(Children(p, t))
  }

  function FilesOf(q: seq<Sub>): seq<string>
    decreases SizeOf(q), 1
  {
    if q == [] then [] else
      assert SizeOf(q) == Size(q[0].tree) + SizeOf(q[1..]);
      Files(q[0].name, q[0].tree) + FilesOf(q[1..])
  }

  /** The paths of `p` and all directories below. */
  function Dirs(p: string, t: Tree): seq<string>
    decreases Size(t), 0
  {
    SameSize(Children(p, t), t.dirs);
    [p] + DirsOf(Children(p, t))
  }

  function DirsOf(q: seq<Sub>): seq<string>
    decreases SizeOf(q), 1
  {
    if q == [] then [] else Dirs(q[0].name, q[0].tree) + DirsOf(q[1..])
  }

  datatype Listing = Listing(dirs: seq<string>, files: seq<string>)

  function Names(ds: seq<Sub>): (r: seq<string>)
    ensures |r| == |ds| && forall i :: 0 <= i < |r| ==> r[i] == ds[i].name
  {
    seq(|ds|, i requires 0 <= i < |ds| => ds[i].name)
  }

  /** Listing directories from `p` on shows the tree. */
  ghost predicate Shows(listdir: string -> Listing, p: string, t: Tree)
    decreases Size(t), 0
  {
    SameSize(Children(p, t), t.dirs);
    listdir(p) == Listing(Names(t.dirs), t.files) && ShowsAll(listdir, Children(p, t))
  }

  ghost predicate ShowsAll(listdir: string -> Listing, q: seq<Sub>)
    decreases SizeOf(q), 1
  {
    q == [] || (Shows(listdir, q[0].name, q[0].tree) && ShowsAll(listdir, q[1..]))
  }

  lemma {:induction false} FilesConcat(a: seq<Sub>, b: seq<Sub>)
    ensures FilesOf(a + b) == FilesOf(a) + FilesOf(b)
    decreases |a|
  {
    if a == [] {
      assert a + b == b;
    } else {
      assert (a + b)[0] == a[0] && (a + b)[1..] == a[1..] + b;
      FilesConcat(a[1..], b);
    }
  }

  lemma {:induction false} DirsConcat(a: seq<Sub>, b: seq<Sub>)
    ensures DirsOf(a + b) == DirsOf(a) + DirsOf(b)
    decreases |a|
  {
    if a == [] {
      assert a + b == b;
    } else {
      assert (a + b)[0] == a[0] && (a + b)[1..] == a[1..] + b;
      DirsConcat(a[1..], b);
    }
  }

  lemma {:induction false} SizeConcat(a: seq<Sub>, b: seq<Sub>)
    ensures SizeOf(a + b) == SizeOf(a) + SizeOf(b)
    decreases |a|
  {
    if a == [] {
      assert a + b == b;
    } else {
      assert (a + b)[0] == a[0] && (a + b)[1..] == a[1..] + b;
      SizeConcat(a[1..], b);
    }
  }

  lemma {:induction false} ShowsConcat(a: seq<Sub>, b: seq<Sub>, listdir: string -> Listing)
    ensures ShowsAll(listdir, a + b) <==> ShowsAll(listdir, a) && ShowsAll(listdir, b)
    decreases |a|
  {
    if a == [] {
      assert a + b == b;
    } else {
      assert (a + b)[0] == a[0] && (a + b)[1..] == a[1..] + b;
      ShowsConcat(a[1..], b, listdir);
    }
  }

  /** Listing the first pending directory: its files are found, and its subdirectories join the others. */
  lemma Step(q: seq<Sub>, listdir: string -> Listing)
    requires q != [] && ShowsAll(listdir, q)
    ensures var p, t := q[0].name, q[0].tree; var rest := q[1..] + Children(p, t);
            && listdir(p) == Listing(Names(t.dirs), t.files)
            && ShowsAll(listdir, rest) && SizeOf(rest) == SizeOf(q) - 1
            && multiset(FilesOf(q)) == multiset(Joined(p, t.files)) + multiset(FilesOf(rest))
            && multiset(DirsOf(q)) == multiset{p} + multiset(DirsOf(rest))
  {
    var p, t := q[0].name, q[0].tree;
    FilesConcat(q[1..], Children(p, t));
    DirsConcat(q[1..], Children(p, t));
    SizeConcat(q[1..], Children(p, t));
    ShowsConcat(q[1..], Children(p, t), listdir);
    SameSize(Children(p, t), t.dirs);
    assert FilesOf(q) == Joined(p, t.files) + FilesOf(Children(p, t)) + FilesOf(q[1..]);
    assert DirsOf(q) == [p] + DirsOf(Children(p, t)) + DirsOf(q[1..]);
  }

  lemma Single(p: string, t: Tree, listdir: string -> Listing)
    requires Shows(listdir, p, t)
    ensures var q := [Sub(p, t)]; ShowsAll(listdir, q) && FilesOf(q) == Files(p, t) && DirsOf(q) == Dirs(p, t)
  {
    var q := [Sub(p, t)];
    assert q[1..] == [];
    assert FilesOf(q) == Files(p, t) + FilesOf([]);
    assert DirsOf(q) == Dirs(p, t) + DirsOf([]);
  }

  // ---------------------------------------------------------------------------------------------------------
  // Relative paths

  /** A directory path as a prefix of what lies below it. */
  function Base(p: string): string {
    if p == [] || p[|p| - 1] == '/' then p else p + "/"
  }

  function Prefixed(b: string, rels: seq<string>): (r: seq<string>)
    ensures |r| == |rels| && forall i :: 0 <= i < |r| ==> r[i] == b + rels[i]
  {
    seq(|rels|, i requires 0 <= i < |rels| => b + rels[i])
  }

  /** The files below a directory, relative to it. */
  function Rel(t: Tree): seq<string> {
    t.files + RelOf(t.dirs)
  }

  function RelOf(ds: seq<Sub>): seq<string> {
    if ds == [] then [] else Prefixed(ds[0].name + "/", Rel(ds[0].tree)) + RelOf(ds[1..])
  }

  /** A relative path is the name of a file, or the name of a subdirectory, a slash, and a path relative to that. */
  lemma RelMeans(t: Tree, x: string)
    ensures x in Rel(t)
       <==> x in t.files
            || exists i, y :: 0 <= i < |t.dirs| && y in Rel(t.dirs[i].tree) && x == t.dirs[i].name + "/" + y
  {
    RelOfMeans(t.dirs, x);
  }

  lemma {:induction false} RelOfMeans(ds: seq<Sub>, x: string)
    ensures x in RelOf(ds)
       <==> exists i, y :: 0 <= i < |ds| && y in Rel(ds[i].tree) && x == ds[i].name + "/" + y
  {
    if ds != [] {
      var n, rels, rest := ds[0].name, Rel(ds[0].tree), ds[1..];
      var head := Prefixed(n + "/", rels);
      RelOfMeans(rest, x);
      assert RelOf(ds) == head + RelOf(rest);
      hide Rel, RelOf;
      if x in head {
        var j :| 0 <= j < |head| && head[j] == x;
        assert rels[j] in rels && x == ds[0].name + "/" + rels[j];
      } else if x in RelOf(rest) {
        var i, y :| 0 <= i < |rest| && y in Rel(rest[i].tree) && x == rest[i].name + "/" + y;
        assert ds[i + 1] == rest[i];
      }
      if i, y :| 0 <= i < |ds| && y in Rel(ds[i].tree) && x == ds[i].name + "/" + y {
        if i == 0 {
          var j :| 0 <= j < |rels| && rels[j] == y;
          assert head[j] == x;
        } else {
          assert rest[i - 1] == ds[i];
        }
      }
    }
  }

  ghost predicate NoTwice(s: seq<string>) {
    forall i, j :: 0 <= i < j < |s| ==> s[i] != s[j]
  }

  ghost predicate Apart(a: seq<string>, b: seq<string>) {
    forall i, j :: 0 <= i < |a| && 0 <= j < |b| ==> a[i] != b[j]
  }

  /** Names are names, and siblings of one kind have different ones. */
  ghost predicate WellNamed(t: Tree) {
    (forall i :: 0 <= i < |t.files| ==> IsName(t.files[i])) && NoTwice(t.files) && WellNamedAll(t.dirs)
  }

  ghost predicate WellNamedAll(ds: seq<Sub>) {
    ds == [] || (&& IsName(ds[0].name) && WellNamed(ds[0].tree) && WellNamedAll(ds[1..])
                 && forall j :: 1 <= j < |ds| ==> ds[j].name != ds[0].name)
  }

  lemma JoinName(p: string, n: string)
    requires IsName(n)
    ensures Join(p, n) == Base(p) + n && Base(Join(p, n)) == Base(p) + (n + "/")
  {
    assert n[0] in n && n[|n| - 1] in n;
    assert Join(p, n) == Base(p) + n;
    assert (Base(p) + n)[|Base(p) + n| - 1] == n[|n| - 1];
  }

  lemma PrefixTwice(a: string, b: string, rels: seq<string>)
    ensures Prefixed(a + b, rels) == Prefixed(a, Prefixed(b, rels))
  {
    forall i | 0 <= i < |rels| ensures Prefixed(a + b, rels)[i] == Prefixed(a, Prefixed(b, rels))[i] {
      assert (a + b) + rels[i] == a + (b + rels[i]);
    }
  }

  lemma PrefixConcat(b: string, x: seq<string>, y: seq<string>)
    ensures Prefixed(b, x + y) == Prefixed(b, x) + Prefixed(b, y)
  {
  }

  lemma JoinedNames(p: string, names: seq<string>)
    requires forall i :: 0 <= i < |names| ==> IsName(names[i])
    ensures Joined(p, names) == Prefixed(Base(p), names)
  {
    forall i | 0 <= i < |names| ensures Joined(p, names)[i] == Base(p) + names[i] {
      JoinName(p, names[i]);
    }
  }

  /** The paths the walk builds are the source, one slash, and the path relative to it. */
  lemma {:induction false} FilesAreRelative(p: string, t: Tree)
    requires WellNamed(t)
    ensures Files(p, t) == Prefixed(Base(p), Rel(t))
    decreases Size(t), 0
  {
    SameSize(Children(p, t), t.dirs);
    JoinedNames(p, t.files);
    FilesOfRelative(p, t.dirs, Children(p, t));
    PrefixConcat(Base(p), t.files, RelOf(t.dirs));
  }

  lemma {:induction false} FilesOfRelative(p: string, ds: seq<Sub>, q: seq<Sub>)
    requires WellNamedAll(ds) && |q| == |ds|
    requires forall i :: 0 <= i < |q| ==> q[i] == Sub(Join(p, ds[i].name), ds[i].tree)
    ensures FilesOf(q) == Prefixed(Base(p), RelOf(ds))
    decreases SizeOf(ds), 1
  {
    if ds != [] {
      var n, t := ds[0].name, ds[0].tree;
      JoinName(p, n);
      FilesAreRelative(q[0].name, t);
      FilesOfRelative(p, ds[1..], q[1..]);
      PrefixTwice(Base(p), n + "/", Rel(t));
      PrefixConcat(Base(p), Prefixed(n + "/", Rel(t)), RelOf(ds[1..]));
    }
  }

  /** A path up to its first slash. */
  function FirstPart(s: string): string {
    if s == [] || s[0] == '/' then [] else [s[0]] + FirstPart(s[1..])
  }

  lemma {:induction false} FirstPartIs(n: string, x: string)
    requires '/' !in n
    ensures FirstPart(n + ("/" + x)) == n
  {
    var s := n + ("/" + x);
    if n == [] {
      assert s[0] == '/';
    } else {
      assert s[0] == n[0] && n[0] in n && s[1..] == n[1..] + ("/" + x);
      assert forall c :: c in n[1..] ==> c in n;
      FirstPartIs(n[1..], x);
    }
  }

  lemma {:induction false} FirstParts(ds: seq<Sub>, s: string)
    requires WellNamedAll(ds) && s in RelOf(ds)
    ensures '/' in s && exists i :: 0 <= i < |ds| && FirstPart(s) == ds[i].name
  {
    var head := Prefixed(ds[0].name + "/", Rel(ds[0].tree));
    if s in head {
      var i :| 0 <= i < |head| && head[i] == s;
      var x := Rel(ds[0].tree)[i];
      assert s == ds[0].name + ("/" + x);
      FirstPartIs(ds[0].name, x);
      assert s[|ds[0].name|] == '/';
    } else {
      FirstParts(ds[1..], s);
      var i :| 0 <= i < |ds[1..]| && FirstPart(s) == ds[1..][i].name;
      assert ds[i + 1] == ds[1..][i];
    }
  }

  lemma NoTwiceConcat(a: seq<string>, b: seq<string>)
    requires NoTwice(a) && NoTwice(b) && Apart(a, b)
    ensures NoTwice(a + b)
  {
  }

  lemma NoTwicePrefixed(b: string, rels: seq<string>)
    requires NoTwice(rels)
    ensures NoTwice(Prefixed(b, rels))
  {
    var r := Prefixed(b, rels);
    forall i, j | 0 <= i < j < |r| ensures r[i] != r[j] {
      assert r[i][|b|..] == rels[i] && r[j][|b|..] == rels[j];
    }
  }

  /** In a tree whose siblings have different names no file has the same path as another. */
  lemma {:induction false} RelNoTwice(t: Tree)
    requires WellNamed(t)
    ensures NoTwice(Rel(t))
  {
    RelOfNoTwice(t.dirs);
    forall i, j | 0 <= i < |t.files| && 0 <= j < |RelOf(t.dirs)| ensures t.files[i] != RelOf(t.dirs)[j] {
      FirstParts(t.dirs, RelOf(t.dirs)[j]);
      assert IsName(t.files[i]);
    }
    NoTwiceConcat(t.files, RelOf(t.dirs));
  }

  lemma {:induction false} RelOfNoTwice(ds: seq<Sub>)
    requires WellNamedAll(ds)
    ensures NoTwice(RelOf(ds))
  {
    if ds != [] {
      var head, tail := Prefixed(ds[0].name + "/", Rel(ds[0].tree)), RelOf(ds[1..]);
      RelNoTwice(ds[0].tree);
      RelOfNoTwice(ds[1..]);
      NoTwicePrefixed(ds[0].name + "/", Rel(ds[0].tree));
      forall i, j | 0 <= i < |head| && 0 <= j < |tail| ensures head[i] != tail[j] {
        FirstPartIs(ds[0].name, Rel(ds[0].tree)[i]);
        assert head[i] == ds[0].name + ("/" + Rel(ds[0].tree)[i]);
        FirstParts(ds[1..], tail[j]);
        var k :| 0 <= k < |ds[1..]| && FirstPart(tail[j]) == ds[1..][k].name;
        assert ds[1..][k] == ds[k + 1];
      }
      NoTwiceConcat(head, tail);
    }
  }

  /** So a listing that holds the path of every file as often as the tree has it holds each exactly once. */
  lemma FilesNoTwice(p: string, t: Tree)
    requires WellNamed(t)
    ensures NoTwice(Files(p, t))
  {
    FilesAreRelative(p, t);
    RelNoTwice(t);
    NoTwicePrefixed(Base(p), Rel(t));
  }

  /** The directories below a directory, relative to it. */
  function SubRel(ds: seq<Sub>): seq<string> {
    if ds == [] then [] else [ds[0].name] + Prefixed(ds[0].name + "/", SubRel(ds[0].tree.dirs)) + SubRel(ds[1..])
  }

  lemma {:induction false} DirsAreRelative(p: string, ds: seq<Sub>, q: seq<Sub>)
    requires WellNamedAll(ds) && |q| == |ds|
    requires forall i :: 0 <= i < |q| ==> q[i] == Sub(Join(p, ds[i].name), ds[i].tree)
    ensures DirsOf(q) == Prefixed(Base(p), SubRel(ds))
    decreases SizeOf(ds)
  {
    if ds != [] {
      var n, t := ds[0].name, ds[0].tree;
      assert Size(t) == 1 + SizeOf(t.dirs);
      JoinName(p, n);
      SameSize(Children(q[0].name, t), t.dirs);
      DirsAreRelative(q[0].name, t.dirs, Children(q[0].name, t));
      DirsAreRelative(p, ds[1..], q[1..]);
      assert DirsOf(q) == [q[0].name] + DirsOf(Children(q[0].name, t)) + DirsOf(q[1..]);
      hide DirsOf, WellNamedAll, Base, Join, SizeOf, Size;
      PrefixTwice(Base(p), n + "/", SubRel(t.dirs));
      PrefixThree(Base(p), n, Prefixed(n + "/", SubRel(t.dirs)), SubRel(ds[1..]));
    }
  }

  lemma PrefixThree(b: string, n: string, x: seq<string>, y: seq<string>)
    ensures Prefixed(b, [n] + x + y) == [b + n] + Prefixed(b, x) + Prefixed(b, y)
  {
  }

  lemma {:induction false} FirstPartName(n: string)
    requires '/' !in n
    ensures FirstPart(n) == n
  {
    if n != [] {
      assert n[0] in n && forall c :: c in n[1..] ==> c in n;
      FirstPartName(n[1..]);
    }
  }

  lemma {:induction false} SubParts(ds: seq<Sub>, s: string)
    requires WellNamedAll(ds) && s in SubRel(ds)
    ensures s != [] && exists i :: 0 <= i < |ds| && FirstPart(s) == ds[i].name
  {
    var n := ds[0].name;
    var below := Prefixed(n + "/", SubRel(ds[0].tree.dirs));
    if s == n {
      FirstPartName(n);
    } else if s in below {
      var i :| 0 <= i < |below| && below[i] == s;
      var x := SubRel(ds[0].tree.dirs)[i];
      assert s == n + ("/" + x);
      FirstPartIs(n, x);
    } else {
      SubParts(ds[1..], s);
      var i :| 0 <= i < |ds[1..]| && FirstPart(s) == ds[1..][i].name;
      assert ds[i + 1] == ds[1..][i];
    }
  }

  lemma {:induction false} SubRelNoTwice(ds: seq<Sub>)
    requires WellNamedAll(ds)
    ensures NoTwice(SubRel(ds))
  {
    if ds != [] {
      var n, subs, tail := ds[0].name, SubRel(ds[0].tree.dirs), SubRel(ds[1..]);
      var below := Prefixed(n + "/", subs);
      SubRelNoTwice(ds[0].tree.dirs);
      SubRelNoTwice(ds[1..]);
      NoTwicePrefixed(n + "/", subs);
      assert Apart([n], below) by {
        forall j | 0 <= j < |below| ensures n != below[j] { assert |below[j]| > |n|; }
      }
      NoTwiceConcat([n], below);
      FirstPartName(n);
      forall i, j | 0 <= i < |[n] + below| && 0 <= j < |tail| ensures ([n] + below)[i] != tail[j] {
        if i > 0 {
          FirstPartIs(n, subs[i - 1]);
          assert ([n] + below)[i] == n + ("/" + subs[i - 1]);
        }
        SubParts(ds[1..], tail[j]);
        var k :| 0 <= k < |ds[1..]| && FirstPart(tail[j]) == ds[1..][k].name;
        assert ds[1..][k] == ds[k + 1];
      }
      NoTwiceConcat([n] + below, tail);
    }
  }

  /** And listing every directory as often as the tree has it is listing each exactly once. */
  lemma DirsNoTwice(p: string, t: Tree)
    requires WellNamed(t)
    ensures NoTwice(Dirs(p, t))
  {
    var q, rels := Children(p, t), SubRel(t.dirs);
    DirsAreRelative(p, t.dirs, q);
    SubRelNoTwice(t.dirs);
    NoTwicePrefixed(Base(p), rels);
    forall j | 0 <= j < |rels| ensures p != Base(p) + rels[j] {
      SubParts(t.dirs, rels[j]);
      assert |Base(p) + rels[j]| > |p|;
    }
    NoTwiceConcat([p], DirsOf(q));
  }

  // ---------------------------------------------------------------------------------------------------------
  // Cutting the source off again

  /** Python's `s[n:]`. */
  function Slice(s: string, n: nat): string {
    if n <= |s| then s[n..] else []
  }

  predicate GoodSource(p: string) {
    p != [] && p[|p| - 1] != '/'
  }

  /** Cutting the length of the source and one more character off a path below it gives the relative path back if and
    only if the source is not empty and does not end in a slash. */
  lemma SliceUndoesJoin(p: string, rel: string)
    requires rel != []
    ensures Slice(Base(p) + rel, |p| + 1) == rel <==> GoodSource(p)
  {
    if GoodSource(p) {
      assert (p + "/" + rel)[|p| + 1..] == rel;
    } else {
      assert |Slice(p + rel, |p| + 1)| < |rel|;
    }
  }
}
