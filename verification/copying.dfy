/** Copying a directory tree between two storages, with retries. */
module Copying {
  import opened Records
  import opened Trees
  import Storage

  /** A file is read and written at most this many times, less one. */
  const RETRY_ATTEMPTS := 10

  /** The address of a relative path in a storage. */
  function Url(prefix: string, suffix: string, rel: string): string {
    Join(prefix, rel) + suffix
  }

  ghost predicate SomeAttempt(ok: (string, nat) -> bool, url: string) {
    exists i: nat :: 1 <= i < RETRY_ATTEMPTS && ok(url, i)
  }

  /** One side of a copy: what is stored under an address, and which attempts to reach it succeed. */
  datatype Side = Side(prefix: string, suffix: string, ok: (string, nat) -> bool)

  ghost predicate Copies(src: map<string, string>, from: Side, to: Side, rel: string) {
    && Url(from.prefix, from.suffix, rel) in src && SomeAttempt(from.ok, Url(from.prefix, from.suffix, rel))
    && SomeAttempt(to.ok, Url(to.prefix, to.suffix, rel))
  }

  predicate AllIn(src: map<string, string>, from: Side, rels: seq<string>) {
    forall i :: 0 <= i < |rels| ==> Url(from.prefix, from.suffix, rels[i]) in src
  }

  /** The writes of a list of files, in order. */
  function WriteAll(before: map<string, string>, src: map<string, string>, from: Side, to: Side,
                    rels: seq<string>): map<string, string>
    requires AllIn(src, from, rels)
  {
    if rels == [] then before
    else
      var last := rels[|rels| - 1];
      var earlier := WriteAll(before, src, from, to, rels[..|rels| - 1]);
      earlier[Url(to.prefix, to.suffix, last) := src[Url(from.prefix, from.suffix, last)]]
  }

  /** What the walk takes for relative paths. */
  function Cuts(source: string, paths: seq<string>): (r: seq<string>)
    ensures |r| == |paths| && forall i :: 0 <= i < |r| ==> r[i] == Slice(paths[i], |source| + 1)
  {
    seq(|paths|, i requires 0 <= i < |paths| => Slice(paths[i], |source| + 1))
  }

  /** Every file is stored under its own relative path with its own content, and nothing else changed. */
  ghost predicate Copied(now: map<string, string>, before: map<string, string>, src: map<string, string>, from: Side,
                         to: Side, rels: seq<string>)
  {
    && (forall i :: 0 <= i < |rels| ==> FileCopied(now, src, from, to, rels[i]))
    && (forall url :: !IsTarget(to, rels, url) ==> SameAt(now, before, url))
  }

  predicate SameAt(now: map<string, string>, before: map<string, string>, url: string) {
    (url in now <==> url in before) && (url in now ==> now[url] == before[url])
  }

  predicate FileCopied(now: map<string, string>, src: map<string, string>, from: Side, to: Side, rel: string) {
    && Url(from.prefix, from.suffix, rel) in src && Url(to.prefix, to.suffix, rel) in now
    && now[Url(to.prefix, to.suffix, rel)] == src[Url(from.prefix, from.suffix, rel)]
  }

  ghost predicate IsTarget(to: Side, rels: seq<string>, url: string) {
    exists i :: 0 <= i < |rels| && url == Url(to.prefix, to.suffix, rels[i])
  }

  // ---------------------------------------------------------------------------------------------------------
  // What the cuts are

  lemma {:induction false} RelStarts(t: Tree, i: nat)
    requires WellNamed(t) && i < |Rel(t)|
    ensures Rel(t)[i] != [] && Rel(t)[i][0] != '/'
  {
    if i < |t.files| {
      assert IsName(t.files[i]) && t.files[i][0] in t.files[i];
    } else {
      var s := RelOf(t.dirs)[i - |t.files|];
      FirstParts(t.dirs, s);
      var k :| 0 <= k < |t.dirs| && FirstPart(s) == t.dirs[k].name;
      NamesAre(t.dirs, k);
      assert FirstPart(s) != [];
    }
  }

  lemma {:induction false} NamesAre(ds: seq<Sub>, k: nat)
    requires WellNamedAll(ds) && k < |ds|
    ensures IsName(ds[k].name)
  {
    if k > 0 {
      NamesAre(ds[1..], k - 1);
    }
  }

  /** The cuts are the relative paths when the source is good; when it is not, every one of them is wrong. */
  lemma CutsAreRelative(source: string, t: Tree)
    requires WellNamed(t)
    ensures |Cuts(source, Files(source, t))| == |Rel(t)|
    ensures GoodSource(source) ==> Cuts(source, Files(source, t)) == Rel(t)
    ensures !GoodSource(source) ==> forall i :: 0 <= i < |Rel(t)| ==> Cuts(source, Files(source, t))[i] != Rel(t)[i]
  {
    FilesAreRelative(source, t);
    forall i | 0 <= i < |Rel(t)| ensures Cuts(source, Files(source, t))[i] == Rel(t)[i] <==> GoodSource(source) {
      RelStarts(t, i);
      SliceUndoesJoin(source, Rel(t)[i]);
    }
  }

  /** The address of a path: the prefix, one slash unless it ends in one or is empty, the path, the suffix; a path that
    starts with a slash loses the prefix. */
  lemma UrlMeans(prefix: string, suffix: string, rel: string)
    ensures Url(prefix, suffix, rel)
         == if rel != [] && rel[0] == '/' then rel + suffix
            else if prefix == [] || prefix[|prefix| - 1] == '/' then prefix + rel + suffix
            else prefix + "/" + rel + suffix
  {
  }

  lemma UrlsDiffer(side: Side, a: string, b: string)
    requires a != b && (a == [] || a[0] != '/') && (b == [] || b[0] != '/')
    ensures Url(side.prefix, side.suffix, a) != Url(side.prefix, side.suffix, b)
  {
    var x, y := Url(side.prefix, side.suffix, a), Url(side.prefix, side.suffix, b);
    assert x == Base(side.prefix) + a + side.suffix && y == Base(side.prefix) + b + side.suffix;
    if |a| == |b| {
      assert x[|Base(side.prefix)|..|Base(side.prefix)| + |a|] == a;
      assert y[|Base(side.prefix)|..|Base(side.prefix)| + |b|] == b;
    }
  }

  ghost predicate Relative(rels: seq<string>) {
    forall i :: 0 <= i < |rels| ==> rels[i] == [] || rels[i][0] != '/'
  }

  /** Files written under relative paths are stored with their own content, whatever is written after them. */
  lemma {:induction false} WritesStored(before: map<string, string>, src: map<string, string>, from: Side, to: Side,
                                        rels: seq<string>, i: nat)
    requires AllIn(src, from, rels) && Relative(rels) && i < |rels|
    ensures FileCopied(WriteAll(before, src, from, to, rels), src, from, to, rels[i])
  {
    var init, last := rels[..|rels| - 1], rels[|rels| - 1];
    if i < |init| && rels[i] != last {
      assert init[i] == rels[i];
      WritesStored(before, src, from, to, init, i);
      UrlsDiffer(to, rels[i], last);
      hide Url;
    }
  }

  /** No other address is touched. */
  lemma {:induction false} WritesNothingElse(before: map<string, string>, src: map<string, string>, from: Side,
                          to: Side,
                                             rels: seq<string>, url: string)
    requires AllIn(src, from, rels)
    requires !IsTarget(to, rels, url)
    ensures SameAt(WriteAll(before, src, from, to, rels), before, url)
  {
    if rels != [] {
      WritesNothingElse(before, src, from, to, rels[..|rels| - 1], url);
    }
  }

  ghost predicate SameSet(a: seq<string>, b: seq<string>) {
    (forall i :: 0 <= i < |a| ==> a[i] in b) && (forall i :: 0 <= i < |b| ==> b[i] in a)
  }

  /** The order of the writes does not matter. */
  lemma AnyOrderCopies(before: map<string, string>, src: map<string, string>, from: Side, to: Side, rels: seq<string>,
                       order: seq<string>)
    requires AllIn(src, from, order) && Relative(rels) && SameSet(order, rels)
    ensures Copied(WriteAll(before, src, from, to, order), before, src, from, to, rels)
  {
    hide WriteAll, Url;
    forall i | 0 <= i < |order| ensures order[i] == [] || order[i][0] != '/' {
      var k :| 0 <= k < |rels| && rels[k] == order[i];
    }
    forall i | 0 <= i < |rels| ensures FileCopied(WriteAll(before, src, from, to, order), src, from, to, rels[i]) {
      assert rels[i] in order;
      var k :| 0 <= k < |order| && order[k] == rels[i];
      WritesStored(before, src, from, to, order, k);
    }
    forall url | !IsTarget(to, rels, url) ensures SameAt(WriteAll(before, src, from, to, order), before, url) {
      forall i | 0 <= i < |order| ensures url != Url(to.prefix, to.suffix, order[i]) {
        assert order[i] in rels;
        var k :| 0 <= k < |rels| && rels[k] == order[i];
      }
      WritesNothingElse(before, src, from, to, order, url);
    }
  }

  lemma SameCuts(source: string, a: seq<string>, b: seq<string>)
    requires multiset(a) == multiset(b)
    ensures SameSet(Cuts(source, a), Cuts(source, b))
  {
    SameElements(a, b);
    forall i | 0 <= i < |a| ensures Cuts(source, a)[i] in Cuts(source, b) {
      assert a[i] in a;
      var k :| 0 <= k < |b| && b[k] == a[i];
      assert Cuts(source, b)[k] == Cuts(source, a)[i];
    }
    forall i | 0 <= i < |b| ensures Cuts(source, b)[i] in Cuts(source, a) {
      assert b[i] in b;
      var k :| 0 <= k < |a| && a[k] == b[i];
      assert Cuts(source, a)[k] == Cuts(source, b)[i];
    }
  }

  /** Whatever the order of the walk, a complete copy from a good source is a copy of the tree. */
  lemma CopyIsTree(before: map<string, string>, src: map<string, string>, from: Side, to: Side, source: string, t: Tree,
                   paths: seq<string>)
    requires WellNamed(t) && GoodSource(source) && multiset(paths) == multiset(Files(source, t))
    requires AllIn(src, from, Cuts(source, paths))
    ensures Copied(WriteAll(before, src, from, to, Cuts(source, paths)), before, src, from, to, Rel(t))
  {
    CutsAreRelative(source, t);
    SameCuts(source, paths, Files(source, t));
    forall i | 0 <= i < |Rel(t)| ensures Rel(t)[i] == [] || Rel(t)[i][0] != '/' {
      RelStarts(t, i);
    }
    AnyOrderCopies(before, src, from, to, Rel(t), Cuts(source, paths));
  }

  lemma SameElements(a: seq<string>, b: seq<string>)
    requires multiset(a) == multiset(b)
    ensures forall x :: x in a <==> x in b
  {
    forall x ensures x in a <==> x in b {
      assert x in a <==> x in multiset(a);
    }
  }

  /** One slash at each end of the source is dropped; a source that is nothing but a slash is an error. */
  function TrimSource(source: string): Option<string> {
    if source == [] then Some([])
    else
      var s := if source[0] == '/' then source[1..] else source;
      if s == [] then None
      else if s[|s| - 1] == '/' then Some(s[..|s| - 1]) else Some(s)
  }

  /** A source keeps what stands between one slash at either end. */
  lemma Trimmed(p: string)
    requires p != [] && p[0] != '/' && p[|p| - 1] != '/'
    ensures TrimSource(p) == TrimSource("/" + p) == TrimSource(p + "/") == TrimSource("/" + (p + "/")) == Some(p)
    ensures TrimSource("/" + ("/" + (p + "/"))) == Some("/" + p) && TrimSource(p + "//") == Some(p + "/")
    ensures TrimSource("") == Some("") && TrimSource("/") == None
  {
    assert ("/" + p)[1..] == p && (p + "/")[..|p|] == p && ("/" + (p + "/"))[1..] == p + "/";
    assert ("/" + ("/" + (p + "/")))[1..] == "/" + (p + "/") && ("/" + (p + "/"))[..|p| + 1] == "/" + p;
    assert (p + "//")[..|p| + 1] == p + "/";
  }

  class Destination {
    const to: Side
    var files: map<string, string>

    constructor (to: Side)
      ensures this.to == to && files == map[]
    {
      this.to := to;
      files := map[];
    }

    static method GetWithRetries(src: map<string, string>, ok: (string, nat) -> bool, url: string)
        returns (fail: bool, content: string)
      ensures fail <==> url !in src || forall i: nat :: 1 <= i <= 9 ==> !ok(url, i)
      ensures !fail ==> content == src[url]
    {
      fail, content := false, "";
      for i := 1 to RETRY_ATTEMPTS
        invariant i > 1 ==> fail
        invariant url in src ==> forall j: nat :: 1 <= j < i ==> !ok(url, j)
      {
        if url in src && ok(url, i) {
          return false, src[url];
        }
        fail := true;
      }
    }

    method PutWithRetries(url: string, content: string) returns (fail: bool)
      modifies this
      ensures fail <==> forall i: nat :: 1 <= i <= 9 ==> !to.ok(url, i)
      ensures files == if fail then old(files) else old(files)[url := content]
    {
      fail := false;
      for i := 1 to RETRY_ATTEMPTS
        invariant files == old(files) && (i > 1 ==> fail)
        invariant forall j: nat :: 1 <= j < i ==> !to.ok(url, j)
      {
        if to.ok(url, i) {
          files := files[url := content];
          return false;
        }
        fail := true;
      }
    }

    /** The copy of one file. */
    method CopyFile(src: map<string, string>, from: Side, rel: string) returns (raised: bool)
      modifies this
      ensures raised <==> !Copies(src, from, to, rel)
      ensures !raised ==> Url(from.prefix, from.suffix, rel) in src
      ensures if raised then files == old(files)
              else files == old(files)[Url(to.prefix, to.suffix, rel) := src[Url(from.prefix, from.suffix, rel)]]
    {
      var content;
      raised, content := GetWithRetries(src, from.ok, Url(from.prefix, from.suffix, rel));
      if !raised {
        raised := PutWithRetries(Url(to.prefix, to.suffix, rel), content);
      }
    }

    /** The files of one directory, as far as they can be copied; `done` are the relative paths copied before. */
    method CopyFiles(src: map<string, string>, from: Side, source: string, pointer: string, names: seq<string>,
                     ghost before: map<string, string>, ghost done: seq<string>)
        returns (raised: bool, ghost done': seq<string>)
      requires AllIn(src, from, done) && files == WriteAll(before, src, from, to, done)
      modifies this
      ensures AllIn(src, from, done') && files == WriteAll(before, src, from, to, done')
      ensures raised <==> Fails(src, from, to, Cuts(source, Joined(pointer, names)))
      ensures !raised ==> done' == done + Cuts(source, Joined(pointer, names))
    {
      hide WriteAll, Url, Copies, AllIn, Slice, Join, Joined, Cuts;
      raised, done' := false, done;
      ghost var cuts := Cuts(source, Joined(pointer, names));
      for i := 0 to |names|
        invariant done' == done + cuts[..i] && AllIn(src, from, done')
        invariant files == WriteAll(before, src, from, to, done')
        invariant forall j :: 0 <= j < i ==> Copies(src, from, to, cuts[j])
      {
        var filePath := Join(pointer, names[i]);
        var updatedFilePath := Slice(filePath, |source| + 1);
        assert updatedFilePath == cuts[i];
        raised := CopyFile(src, from, updatedFilePath);
        if raised {
          return;
        }
        WritesOne(before, src, from, to, done', updatedFilePath);
        done' := done' + [updatedFilePath];
        assert cuts[..i + 1] == cuts[..i] + [cuts[i]];
      }
      assert cuts[..|names|] == cuts;
    }

    /** The whole copy. It raises if and only if the source is nothing but a slash or some file cannot be copied at
      what the walk takes for its relative path; all files copied by then are written. When the source is good the
      copy is the tree: every file below the source under the same relative path with the same content, and nothing
      else. */
    method CopyDirectories(listdir: string -> Listing, source0: string, src: map<string, string>, from: Side,
                           ghost t: Tree)
        returns (raised: bool, ghost order: seq<string>, ghost paths: seq<string>)
      requires TrimSource(source0).Some? ==> Shows(listdir, TrimSource(source0).value, t)
      modifies this
      ensures AllIn(src, from, order) && files == WriteAll(old(files), src, from, to, order)
      ensures TrimSource(source0).None? ==> raised && order == []
      ensures TrimSource(source0).Some? ==>
                var source := TrimSource(source0).value;
                && (raised <==> Fails(src, from, to, Cuts(source, Files(source, t))))
                && (!raised ==> order == Cuts(source, paths) && multiset(paths) == multiset(Files(source, t)))
                && (!raised && GoodSource(source) && WellNamed(t) ==> Copied(files, old(files), src, from, to, Rel(t)))
    {
      ghost var before := files;
      order, paths, raised := [], [], true;
      var trimmed := TrimSource(source0);
      if trimmed.None? {
        return;
      }
      var source := trimmed.value;
      raised, order, paths := Walk(listdir, source, src, from, t);
      if !raised && GoodSource(source) && WellNamed(t) {
        CopyIsTree(before, src, from, to, source, t, paths);
      }
    }

    method Walk(listdir: string -> Listing, source: string, src: map<string, string>, from: Side, ghost t: Tree)
        returns (raised: bool, ghost order: seq<string>, ghost paths: seq<string>)
      requires Shows(listdir, source, t)
      modifies this
      ensures AllIn(src, from, order) && files == WriteAll(old(files), src, from, to, order)
      ensures raised <==> Fails(src, from, to, Cuts(source, Files(source, t)))
      ensures !raised ==> order == Cuts(source, paths) && multiset(paths) == multiset(Files(source, t))
    {
      hide Storage.Found, Storage.Waits, ShowsAll, Children, Joined, Names, SizeOf, WriteAll, AllIn, Copies, Cuts;
      hide Fails;
      ghost var before := files;
      ghost var todo, k := [Sub(source, t)], 0;
      var dirFileInfo, pointer := Some(listdir(source)), source;
      var dirPaths: seq<Storage.Entry> := [];
      order, paths, raised := [], [], false;
      Storage.WalkStarts(source, t, listdir);
      NothingCopied(before, src, from, to, source);
      while dirFileInfo.Some?
        invariant ShowsAll(listdir, todo) && (dirFileInfo.Some? <==> todo != [])
        invariant todo != [] ==> pointer == todo[0].name && dirFileInfo.value == listdir(pointer)
        invariant todo != [] ==> Storage.Waits(dirPaths, k, todo[1..])
        invariant Storage.Found(paths, todo, source, t)
        invariant order == Cuts(source, paths) && AllIn(src, from, order)
        invariant files == WriteAll(before, src, from, to, order)
        invariant !Fails(src, from, to, order)
        decreases SizeOf(todo)
      {
        ghost var tree := todo[0].tree;
        FindStep(paths, todo, source, t, listdir);
        ghost var more := Joined(pointer, tree.files);
        raised, order := CopyFiles(src, from, source, pointer, dirFileInfo.value.files, before, order);
        CopiesMore(src, from, to, source, paths, more, todo, t, listdir);
        if raised {
          return;
        }
        paths := paths + more;
        dirPaths := Storage.AddDirs(dirPaths, pointer, dirFileInfo.value.dirs, k, todo[1..], tree);
        todo := todo[1..] + Children(pointer, tree);
        dirFileInfo := None;
        var found;
        found, pointer, dirPaths := Storage.NextDir(dirPaths, k, todo);
        if found {
          dirFileInfo := Some(listdir(pointer));
          k := k + 1;
        }
      }
      AllCopied(src, from, to, source, paths, t);
    }
  }

  /** Some file of the list cannot be copied. */
  ghost predicate Fails(src: map<string, string>, from: Side, to: Side, rels: seq<string>) {
    exists i :: 0 <= i < |rels| && !Copies(src, from, to, rels[i])
  }

  lemma NothingCopied(before: map<string, string>, src: map<string, string>, from: Side, to: Side, source: string)
    ensures AllIn(src, from, []) && before == WriteAll(before, src, from, to, []) && Cuts(source, []) == []
    ensures !Fails(src, from, to, [])
  {
  }

  lemma FindStep(paths: seq<string>, q: seq<Sub>, source: string, t: Tree, listdir: string -> Listing)
    requires q != [] && ShowsAll(listdir, q) && Storage.Found(paths, q, source, t)
    ensures var p, d := q[0].name, q[0].tree; var rest := q[1..] + Children(p, d);
            && listdir(p) == Listing(Names(d.dirs), d.files) && ShowsAll(listdir, rest) && SizeOf(rest) == SizeOf(q) - 1
            && Storage.Found(paths + Joined(p, d.files), rest, source, t)
  {
    Step(q, listdir);
    var rest := q[1..] + Children(q[0].name, q[0].tree);
    Storage.FoundStep(paths, Joined(q[0].name, q[0].tree.files), q, rest, source, t);
  }

  lemma CutsConcat(source: string, a: seq<string>, b: seq<string>)
    ensures Cuts(source, a + b) == Cuts(source, a) + Cuts(source, b)
  {
  }

  lemma FailsLater(src: map<string, string>, from: Side, to: Side, a: seq<string>, b: seq<string>)
    requires !Fails(src, from, to, a)
    ensures Fails(src, from, to, a + b) <==> Fails(src, from, to, b)
  {
    hide Copies;
    if Fails(src, from, to, b) {
      var i :| 0 <= i < |b| && !Copies(src, from, to, b[i]);
      assert (a + b)[|a| + i] == b[i];
    }
    if Fails(src, from, to, a + b) {
      var i :| 0 <= i < |a + b| && !Copies(src, from, to, (a + b)[i]);
      assert i >= |a| && (a + b)[i] == b[i - |a|];
    }
  }

  lemma FailsAmong(src: map<string, string>, from: Side, to: Side, source: string, some: seq<string>, all: seq<string>)
    requires forall x :: x in some ==> x in all
    ensures Fails(src, from, to, Cuts(source, some)) ==> Fails(src, from, to, Cuts(source, all))
  {
    hide Copies;
    if Fails(src, from, to, Cuts(source, some)) {
      var i :| 0 <= i < |some| && !Copies(src, from, to, Cuts(source, some)[i]);
      assert some[i] in some;
      var k :| 0 <= k < |all| && all[k] == some[i];
      assert Cuts(source, all)[k] == Cuts(source, some)[i];
    }
  }

  lemma FoundAmong(paths: seq<string>, more: seq<string>, q: seq<Sub>, source: string, t: Tree)
    requires Storage.Found(paths + more, q, source, t)
    ensures forall x :: x in more ==> x in Files(source, t)
  {
    hide Files, FilesOf;
    forall x | x in more ensures x in Files(source, t) {
      assert x in multiset(more);
      assert multiset(paths + more) == multiset(paths) + multiset(more);
      assert x in multiset(Files(source, t));
    }
  }

  /** What has been copied and the files of the current directory are among the files of the tree. */
  lemma CopiesMore(src: map<string, string>, from: Side, to: Side, source: string, paths: seq<string>,
                   more: seq<string>,
                   q: seq<Sub>, t: Tree, listdir: string -> Listing)
    requires q != [] && ShowsAll(listdir, q) && Storage.Found(paths, q, source, t)
    requires more == Joined(q[0].name, q[0].tree.files)
    requires !Fails(src, from, to, Cuts(source, paths))
    ensures Cuts(source, paths + more) == Cuts(source, paths) + Cuts(source, more)
    ensures Fails(src, from, to, Cuts(source, paths + more)) <==> Fails(src, from, to, Cuts(source, more))
    ensures Fails(src, from, to, Cuts(source, more)) ==> Fails(src, from, to, Cuts(source, Files(source, t)))
  {
    hide Files, FilesOf, Children, ShowsAll, Fails, Cuts, Storage.Found, Joined, SizeOf;
    CutsConcat(source, paths, more);
    FailsLater(src, from, to, Cuts(source, paths), Cuts(source, more));
    FindStep(paths, q, source, t, listdir);
    FoundAmong(paths, more, q[1..] + Children(q[0].name, q[0].tree), source, t);
    FailsAmong(src, from, to, source, more, Files(source, t));
  }

  lemma AllCopied(src: map<string, string>, from: Side, to: Side, source: string, paths: seq<string>, t: Tree)
    requires Storage.Found(paths, [], source, t) && !Fails(src, from, to, Cuts(source, paths))
    ensures multiset(paths) == multiset(Files(source, t))
    ensures !Fails(src, from, to, Cuts(source, Files(source, t)))
  {
    hide Files, Copies;
    assert multiset(paths) == multiset(Files(source, t));
    SameElements(paths, Files(source, t));
    forall i | 0 <= i < |Files(source, t)| ensures Copies(src, from, to, Cuts(source, Files(source, t))[i]) {
      assert Files(source, t)[i] in Files(source, t);
      var k :| 0 <= k < |paths| && paths[k] == Files(source, t)[i];
      assert Cuts(source, paths)[k] == Cuts(source, Files(source, t))[i];
    }
  }

  lemma WritesOne(before: map<string, string>, src: map<string, string>, from: Side, to: Side, rels: seq<string>,
                  rel: string)
    requires AllIn(src, from, rels) && Url(from.prefix, from.suffix, rel) in src
    ensures AllIn(src, from, rels + [rel])
    ensures WriteAll(before, src, from, to, rels + [rel])
         == WriteAll(before, src, from, to, rels)
              [Url(to.prefix, to.suffix, rel) := src[Url(from.prefix, from.suffix, rel)]]
  {
    assert (rels + [rel])[..|rels|] == rels;
  }
}
