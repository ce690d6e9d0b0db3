/** The two directory walks of the storage layer. Both keep a list of directories with a flag that is set until the
  directory is listed, and go on with the first one whose flag is still set. */
module Storage {
  import opened Records
  import opened Trees

  // ---------------------------------------------------------------------------------------------------------
  // Order of strings

  predicate Le(a: string, b: string) {
    a == [] || (b != [] && (a[0] < b[0] || (a[0] == b[0] && Le(a[1..], b[1..]))))
  }

  lemma {:induction false} LeTotal(a: string, b: string)
    ensures Le(a, b) || Le(b, a)
  {
    if a != [] && b != [] {
      LeTotal(a[1..], b[1..]);
    }
  }

  lemma {:induction false} LeTrans(a: string, b: string, c: string)
    requires Le(a, b) && Le(b, c)
    ensures Le(a, c)
  {
    if a != [] && a[0] == b[0] == c[0] {
      LeTrans(a[1..], b[1..], c[1..]);
    }
  }

  /** The one text is a prefix of the other, or smaller at the first place where they differ. */
  ghost predicate Before(a: string, b: string) {
    a <= b || exists k :: 0 <= k < |a| && k < |b| && a[..k] == b[..k] && a[k] < b[k]
  }

  lemma SameStart(a: string, b: string, k: nat)
    requires k <= |a| && k <= |b| && a[..k] == b[..k]
    ensures k > 0 ==> a[0] == b[0]
  {
    if k > 0 {
      assert a[..k][0] == a[0] && b[..k][0] == b[0];
    }
  }

  /** The comparison character by character is that order. */
  lemma {:induction false} LeMeans(a: string, b: string)
    ensures Le(a, b) <==> a <= b || exists k :: 0 <= k < |a| && k < |b| && a[..k] == b[..k] && a[k] < b[k]
  {
    if a != [] && b != [] {
      var x, y := a[1..], b[1..];
      LeMeans(x, y);
      assert a == [a[0]] + x && b == [b[0]] + y;
      if a[0] == b[0] {
        if k :| 0 <= k < |x| && k < |y| && x[..k] == y[..k] && x[k] < y[k] {
          assert a[..k + 1] == [a[0]] + x[..k] && b[..k + 1] == [b[0]] + y[..k];
          assert a[k + 1] < b[k + 1];
        }
        if k :| 0 <= k < |a| && k < |b| && a[..k] == b[..k] && a[k] < b[k] {
          assert x[..k - 1] == a[..k][1..] && y[..k - 1] == b[..k][1..];
          assert x[k - 1] < y[k - 1];
        }
      } else {
        assert a[..0] == b[..0];
        if k :| 0 <= k < |a| && k < |b| && a[..k] == b[..k] && a[k] < b[k] {
          SameStart(a, b, k);
        }
      }
    }
  }

  ghost predicate Ordered(s: seq<string>) {
    forall i, j :: 0 <= i < j < |s| ==> Le(s[i], s[j])
  }

  function Insert(x: string, s: seq<string>): seq<string> {
    if s == [] || Le(x, s[0]) then [x] + s else [s[0]] + Insert(x, s[1..])
  }

  /** `sorted`. */
  function Sort(s: seq<string>): seq<string> {
    if s == [] then [] else Insert(s[0], Sort(s[1..]))
  }

  lemma OrderedCons(x: string, s: seq<string>)
    requires Ordered(s) && forall j :: 0 <= j < |s| ==> Le(x, s[j])
    ensures Ordered([x] + s)
  {
    hide Le;
  }

  lemma OrderedTail(s: seq<string>)
    requires Ordered(s) && s != []
    ensures Ordered(s[1..]) && forall j :: 0 < j < |s| ==> Le(s[0], s[j])
  {
    hide Le;
  }

  lemma InsertMultiset(x: string, s: seq<string>, r: seq<string>)
    requires s != [] && multiset(r) == multiset(s[1..]) + multiset{x}
    ensures multiset([s[0]] + r) == multiset(s) + multiset{x}
    ensures forall j :: 0 <= j < |r| ==> r[j] == x || r[j] in s[1..]
  {
    assert s == [s[0]] + s[1..];
    forall j | 0 <= j < |r| ensures r[j] == x || r[j] in s[1..] {
      assert r[j] in multiset(r);
    }
  }

  lemma {:induction false} InsertOrders(x: string, s: seq<string>)
    requires Ordered(s)
    ensures Ordered(Insert(x, s)) && multiset(Insert(x, s)) == multiset(s) + multiset{x}
  {
    hide Le, Ordered;
    if s == [] {
      OrderedCons(x, []) by { EmptyOrdered(); }
      assert [x] + [] == [x];
    } else if Le(x, s[0]) {
      OrderedTail(s);
      forall j | 0 <= j < |s| ensures Le(x, s[j]) {
        if j > 0 { LeTrans(x, s[0], s[j]); }
      }
      OrderedCons(x, s);
    } else {
      var r := Insert(x, s[1..]);
      LeTotal(x, s[0]);
      OrderedTail(s);
      InsertOrders(x, s[1..]);
      InsertMultiset(x, s, r);
      hide Insert;
      forall j | 0 <= j < |r| ensures Le(s[0], r[j]) {
        if r[j] != x {
          var i :| 0 <= i < |s[1..]| && s[1..][i] == r[j];
          assert s[i + 1] == r[j];
        }
      }
      OrderedCons(s[0], r);
    }
  }

  lemma EmptyOrdered()
    ensures Ordered([])
  {
  }

  lemma {:induction false} SortOrders(s: seq<string>)
    ensures Ordered(Sort(s)) && multiset(Sort(s)) == multiset(s)
  {
    if s != [] {
      SortOrders(s[1..]);
      hide Ordered, Insert;
      InsertOrders(s[0], Sort(s[1..]));
      assert s == [s[0]] + s[1..];
      assert multiset(s) == multiset{s[0]} + multiset(s[1..]);
    }
  }

  // ---------------------------------------------------------------------------------------------------------
  // The flag list

  datatype Entry = Entry(path: string, flag: bool)

  function Raised(q: seq<Sub>): (r: seq<Entry>)
    ensures |r| == |q| && forall i :: 0 <= i < |r| ==> r[i] == Entry(q[i].name, true)
  {
    seq(|q|, i requires 0 <= i < |q| => Entry(q[i].name, true))
  }

  /** Flags go down from the front: those before `k` are down, and from there on the directories still to be listed
    stand in order with their flags up. */
  ghost predicate Waits(holder: seq<Entry>, k: nat, q: seq<Sub>) {
    k <= |holder| && (forall i :: 0 <= i < k ==> !holder[i].flag) && holder[k..] == Raised(q)
  }

  method AddDirs(holder: seq<Entry>, pointer: string, dirs: seq<string>, ghost k: nat, ghost q: seq<Sub>, ghost t: Tree)
      returns (r: seq<Entry>)
    requires Waits(holder, k, q) && dirs == Names(t.dirs)
    ensures Waits(r, k, q + Children(pointer, t))
  {
    ghost var more := Raised(Children(pointer, t));
    r := holder;
    for i := 0 to |dirs|
      invariant r == holder + more[..i]
    {
      assert more[i] == Entry(Join(pointer, dirs[i]), true);
      r := r + [Entry(Join(pointer, dirs[i]), true)];
    }
    assert more[..|dirs|] == more;
    WaitsMore(holder, k, q, Children(pointer, t));
  }

  lemma WaitsMore(holder: seq<Entry>, k: nat, q: seq<Sub>, more: seq<Sub>)
    requires Waits(holder, k, q)
    ensures Waits(holder + Raised(more), k, q + more)
  {
    assert Raised(q + more) == Raised(q) + Raised(more);
    assert (holder + Raised(more))[k..] == holder[k..] + Raised(more);
  }

  /** Find the first flag that is up and take it down. */
  method NextDir(holder: seq<Entry>, ghost k: nat, ghost q: seq<Sub>)
      returns (found: bool, pointer: string, r: seq<Entry>)
    requires Waits(holder, k, q)
    ensures found <==> q != []
    ensures if found then pointer == q[0].name && Waits(r, k + 1, q[1..]) else r == holder
  {
    r, pointer := holder, "";
    for i := 0 to |holder|
      invariant i <= k && r == holder
    {
      assert i == k ==> holder[i] == holder[k..][0];
      if holder[i].flag {
        r := holder[i := holder[i].(flag := false)];
        assert r[k + 1..] == holder[k..][1..];
        return true, holder[i].path, r;
      }
    }
    return false, pointer, r;
  }

  // ---------------------------------------------------------------------------------------------------------
  // Listing all files

  /** What is found and what is still pending make up all files. */
  ghost predicate Found(paths: seq<string>, q: seq<Sub>, source: string, t: Tree) {
    multiset(paths) + multiset(FilesOf(q)) == multiset(Files(source, t))
  }

  /** What is listed and what is still pending make up all directories; `open` directories at the front of the
    pending ones are listed already. */
  ghost predicate Listed(listed: seq<string>, q: seq<Sub>, source: string, t: Tree, open: nat)
    requires open <= |q| && open <= 1
  {
    multiset(listed) + multiset(DirsOf(q))
      == multiset(Dirs(source, t)) + if open == 1 then multiset{q[0].name} else multiset{}
  }

  lemma WalkStep(paths: seq<string>, listed: seq<string>, q: seq<Sub>, source: string, t: Tree,
                 listdir: string -> Listing)
    requires q != [] && ShowsAll(listdir, q) && Found(paths, q, source, t) && Listed(listed, q, source, t, 1)
    ensures var p, d := q[0].name, q[0].tree; var rest := q[1..] + Children(p, d);
            && listdir(p) == Listing(Names(d.dirs), d.files) && ShowsAll(listdir, rest) && SizeOf(rest) == SizeOf(q) - 1
            && Found(paths + Joined(p, d.files), rest, source, t) && Listed(listed, rest, source, t, 0)
  {
    Step(q, listdir);
    var p, d := q[0].name, q[0].tree;
    var rest := q[1..] + Children(p, d);
    hide FilesOf, DirsOf, ShowsAll, Shows, SizeOf, Found, Listed, Children, Joined;
    FoundStep(paths, Joined(p, d.files), q, rest, source, t);
    ListedStep(listed, q, rest, source, t);
  }

  lemma FoundStep(paths: seq<string>, more: seq<string>, q: seq<Sub>, rest: seq<Sub>, source: string, t: Tree)
    requires multiset(FilesOf(q)) == multiset(more) + multiset(FilesOf(rest)) && Found(paths, q, source, t)
    ensures Found(paths + more, rest, source, t)
  {
    hide FilesOf, Files;
    assert multiset(paths + more) == multiset(paths) + multiset(more);
  }

  lemma ListedStep(listed: seq<string>, q: seq<Sub>, rest: seq<Sub>, source: string, t: Tree)
    requires q != [] && multiset(DirsOf(q)) == multiset{q[0].name} + multiset(DirsOf(rest))
    requires Listed(listed, q, source, t, 1)
    ensures Listed(listed, rest, source, t, 0)
  {
    hide DirsOf, Dirs;
    Cancel(multiset(listed), multiset(DirsOf(rest)), multiset(Dirs(source, t)), q[0].name);
    assert multiset(Dirs(source, t)) + multiset{} == multiset(Dirs(source, t));
  }

  lemma Cancel(a: multiset<string>, b: multiset<string>, c: multiset<string>, p: string)
    requires a + (multiset{p} + b) == c + multiset{p}
    ensures a + b == c
  {
    forall x ensures (a + b)[x] == c[x] {
      assert (a + (multiset{p} + b))[x] == (c + multiset{p})[x];
    }
  }

  lemma WalkEnters(listed: seq<string>, q: seq<Sub>, source: string, t: Tree)
    requires q != [] && Listed(listed, q, source, t, 0)
    ensures Listed(listed + [q[0].name], q, source, t, 1)
  {
    hide DirsOf, Dirs;
    assert multiset(listed + [q[0].name]) == multiset(listed) + multiset{q[0].name};
    assert multiset(Dirs(source, t)) + multiset{} == multiset(Dirs(source, t));
  }

  lemma WalkStarts(source: string, t: Tree, listdir: string -> Listing)
    requires Shows(listdir, source, t)
    ensures var q := [Sub(source, t)];
            ShowsAll(listdir, q) && Found([], q, source, t) && Listed([source], q, source, t, 1) && Waits([], 0, q[1..])
  {
    Single(source, t, listdir);
  }

  lemma WalkEnds(paths: seq<string>, listed: seq<string>, source: string, t: Tree)
    requires Found(paths, [], source, t) && Listed(listed, [], source, t, 0)
    ensures multiset(paths) == multiset(Files(source, t)) && multiset(listed) == multiset(Dirs(source, t))
  {
    assert multiset(Dirs(source, t)) + multiset{} == multiset(Dirs(source, t));
    assert multiset(listed) + multiset{} == multiset(listed);
  }

  /** Everything below a source that exists is listed: every directory is listed exactly once, and the result holds
    the path of every file exactly as often as the tree has it, in order. `t` is the tree the listings show. */
  method ListAllFiles(listdir: string -> Listing, exists_: bool, source: string, ghost t: Tree)
      returns (paths: seq<string>, ghost listed: seq<string>)
    requires exists_ ==> Shows(listdir, source, t)
    ensures !exists_ ==> paths == [] && listed == []
    ensures exists_ ==> Ordered(paths) && multiset(paths) == multiset(Files(source, t))
    ensures exists_ ==> multiset(listed) == multiset(Dirs(source, t))
    ensures forall i, j :: 0 <= i < j < |paths| ==> Before(paths[i], paths[j])
  {
    if !exists_ {
      return [], [];
    }
    hide Found, Listed, Waits, ShowsAll, Children, Joined, Names, SizeOf;
    var content, pointer := Some(listdir(source)), source;
    var holder: seq<Entry> := [];
    var filePaths: seq<string> := [];
    listed := [source];
    ghost var todo, k := [Sub(source, t)], 0;
    WalkStarts(source, t, listdir);
    while content.Some?
      invariant ShowsAll(listdir, todo) && (content.Some? <==> todo != [])
      invariant todo != [] ==> pointer == todo[0].name && content.value == listdir(pointer)
      invariant todo != [] ==> Waits(holder, k, todo[1..])
      invariant Found(filePaths, todo, source, t) && Listed(listed, todo, source, t, if todo == [] then 0 else 1)
      decreases SizeOf(todo)
    {
      ghost var tree := todo[0].tree;
      WalkStep(filePaths, listed, todo, source, t, listdir);
      filePaths := AddFiles(filePaths, pointer, content.value.files);
      holder := AddDirs(holder, pointer, content.value.dirs, k, todo[1..], tree);
      todo := todo[1..] + Children(pointer, tree);
      content := None;
      var found;
      found, pointer, holder := NextDir(holder, k, todo);
      if found {
        content := Some(listdir(pointer));
        WalkEnters(listed, todo, source, t);
        listed := listed + [pointer];
        k := k + 1;
      }
    }
    WalkEnds(filePaths, listed, source, t);
    paths := Sort(filePaths);
    SortOrders(filePaths);
    AllBefore(paths);
  }

  lemma AllBefore(s: seq<string>)
    requires Ordered(s)
    ensures forall i, j :: 0 <= i < j < |s| ==> Before(s[i], s[j])
  {
    forall i, j | 0 <= i < j < |s| ensures Before(s[i], s[j]) {
      LeMeans(s[i], s[j]);
    }
  }

  method AddFiles(filePaths: seq<string>, pointer: string, files: seq<string>) returns (r: seq<string>)
    ensures r == filePaths + Joined(pointer, files)
  {
    r := filePaths;
    for i := 0 to |files|
      invariant r == filePaths + Joined(pointer, files)[..i]
    {
      r := r + [Join(pointer, files[i])];
    }
  }
}
