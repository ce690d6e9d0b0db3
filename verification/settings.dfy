/** The run settings of a job: the two-level dictionary the stages read and write, and the store that keeps it between
  driver steps as rows of text, one a declared parameter. */
module RunSettings {
  import opened Records

  /** A setting in memory. */
  datatype Value = Str(s: string) | Int(n: int)

  type Dict = map<string, Value>

  type Settings = map<string, Dict>

  // ---------------------------------------------------------------------------------------------------------
  // Paths

  predicate AllSlashes(p: string) {
    forall i :: 0 <= i < |p| ==> p[i] == '/'
  }

  function StripSlashes(p: string): string {
    if p == [] || p[|p| - 1] != '/' then p else StripSlashes(p[..|p| - 1])
  }

  /** Where the part after the last slash begins. */
  function Cut(p: string): (i: nat)
    ensures i <= |p|
    ensures i > 0 ==> p[i - 1] == '/'
    ensures forall j :: i <= j < |p| ==> p[j] != '/'
  {
    if p == [] then 0 else if p[|p| - 1] == '/' then |p| else Cut(p[..|p| - 1])
  }

  function Dirname(p: string): string {
    var head := p[..Cut(p)];
    if AllSlashes(head) then head else StripSlashes(head)
  }

  function Basename(p: string): string {
    p[Cut(p)..]
  }

  lemma {:induction false} CutAt(p: string, i: nat)
    requires i <= |p| && (i > 0 ==> p[i - 1] == '/') && forall j :: i <= j < |p| ==> p[j] != '/'
    ensures Cut(p) == i
  {
    if p != [] && p[|p| - 1] != '/' {
      CutAt(p[..|p| - 1], i);
    }
  }

  lemma {:induction false} StripsAll(p: string, slashes: string)
    requires AllSlashes(slashes) && (p == [] || p[|p| - 1] != '/')
    ensures StripSlashes(p + slashes) == p
  {
    if slashes == [] {
      assert p + slashes == p;
    } else {
      var rest := slashes[..|slashes| - 1];
      assert (p + slashes)[|p + slashes| - 1] == slashes[|slashes| - 1];
      assert (p + slashes)[..|p + slashes| - 1] == p + rest;
      StripsAll(p, rest);
    }
  }

  /** A key written as schema, slashes, name is taken apart into just these, when the schema does not end in a slash and
    the name has none; without a schema the slashes are one. */
  lemma KeyParts(schema: string, slashes: string, name: string)
    requires (schema == [] || schema[|schema| - 1] != '/') && AllSlashes(slashes) && slashes != [] && '/' !in name
    ensures Dirname(schema + slashes + name) == if schema == [] then slashes else schema
    ensures Basename(schema + slashes + name) == name
  {
    var head := schema + slashes;
    var p := head + name;
    assert p[|head| - 1] == slashes[|slashes| - 1];
    CutAt(p, |head|);
    assert p[..|head|] == head && p[|head|..] == name;
    StripsAll(schema, slashes);
    if schema == [] {
      assert head == slashes;
    } else {
      assert head[|schema| - 1] == schema[|schema| - 1];
    }
  }

  /** A key without a slash has no schema. */
  lemma PlainKey(name: string)
    requires '/' !in name
    ensures Dirname(name) == "" && Basename(name) == name
  {
    CutAt(name, 0);
  }

  lemma PathParts(schema: string, name: string)
    requires schema != [] && schema[|schema| - 1] != '/' && '/' !in name
    ensures Dirname(schema + "/" + name) == schema && Basename(schema + "/" + name) == name
  {
    KeyParts(schema, "/", name);
  }

  // ---------------------------------------------------------------------------------------------------------
  // The dictionary

  function Entry<V>(d: map<string, V>, k: string): Option<V> {
    if k in d then Some(d[k]) else None
  }

  function Get(c: Settings, key: string): Option<Value> {
    if Dirname(key) in c && Basename(key) in c[Dirname(key)] then Some(c[Dirname(key)][Basename(key)]) else None
  }

  function Set(c: Settings, key: string, v: Value): Settings {
    var d := if Dirname(key) in c then c[Dirname(key)] else map[];
    c[Dirname(key) := d[Basename(key) := v]]
  }

  /** Two keys name the same setting when their parts agree. */
  predicate SameKey(a: string, b: string) {
    Dirname(a) == Dirname(b) && Basename(a) == Basename(b)
  }

  lemma GetSet(c: Settings, key: string, v: Value, other: string)
    ensures Get(Set(c, key, v), other) == if SameKey(key, other) then Some(v) else Get(c, other)
  {
  }

  /** What a deletion does: the schema must be there, or a missing setting is reported; the name must be there, or
    the plain key error of the dictionary comes out. */
  datatype Deletion = Deleted(c: Settings) | SettingNotFound | KeyMissing

  function Delete(c: Settings, key: string): Deletion {
    if Dirname(key) !in c then SettingNotFound
    else if Basename(key) !in c[Dirname(key)] then KeyMissing
    else Deleted(c[Dirname(key) := c[Dirname(key)] - {Basename(key)}])
  }

  lemma GetDelete(c: Settings, key: string, other: string)
    requires Delete(c, key).Deleted?
    ensures Get(Delete(c, key).c, other) == if SameKey(key, other) then None else Get(c, other)
  {
  }

  /** The setting has the value of one of the given keys that name it. */
  ghost predicate SetByOne(c: Settings, kvs: map<string, Value>, key: string) {
    exists k :: k in kvs && SameKey(k, key) && Get(c, key) == Some(kvs[k])
  }

  /** Keys that name different settings all have their own values then. */
  lemma SetApart(c: Settings, kvs: map<string, Value>, key: string)
    requires key in kvs && SetByOne(c, kvs, key)
    requires forall k :: k in kvs && SameKey(k, key) ==> k == key
    ensures Get(c, key) == Some(kvs[key])
  {
  }

  ghost predicate AllFound(c: Settings, keys: seq<string>) {
    forall i :: 0 <= i < |keys| ==> Get(c, keys[i]).Some?
  }

  /** The flat dictionary with the settings under their names. */
  function Updated(c: Settings, dest: Dict, keys: seq<string>): Dict {
    if keys == [] then dest
    else
      var last, before := keys[|keys| - 1], Updated(c, dest, keys[..|keys| - 1]);
      match Get(c, last)
      case Some(v) => before[Basename(last) := v]
      case None => before
  }

  predicate Named(keys: seq<string>, name: string) {
    exists i :: 0 <= i < |keys| && Basename(keys[i]) == name
  }

  lemma UpdatedNext(c: Settings, dest: Dict, keys: seq<string>, key: string, name: string)
    requires Get(c, key).Some?
    ensures Entry(Updated(c, dest, keys + [key]), name)
         == if Basename(key) == name then Get(c, key) else Entry(Updated(c, dest, keys), name)
  {
    assert (keys + [key])[..|keys|] == keys;
    hide Get, Basename;
  }

  /** Names that are not among the keys keep what they have. */
  lemma {:induction false} UpdatedElsewhere(c: Settings, dest: Dict, keys: seq<string>, name: string)
    requires AllFound(c, keys) && !Named(keys, name)
    ensures Entry(Updated(c, dest, keys), name) == Entry(dest, name)
  {
    if keys != [] {
      hide Get, Basename, Updated;
      var before, last := keys[..|keys| - 1], keys[|keys| - 1];
      UpdatedElsewhere(c, dest, before, name);
      UpdatedNext(c, dest, before, last, name);
      assert keys == before + [last];
    } else {
      assert Updated(c, dest, []) == dest;
    }
  }

  /** Of several keys with the same name the last counts. */
  lemma {:induction false} UpdatedAt(c: Settings, dest: Dict, keys: seq<string>, i: nat)
    requires AllFound(c, keys) && i < |keys| && !Named(keys[i + 1..], Basename(keys[i]))
    ensures Entry(Updated(c, dest, keys), Basename(keys[i])) == Get(c, keys[i])
  {
    var before, last := keys[..|keys| - 1], keys[|keys| - 1];
    assert keys == before + [last];
    UpdatedNext(c, dest, before, last, Basename(keys[i]));
    if i < |keys| - 1 {
      hide Get, Basename, Updated;
      assert keys[i + 1..][|keys| - i - 2] == last;
      assert before[i + 1..] == keys[i + 1..][..|keys| - i - 2];
      UpdatedAt(c, dest, before, i);
    }
  }

  /** The dictionary as an object. */
  class RunContext {
    var c: Settings

    constructor (start: Settings)
      ensures c == start
    {
      c := start;
    }

    method Setval(key: string, v: Value)
      modifies this
      ensures c == Set(old(c), key, v)
    {
      if Dirname(key) !in c {
        c := c[Dirname(key) := map[]];
      }
      var d := c[Dirname(key)];
      c := c[Dirname(key) := d[Basename(key) := v]];
    }

    /** All given keys are set, in whatever order. If several of them name one setting, it has the value of one of
      them; all other settings stay. */
    method Setvals(kvs: map<string, Value>)
      modifies this
      ensures forall key :: key in kvs ==> SetByOne(c, kvs, key)
      ensures forall key :: (forall k :: k in kvs ==> !SameKey(k, key)) ==> Get(c, key) == Get(old(c), key)
    {
      var todo := kvs.Keys;
      while todo != {}
        invariant todo <= kvs.Keys
        invariant forall key :: key in kvs && key !in todo ==> SetByOne(c, kvs, key)
        invariant forall key :: (forall k :: k in kvs ==> !SameKey(k, key)) ==> Get(c, key) == Get(old(c), key)
        decreases |todo|
      {
        var k :| k in todo;
        ghost var before := c;
        Setval(k, kvs[k]);
        forall key ensures Get(c, key) == if SameKey(k, key) then Some(kvs[k]) else Get(before, key) {
          GetSet(before, k, kvs[k], key);
        }
        todo := todo - {k};
        forall key | key in kvs && key !in todo ensures SetByOne(c, kvs, key) {
          if !SameKey(k, key) {
            var j :| j in kvs && SameKey(j, key) && Get(before, key) == Some(kvs[j]);
          }
        }
      }
    }

    method Getval(key: string) returns (r: Option<Value>)
      ensures r == Get(c, key)
    {
      if Dirname(key) !in c {
        return None;
      }
      var d := c[Dirname(key)];
      if Basename(key) !in d {
        return None;
      }
      return Some(d[Basename(key)]);
    }

    method Delkey(key: string) returns (r: Deletion)
      modifies this
      ensures r == Delete(old(c), key)
      ensures c == if r.Deleted? then r.c else old(c)
    {
      if Dirname(key) !in c {
        return SettingNotFound;
      }
      var d := c[Dirname(key)];
      if Basename(key) !in d {
        return KeyMissing;
      }
      c := c[Dirname(key) := d - {Basename(key)}];
      return Deleted(c);
    }

    /** Copy settings into a flat dictionary under their names; the first missing one is an error. */
    method Update(dest: Dict, keys: seq<string>) returns (found: bool, dest': Dict)
      ensures found <==> AllFound(c, keys)
      ensures found ==> dest' == Updated(c, dest, keys)
    {
      dest' := dest;
      for i := 0 to |keys|
        invariant AllFound(c, keys[..i]) && dest' == Updated(c, dest, keys[..i])
      {
        var v := Getval(keys[i]);
        if v.None? {
          return false, dest';
        }
        dest' := dest'[Basename(keys[i]) := v.value];
        assert keys[..i + 1][..i] == keys[..i];
      }
      assert keys[..|keys|] == keys;
      return true, dest';
    }
  }

  // ---------------------------------------------------------------------------------------------------------
  // Merging the settings of a stage

  function Lookup(c: Settings, schema: string, name: string): Option<Value> {
    if schema in c then Entry(c[schema], name) else None
  }

  /** The two-level merge: an entry of `new` wins, every other entry of `old` stays, and a schema appears only if it
    was there or `new` has an entry for it. */
  ghost predicate Merged(old_: Settings, new_: Settings, r: Settings) {
    && (forall s, n :: Lookup(r, s, n) == if Lookup(new_, s, n).Some? then Lookup(new_, s, n) else Lookup(old_, s, n))
    && (forall s :: s in r <==> s in old_ || (s in new_ && new_[s] != map[]))
  }

  method Transfer(old_: Settings, new_: Settings) returns (r: Settings)
    ensures Merged(old_, new_, r)
  {
    r := old_;
    var todo := new_.Keys;
    while todo != {}
      invariant todo <= new_.Keys
      invariant forall s, n :: Lookup(r, s, n) ==
                  if s !in todo && Lookup(new_, s, n).Some? then Lookup(new_, s, n) else Lookup(old_, s, n)
      invariant forall s :: s in r <==> s in old_ || (s in new_ && s !in todo && new_[s] != map[])
      decreases |todo|
    {
      var k :| k in todo;
      r := TransferSchema(r, k, new_[k]);
      todo := todo - {k};
    }
  }

  method TransferSchema(c: Settings, k: string, entries: Dict) returns (r: Settings)
    ensures forall s, n :: Lookup(r, s, n) == if s == k && n in entries then Some(entries[n]) else Lookup(c, s, n)
    ensures forall s :: s in r <==> s in c || (s == k && entries != map[])
  {
    r := c;
    var todo := entries.Keys;
    while todo != {}
      invariant todo <= entries.Keys
      invariant forall s, n :: Lookup(r, s, n) == if s == k && n in entries && n !in todo then Some(entries[n])
                  else Lookup(c, s, n)
      invariant forall s :: s in r <==> s in c || (s == k && todo != entries.Keys)
      decreases |todo|
    {
      var n :| n in todo;
      ghost var before := r;
      if k !in r {
        r := r[k := map[]];
      }
      r := r[k := r[k][n := entries[n]]];
      forall s, m ensures Lookup(r, s, m) == if s == k && m == n then Some(entries[n]) else Lookup(before, s, m) {}
      todo := todo - {n};
    }
    assert entries != map[] <==> entries.Keys != {};
  }
}
