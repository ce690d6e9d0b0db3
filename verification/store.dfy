/** The store behind the run settings: one row of text a parameter, read back by the declared type of the parameter. */
module ContextRows {
  import opened Records
  import opened RunSettings

  // ---------------------------------------------------------------------------------------------------------
  // Numbers as text

  predicate IsDigit(c: char) {
    '0' <= c <= '9'
  }

  function DigitOf(n: nat): char
    requires n < 10
  {
    '0' + n as char
  }

  function ValueOf(c: char): nat
    requires IsDigit(c)
  {
    (c - '0') as nat
  }

  function Decimal(n: nat): (s: string)
    ensures s != [] && forall i :: 0 <= i < |s| ==> IsDigit(s[i])
  {
    if n < 10 then [DigitOf(n)] else Decimal(n / 10) + [DigitOf(n % 10)]
  }

  /** `str` of an integer. */
  function Render(n: int): string {
    if n < 0 then "-" + Decimal(-n) else Decimal(n)
  }

  predicate AllDigits(s: string) {
    s != [] && forall i :: 0 <= i < |s| ==> IsDigit(s[i])
  }

  function ParseDigits(s: string): nat
    requires forall i :: 0 <= i < |s| ==> IsDigit(s[i])
  {
    if s == [] then 0 else ParseDigits(s[..|s| - 1]) * 10 + ValueOf(s[|s| - 1])
  }

  predicate IsSpace(c: char) {
    c in {' ', '\t', '\n', '\r', '\U{0B}', '\U{0C}'}
  }

  function TrimLeft(s: string): string {
    if s != [] && IsSpace(s[0]) then TrimLeft(s[1..]) else s
  }

  function TrimRight(s: string): string {
    if s != [] && IsSpace(s[|s| - 1]) then TrimRight(s[..|s| - 1]) else s
  }

  /** `int` of a text: surrounding space, one sign, digits. */
  function ParseInt(s: string): Option<int> {
    var t := TrimRight(TrimLeft(s));
    if t != [] && t[0] == '-' then if AllDigits(t[1..]) then Some(0 - ParseDigits(t[1..])) else None
    else if t != [] && t[0] == '+' then if AllDigits(t[1..]) then Some(ParseDigits(t[1..])) else None
    else if AllDigits(t) then Some(ParseDigits(t)) else None
  }

  lemma {:induction false} ParseDecimal(n: nat)
    ensures ParseDigits(Decimal(n)) == n
  {
    if n >= 10 {
      ParseDecimal(n / 10);
      assert Decimal(n)[..|Decimal(n)| - 1] == Decimal(n / 10);
    } else {
      assert Decimal(n)[..0] == [];
    }
  }

  /** Without a zero in front. */
  lemma {:induction false} NoLeadingZero(n: nat)
    ensures |Decimal(n)| > 1 ==> Decimal(n)[0] != '0'
    ensures n > 0 ==> Decimal(n)[0] != '0'
  {
    if n >= 10 {
      NoLeadingZero(n / 10);
    }
  }

  ghost predicate AllSpace(s: string) {
    forall i :: 0 <= i < |s| ==> IsSpace(s[i])
  }

  /** The text with the space around it. */
  ghost predicate Around(s: string, a: string, t: string, b: string) {
    && s == a + (t + b) && AllSpace(a) && AllSpace(b)
    && (t != [] ==> !IsSpace(t[0]) && !IsSpace(t[|t| - 1]))
  }

  lemma {:induction false} TrimLeftOf(a: string, t: string)
    requires AllSpace(a) && (t != [] ==> !IsSpace(t[0]))
    ensures TrimLeft(a + t) == t
  {
    if a == [] {
      assert a + t == t;
    } else {
      assert (a + t)[1..] == a[1..] + t;
      TrimLeftOf(a[1..], t);
    }
  }

  lemma {:induction false} TrimRightOf(t: string, b: string)
    requires AllSpace(b) && (t != [] ==> !IsSpace(t[|t| - 1]))
    ensures TrimRight(t + b) == t
  {
    if b == [] {
      assert t + b == t;
    } else {
      assert (t + b)[..|t + b| - 1] == t + b[..|b| - 1];
      TrimRightOf(t, b[..|b| - 1]);
    }
  }

  /** Trimming takes off the space around a text, and no more. */
  lemma Trims(s: string, a: string, t: string, b: string)
    requires Around(s, a, t, b)
    ensures TrimRight(TrimLeft(s)) == t
  {
    if t == [] {
      assert s == (a + b) + "";
      assert AllSpace(a + b);
      TrimLeftOf(a + b, "");
    } else {
      assert (t + b)[0] == t[0];
      TrimLeftOf(a, t + b);
      TrimRightOf(t, b);
    }
  }

  lemma ParsesTrimmed(s: string, sign: string, d: string, n: int)
    requires TrimRight(TrimLeft(s)) == sign + d && sign in {"", "+", "-"} && d != [] && d[0] !in {'+', '-'}
    ensures ParseInt(s) == Some(n)
       <==> AllDigits(d) && n == if sign == "-" then 0 - ParseDigits(d) else ParseDigits(d)
  {
    var t := sign + d;
    hide TrimLeft, TrimRight, ParseDigits;
    if sign == "" {
      assert t == d;
    } else {
      assert t[0] == sign[0] && t[1..] == d;
    }
  }

  /** Which texts read as which number: digits with at most one sign in front, and space around. */
  lemma ParsesExactly(a: string, sign: string, d: string, b: string, n: int)
    requires AllSpace(a) && AllSpace(b) && sign in {"", "+", "-"}
    requires d != [] && d[0] !in {'+', '-'} && !IsSpace(d[0]) && !IsSpace(d[|d| - 1])
    ensures ParseInt(a + ((sign + d) + b)) == Some(n)
       <==> AllDigits(d) && n == if sign == "-" then 0 - ParseDigits(d) else ParseDigits(d)
  {
    var t := sign + d;
    assert t[|t| - 1] == d[|d| - 1] && t[0] == if sign == "" then d[0] else sign[0];
    Trims(a + (t + b), a, t, b);
    hide TrimLeft, TrimRight, ParseDigits, ParseInt, AllDigits;
    ParsesTrimmed(a + (t + b), sign, d, n);
  }

  /** A number survives being written as text and read back, whatever its sign. */
  lemma ParseRender(n: int)
    ensures ParseInt(Render(n)) == Some(n)
  {
    var m := if n < 0 then -n else n;
    ParseDecimal(m);
    var t := Render(n);
    hide ParseDigits, Decimal;
    assert !IsSpace(t[0]) && !IsSpace(t[|t| - 1]);
    assert n < 0 ==> t[1..] == Decimal(m);
  }

  // ---------------------------------------------------------------------------------------------------------
  // Rows

  datatype ParamType = STRING | STRLIST | NUMERIC | UNSUPPORTED

  type Schemas = map<string, map<string, ParamType>>

  type Rows = map<string, map<string, string>>

  function Text(v: Value): string {
    match v
    case Str(s) => s
    case Int(n) => Render(n)
  }

  function ReadValue(t: ParamType, text: string): Option<Value> {
    match t
    case STRING => Some(Str(text))
    case STRLIST => Some(Str(text))
    case NUMERIC =>
      (match ParseInt(text)
       case Some(n) => Some(Int(n))
       case None => None)
    case UNSUPPORTED => None
  }

  predicate WellTypedValue(t: ParamType, v: Value) {
    match t
    case NUMERIC => v.Int?
    case UNSUPPORTED => false
    case _ => v.Str?
  }

  /** A value reads back as itself if and only if it is of the declared type. */
  lemma ValueRoundTrip(t: ParamType, v: Value)
    ensures ReadValue(t, Text(v)) == Some(v) <==> WellTypedValue(t, v)
  {
    if v.Int? {
      ParseRender(v.n);
    }
  }

  ghost predicate KeysDeclared(names: map<string, ParamType>, keys: set<string>) {
    forall k :: k in keys ==> k in names
  }

  /** Every schema and every key is declared. */
  ghost predicate Declared(schemas: Schemas, rs: Settings) {
    forall s :: s in rs ==> s in schemas && KeysDeclared(schemas[s], rs[s].Keys)
  }

  ghost predicate ValidRows(schemas: Schemas, rows: Rows) {
    forall s :: s in rows ==> s in schemas && KeysDeclared(schemas[s], rows[s].Keys)
  }

  function Texts(d: Dict): (r: map<string, string>)
    ensures r.Keys == d.Keys && forall k :: k in d ==> r[k] == Text(d[k])
  {
    map k | k in d :: Text(d[k])
  }

  function TextOf(o: Option<Value>): Option<string> {
    match o
    case Some(v) => Some(Text(v))
    case None => None
  }

  function RowAt(rows: Rows, s: string, k: string): Option<string> {
    if s in rows then Entry(rows[s], k) else None
  }

  /** The row of a key is the one before, or that of the new value, which then is declared. */
  predicate OldOrNew(names: map<string, ParamType>, d: Dict, before: map<string, string>, r: map<string, string>,
                     k: string)
  {
    || Entry(r, k) == Entry(before, k)
    || (Entry(r, k) == TextOf(Entry(d, k)) && (k in d ==> k in names))
  }

  /** Rows in the middle of an update: each is the one before it or the one after it, and only declared keys have
    new ones. */
  ghost predicate BetweenAt(schemas: Schemas, before: Rows, rs: Settings, r: Rows, s: string, k: string) {
    || RowAt(r, s, k) == RowAt(before, s, k)
    || (s in rs && RowAt(r, s, k) == TextOf(Lookup(rs, s, k)) && (k in rs[s] ==> s in schemas && k in schemas[s]))
  }

  ghost predicate Between(schemas: Schemas, before: Rows, rs: Settings, r: Rows) {
    && (forall s :: s in r ==> s in before || (s in rs && s in schemas))
    && (forall s :: s in before ==> s in r)
    && forall s, k :: BetweenAt(schemas, before, rs, r, s, k)
  }

  /** The rows after a whole update: exactly the given keys in the given schemas, and no change elsewhere. */
  function Written(rows: Rows, rs: Settings): (r: Rows)
    ensures r.Keys == rows.Keys + rs.Keys
    ensures forall s :: s in r ==> r[s] == if s in rs then Texts(rs[s]) else rows[s]
  {
    map s | s in rows.Keys + rs.Keys :: if s in rs then Texts(rs[s]) else rows[s]
  }

  ghost predicate ReadableSchema(names: map<string, ParamType>, d: map<string, string>) {
    forall k :: k in d ==> k in names && ReadValue(names[k], d[k]).Some?
  }

  ghost predicate Readable(schemas: Schemas, rows: Rows) {
    forall s :: s in rows ==> s in schemas && ReadableSchema(schemas[s], rows[s])
  }

  function ReadSchema(names: map<string, ParamType>, d: map<string, string>): (r: Dict)
    requires ReadableSchema(names, d)
    ensures r.Keys == d.Keys && forall k :: k in d ==> Some(r[k]) == ReadValue(names[k], d[k])
  {
    map k | k in d :: ReadValue(names[k], d[k]).value
  }

  function ReadAll(schemas: Schemas, rows: Rows): (r: Settings)
    requires Readable(schemas, rows)
    ensures r.Keys == rows.Keys && forall s :: s in rows ==> r[s] == ReadSchema(schemas[s], rows[s])
  {
    map s | s in rows :: ReadSchema(schemas[s], rows[s])
  }

  ghost predicate WellTypedDict(names: map<string, ParamType>, d: Dict) {
    forall k :: k in d ==> k in names && WellTypedValue(names[k], d[k])
  }

  ghost predicate WellTyped(schemas: Schemas, rs: Settings) {
    forall s :: s in rs ==> s in schemas && WellTypedDict(schemas[s], rs[s])
  }

  lemma SchemaRoundTrip(names: map<string, ParamType>, d: Dict)
    requires KeysDeclared(names, d.Keys)
    ensures WellTypedDict(names, d) ==> ReadableSchema(names, Texts(d))
    ensures ReadableSchema(names, Texts(d)) ==> (ReadSchema(names, Texts(d)) == d <==> WellTypedDict(names, d))
  {
    forall k | k in d ensures ReadValue(names[k], Texts(d)[k]) == Some(d[k]) <==> WellTypedValue(names[k], d[k]) {
      ValueRoundTrip(names[k], d[k]);
    }
    if ReadableSchema(names, Texts(d)) && ReadSchema(names, Texts(d)) == d {
      forall k | k in d ensures WellTypedValue(names[k], d[k]) {
        assert Some(ReadSchema(names, Texts(d))[k]) == ReadValue(names[k], Texts(d)[k]);
      }
    }
  }

  /** Writing declared settings and reading everything back gives, in the written schemas, exactly what was written
    (no key more, no key less) if and only if every value is of its declared type; the other schemas read as before. */
  lemma StoreRoundTrip(schemas: Schemas, rows: Rows, rs: Settings)
    requires Declared(schemas, rs) && Readable(schemas, rows)
    ensures WellTyped(schemas, rs) ==> Readable(schemas, Written(rows, rs))
    ensures Readable(schemas, Written(rows, rs)) ==>
              var back := ReadAll(schemas, Written(rows, rs));
              && ((forall s :: s in rs ==> back[s] == rs[s]) <==> WellTyped(schemas, rs))
              && (forall s :: s in rows && s !in rs ==> back[s] == ReadAll(schemas, rows)[s])
              && back.Keys == rows.Keys + rs.Keys
  {
    forall s | s in rs
      ensures WellTypedDict(schemas[s], rs[s]) ==> ReadableSchema(schemas[s], Texts(rs[s]))
      ensures ReadableSchema(schemas[s], Texts(rs[s])) ==>
                (ReadSchema(schemas[s], Texts(rs[s])) == rs[s] <==> WellTypedDict(schemas[s], rs[s]))
    {
      SchemaRoundTrip(schemas[s], rs[s]);
    }
  }

  /** A well-typed dictionary with all schemas that are stored reads back as it is. */
  lemma ReadsBack(schemas: Schemas, rows: Rows, rs: Settings)
    requires Readable(schemas, rows) && Declared(schemas, rs) && WellTyped(schemas, rs) && rows.Keys <= rs.Keys
    ensures Readable(schemas, Written(rows, rs)) && ReadAll(schemas, Written(rows, rs)) == rs
  {
    StoreRoundTrip(schemas, rows, rs);
  }

  /** A key taken out of the dictionary is gone from the store after the update, and from every later reading. */
  lemma DeletedKeyGone(schemas: Schemas, rows: Rows, rs: Settings, key: string)
    requires Delete(rs, key).Deleted? && Declared(schemas, rs)
    ensures var rs' := Delete(rs, key).c;
            && Declared(schemas, rs')
            && Dirname(key) in Written(rows, rs') && Basename(key) !in Written(rows, rs')[Dirname(key)]
            && (Readable(schemas, Written(rows, rs')) ==> Get(ReadAll(schemas, Written(rows, rs')), key) == None)
  {
    var rs' := Delete(rs, key).c;
    var names := schemas[Dirname(key)];
    assert KeysDeclared(names, rs[Dirname(key)].Keys);
    assert rs'[Dirname(key)].Keys <= rs[Dirname(key)].Keys;
    forall s | s in rs' ensures s in schemas && KeysDeclared(schemas[s], rs'[s].Keys) {
      assert KeysDeclared(schemas[s], rs[s].Keys);
    }
  }

  lemma ReadAt(schemas: Schemas, rows: Rows, s: string, k: string)
    requires Readable(schemas, rows)
    ensures Lookup(ReadAll(schemas, rows), s, k)
         == if RowAt(rows, s, k).Some? then ReadValue(schemas[s][k], RowAt(rows, s, k).value) else None
  {
    if RowAt(rows, s, k).Some? {
      assert ReadableSchema(schemas[s], rows[s]);
    }
  }

  lemma ReadTyped(schemas: Schemas, rows: Rows)
    requires Readable(schemas, rows)
    ensures WellTyped(schemas, ReadAll(schemas, rows)) && Declared(schemas, ReadAll(schemas, rows))
  {
    forall s | s in rows ensures WellTypedDict(schemas[s], ReadAll(schemas, rows)[s]) {
      assert ReadableSchema(schemas[s], rows[s]);
    }
  }

  /** What is written fits its declared type wherever it is declared. */
  ghost predicate FitsWhereDeclared(schemas: Schemas, rs: Settings) {
    forall s, k :: Lookup(rs, s, k).Some? && s in schemas && k in schemas[s] ==>
                     WellTypedValue(schemas[s][k], Lookup(rs, s, k).value)
  }

  /** Rows that an update has left half written can still be read, and every key reads as before the update, or as
    the value the update gives it, which then is declared. */
  lemma ReadBetween(schemas: Schemas, before: Rows, rs: Settings, r: Rows)
    requires Readable(schemas, before) && Between(schemas, before, rs, r) && FitsWhereDeclared(schemas, rs)
    ensures Readable(schemas, r)
    ensures forall s, k :: ReadsOldOrNew(schemas, before, rs, r, s, k)
  {
    forall s | s in r ensures s in schemas && ReadableSchema(schemas[s], r[s]) {
      assert s in before ==> ReadableSchema(schemas[s], before[s]);
      forall k | k in r[s] ensures k in schemas[s] && ReadValue(schemas[s][k], r[s][k]).Some? {
        ReadsAt(schemas, before, rs, r, s, k);
      }
    }
    forall s, k ensures ReadsOldOrNew(schemas, before, rs, r, s, k) {
      assert BetweenAt(schemas, before, rs, r, s, k);
      if RowAt(r, s, k).Some? {
        ReadsAt(schemas, before, rs, r, s, k);
      }
      ReadAt(schemas, r, s, k);
      ReadAt(schemas, before, s, k);
    }
  }

  ghost predicate ReadsOldOrNew(schemas: Schemas, before: Rows, rs: Settings, r: Rows, s: string, k: string)
    requires Readable(schemas, before) && Readable(schemas, r)
  {
    var now := Lookup(ReadAll(schemas, r), s, k);
    || now == Lookup(ReadAll(schemas, before), s, k)
    || (now == Lookup(rs, s, k) && (now.Some? ==> s in schemas && k in schemas[s]))
  }

  lemma ReadsAt(schemas: Schemas, before: Rows, rs: Settings, r: Rows, s: string, k: string)
    requires Readable(schemas, before) && Between(schemas, before, rs, r) && FitsWhereDeclared(schemas, rs)
    requires RowAt(r, s, k).Some?
    ensures s in schemas && k in schemas[s] && ReadValue(schemas[s][k], r[s][k]).Some?
    ensures RowAt(r, s, k) == RowAt(before, s, k) || ReadValue(schemas[s][k], r[s][k]) == Lookup(rs, s, k)
  {
    assert BetweenAt(schemas, before, rs, r, s, k);
    if RowAt(r, s, k) == RowAt(before, s, k) {
      assert ReadableSchema(schemas[s], before[s]);
    } else {
      assert Lookup(rs, s, k).Some?;
      ValueRoundTrip(schemas[s][k], Lookup(rs, s, k).value);
    }
  }

  class ContextStore {
    const schemas: Schemas
    var rows: Rows

    constructor (schemas: Schemas)
      ensures this.schemas == schemas && rows == map[]
    {
      this.schemas := schemas;
      rows := map[];
    }

    /** Keys that were dropped from the dictionary lose their row. */
    static method DropKeys(d: Dict, before: map<string, string>) returns (r: map<string, string>)
      ensures forall k :: k in r <==> k in before && k in d
      ensures forall k :: k in r ==> r[k] == before[k]
    {
      r := before;
      var todo := set k | k in before && k !in d;
      while todo != {}
        invariant forall k :: k in todo ==> k !in d
        invariant forall k :: k in r <==> k in before && (k in d || k in todo)
        invariant forall k :: k in r ==> r[k] == before[k]
        decreases |todo|
      {
        var k :| k in todo;
        r := r - {k};
        todo := todo - {k};
      }
    }

    /** The rows of one schema: dropped keys are deleted, then every key is created or overwritten. An undeclared key
      is an error; by then every row is the one before or the new one. */
    static method UpdateSchema(names: map<string, ParamType>, d: Dict, before: map<string, string>)
        returns (raised: bool, r: map<string, string>)
      ensures raised <==> !KeysDeclared(names, d.Keys)
      ensures !raised ==> r == Texts(d)
      ensures forall k :: OldOrNew(names, d, before, r, k)
    {
      r := DropKeys(d, before);
      var todo := d.Keys;
      while todo != {}
        invariant forall k :: k in todo ==> k in d
        invariant forall k :: k in r ==> k in d
        invariant forall k :: k in d && k !in todo ==> k in names && k in r && r[k] == Text(d[k])
        invariant forall k :: OldOrNew(names, d, before, r, k)
        decreases |todo|
      {
        var k :| k in todo;
        if k !in names {
          return true, r;
        }
        ghost var prior := r;
        r := r[k := Text(d[k])];
        todo := todo - {k};
        forall j ensures OldOrNew(names, d, before, r, j) {
          assert OldOrNew(names, d, before, prior, j);
        }
      }
      assert r == Texts(d);
      return false, r;
    }

    /** The rows while the schemas of an update are written one after the other. */
    static ghost predicate WrittenUpTo(r: Rows, before: Rows, rs: Settings, todo: set<string>) {
      && (forall s :: s in r <==> s in before || (s in rs && s !in todo))
      && (forall s :: s in r ==> r[s] == if s in rs && s !in todo then Texts(rs[s]) else before[s])
    }

    static lemma WrittenAll(r: Rows, before: Rows, rs: Settings)
      requires WrittenUpTo(r, before, rs, {})
      ensures r == Written(before, rs)
    {
    }

    static lemma OneMoreSchema(r: Rows, before: Rows, rs: Settings, todo: set<string>, s: string)
      requires WrittenUpTo(r, before, rs, todo) && s in todo && s in rs
      ensures WrittenUpTo(r[s := Texts(rs[s])], before, rs, todo - {s})
    {
    }

    static lemma BetweenStep(schemas: Schemas, before: Rows, rs: Settings, r: Rows, s: string,
                             was: map<string, string>, u: map<string, string>)
      requires Between(schemas, before, rs, r) && s in rs && s in schemas
      requires if s in r then s in before && r[s] == before[s] && was == r[s] else was == map[]
      requires forall k :: OldOrNew(schemas[s], rs[s], was, u, k)
      ensures Between(schemas, before, rs, r[s := u])
    {
      var r' := r[s := u];
      forall t, k ensures BetweenAt(schemas, before, rs, r', t, k) {
        assert BetweenAt(schemas, before, rs, r, t, k);
        assert t == s ==> OldOrNew(schemas[s], rs[s], was, u, k);
      }
    }

    /** The whole update. It raises if and only if a schema or a key is undeclared; then each row is still the old one
      or already the new one, and no undeclared key has got one. */
    method UpdateRunSettings(rs: Settings) returns (raised: bool)
      modifies this
      ensures raised <==> !Declared(schemas, rs)
      ensures Between(schemas, old(rows), rs, rows)
      ensures !raised ==> rows == Written(old(rows), rs)
    {
      hide Texts, KeysDeclared, WrittenUpTo, Between, OldOrNew;
      assert WrittenUpTo(rows, rows, rs, rs.Keys) && Between(schemas, rows, rs, rows) by {
        NothingWritten(schemas, rows, rs);
      }
      var r, todo := rows, rs.Keys;
      raised := false;
      while todo != {} && !raised
        invariant rows == old(rows)
        invariant forall s :: s in todo ==> s in rs
        invariant !raised ==> forall s :: s in todo && s in r ==> s in rows && r[s] == rows[s]
        invariant !raised ==> WrittenUpTo(r, old(rows), rs, todo)
        invariant !raised ==> forall s :: s in rs && s !in todo ==> s in schemas && KeysDeclared(schemas[s], rs[s].Keys)
        invariant raised ==> !Declared(schemas, rs)
        invariant Between(schemas, rows, rs, r)
        decreases |todo|
      {
        var s :| s in todo;
        if s !in schemas {
          raised := true;
        } else {
          var was, u := if s in r then r[s] else map[], map[];
          raised, u := UpdateSchema(schemas[s], rs[s], was);
          OneMoreSchema(r, old(rows), rs, todo, s);
          BetweenStep(schemas, rows, rs, r, s, was, u);
          r := r[s := u];
        }
        todo := todo - {s};
      }
      if !raised {
        WrittenAll(r, rows, rs);
      }
      rows := r;
    }

    static lemma NothingWritten(schemas: Schemas, rows: Rows, rs: Settings)
      ensures WrittenUpTo(rows, rows, rs, rs.Keys) && Between(schemas, rows, rs, rows)
    {
    }

    method ReadRows(s: string) returns (readable: bool, d: Dict)
      requires s in schemas && s in rows && KeysDeclared(schemas[s], rows[s].Keys)
      ensures readable <==> ReadableSchema(schemas[s], rows[s])
      ensures readable ==> d == ReadSchema(schemas[s], rows[s])
    {
      d := map[];
      var todo := rows[s].Keys;
      while todo != {}
        invariant todo <= rows[s].Keys && d.Keys == rows[s].Keys - todo
        invariant forall k :: k in d ==> Some(d[k]) == ReadValue(schemas[s][k], rows[s][k])
        decreases |todo|
      {
        var k :| k in todo;
        var v := ReadValue(schemas[s][k], rows[s][k]);
        if v.None? {
          return false, d;
        }
        d := d[k := v.value];
        todo := todo - {k};
      }
      return true, d;
    }

    /** Reading everything back; a value that does not fit its declared type is an error. */
    method GetContext() returns (readable: bool, c: Settings)
      requires ValidRows(schemas, rows)
      ensures readable <==> Readable(schemas, rows)
      ensures readable ==> c == ReadAll(schemas, rows)
    {
      c := map[];
      var todo := rows.Keys;
      while todo != {}
        invariant todo <= rows.Keys && c.Keys == rows.Keys - todo
        invariant forall s :: s in c ==> ReadableSchema(schemas[s], rows[s]) && c[s] == ReadSchema(schemas[s], rows[s])
        decreases |todo|
      {
        var s :| s in todo;
        assert s in schemas && KeysDeclared(schemas[s], rows[s].Keys);
        var d;
        readable, d := ReadRows(s);
        if !readable {
          return false, c;
        }
        c := c[s := d];
        todo := todo - {s};
      }
      return true, c;
    }

    /** One driver step on the store: write, read back. */
    method WriteAndRead(rs: Settings) returns (raised: bool, c: Settings)
      requires Readable(schemas, rows)
      modifies this
      ensures raised <==> !Declared(schemas, rs) || !Readable(schemas, Written(old(rows), rs))
      ensures Declared(schemas, rs) && WellTyped(schemas, rs) ==> !raised
      ensures !raised ==> ((forall s :: s in rs ==> s in c && c[s] == rs[s]) <==> WellTyped(schemas, rs))
      ensures !raised ==> forall s :: s in old(rows) && s !in rs ==> s in c && c[s] == ReadAll(schemas, old(rows))[s]
    {
      raised := UpdateRunSettings(rs);
      c := map[];
      if !raised {
        StoreRoundTrip(schemas, old(rows), rs);
        var readable;
        readable, c := GetContext();
        raised := !readable;
      }
    }
  }
}
