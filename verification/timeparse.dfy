/** Time expressions: the four accepted formats as regular expressions, what their pieces match, and when a text reads
  as a number of seconds. Which of several ways to match the library's engine finds first is left open: what is
  proved holds of every way. */
module TimeParse {
  import opened Records
  import opened ContextRows

  // ---------------------------------------------------------------------------------------------------------
  // Regular expressions with named groups

  datatype Re =
    | Chr(cs: set<char>)
    | Rep(cs: set<char>, lo: nat, hi: Option<nat>)
    | Cat(a: Re, b: Re)
    | Or(a: Re, b: Re)
    | Opt(a: Re)
    | Group(name: string, a: Re)

  type Env = map<string, string>

  ghost predicate In(s: string, cs: set<char>) {
    forall i :: 0 <= i < |s| ==> s[i] in cs
  }

  /** The expression matches the whole text, capturing these groups. */
  ghost predicate Denotes(re: Re, s: string, e: Env) {
    match re
    case Chr(cs) => |s| == 1 && s[0] in cs && e == map[]
    case Rep(cs, lo, hi) => lo <= |s| && (hi.Some? ==> |s| <= hi.value) && In(s, cs) && e == map[]
    case Cat(a, b) =>
      exists k: nat, f: Env, g: Env :: k <= |s| && Denotes(a, s[..k], f) && Denotes(b, s[k..], g) && e == f + g
    case Or(a, b) => Denotes(a, s, e) || Denotes(b, s, e)
    case Opt(a) => (s == [] && e == map[]) || Denotes(a, s, e)
    case Group(name, a) => exists f: Env :: Denotes(a, s, f) && e == f[name := s]
  }

  lemma CatIntro(a: Re, b: Re, s: string, t: string, f: Env, g: Env)
    requires Denotes(a, s, f) && Denotes(b, t, g)
    ensures Denotes(Cat(a, b), s + t, f + g)
  {
    assert (s + t)[..|s|] == s && (s + t)[|s|..] == t;
  }

  lemma CatElim(a: Re, b: Re, s: string, e: Env) returns (x: string, y: string, f: Env, g: Env)
    requires Denotes(Cat(a, b), s, e)
    ensures s == x + y && Denotes(a, x, f) && Denotes(b, y, g) && e == f + g
  {
    var k: nat, f': Env, g': Env :| k <= |s| && Denotes(a, s[..k], f') && Denotes(b, s[k..], g') && e == f' + g';
    x, y, f, g := s[..k], s[k..], f', g';
  }

  // ---------------------------------------------------------------------------------------------------------
  // The formats

  const DIGITS := {'0', '1', '2', '3', '4', '5', '6', '7', '8', '9'}
  const NUMBER := DIGITS + {'.'}
  const SPACE := {' ', '\t', '\n', '\r', '\U{0B}', '\U{0C}'}

  /** A letter, in either case. */
  function Letter(c: char): Re
    requires 'a' <= c <= 'z'
  {
    Chr({c, c - 'a' + 'A'})
  }

  function Spaces(): Re { Rep(SPACE, 0, None) }

  function Colon(): Re { Chr({':'}) }

  function Digits(lo: nat, hi: Option<nat>): Re { Rep(DIGITS, lo, hi) }

  function Number(): Re { Rep(NUMBER, 1, None) }

  predicate Word(w: string) {
    w != [] && forall i :: 0 <= i < |w| ==> 'a' <= w[i] <= 'z'
  }

  /** A word, in any case. */
  function Letters(w: string): Re
    requires Word(w)
  {
    if |w| == 1 then Letter(w[0]) else Cat(Letter(w[0]), Letters(w[1..]))
  }

  /** A word with an optional plural. */
  function Plural(w: string): Re
    requires Word(w)
  {
    Cat(Letters(w), Opt(Letter('s')))
  }

  /** One letter, or one of two words with an optional plural. */
  function Unit(c: char, short: string, long: string): Re
    requires 'a' <= c <= 'z' && Word(short) && Word(long)
  {
    Or(Letter(c), Or(Plural(short), Plural(long)))
  }

  /** A number with a unit. */
  function Quantity(name: string, units: Re): Re {
    Cat(Group(name, Number()), Cat(Spaces(), units))
  }

  function Weeks(): Re { Quantity("weeks", Unit('w', "wk", "week")) }

  function Days(): Re { Quantity("days", Unit('d', "dy", "day")) }

  function Hours(): Re { Quantity("hours", Unit('h', "hr", "hour")) }

  function Mins(): Re { Quantity("mins", Unit('m', "min", "minute")) }

  function Secs(): Re { Quantity("secs", Unit('s', "sec", "second")) }

  function Separator(): Re { Opt(Cat(Chr({',', '/'}), Spaces())) }

  function OptSep(x: Re): Re { Opt(Cat(x, Cat(Spaces(), Separator()))) }

  function Fraction(): Re { Opt(Cat(Chr({'.'}), Digits(1, None))) }

  function ClockSecs(): Re { Group("secs", Cat(Digits(2, Some(2)), Fraction())) }

  function MinClock(): Re {
    Cat(Group("mins", Digits(1, Some(2))), Cat(Colon(), ClockSecs()))
  }

  function MinutePart(): Re {
    Cat(Group("mins", Digits(2, Some(2))), Cat(Colon(), ClockSecs()))
  }

  function HourClock(): Re {
    Cat(Group("hours", Digits(1, None)), Cat(Colon(), MinutePart()))
  }

  function DayClock(): Re {
    Cat(Group("days", Digits(1, None)),
        Cat(Colon(), Cat(Group("hours", Digits(2, Some(2))), Cat(Colon(), MinutePart()))))
  }

  /** The four formats. */
  function Core(i: nat): Re
    requires i < 4
  {
    if i == 0 then
      Cat(OptSep(Weeks()), Cat(Spaces(), Cat(OptSep(Days()), Cat(Spaces(), Cat(OptSep(Hours()), Cat(Spaces(),
        Cat(OptSep(Mins()), Cat(Spaces(), Opt(Secs())))))))))
    else if i == 1 then MinClock()
    else if i == 2 then Cat(OptSep(Weeks()), Cat(Spaces(), Cat(OptSep(Days()), Cat(Spaces(), HourClock()))))
    else DayClock()
  }

  /** Each between optional spaces. */
  function Format(i: nat): Re
    requires i < 4
  {
    Cat(Spaces(), Cat(Core(i), Spaces()))
  }

  // ---------------------------------------------------------------------------------------------------------
  // Reading

  function Multiplier(name: string): nat {
    if name == "weeks" then 604800
    else if name == "days" then 86400
    else if name == "hours" then 3600
    else if name == "mins" then 60
    else 1
  }

  /** All captured fields are whole numbers. */
  predicate Whole(e: Env) {
    forall k :: k in e ==> AllDigits(e[k])
  }

  function Field(e: Env, name: string): nat
    requires Whole(e)
  {
    if name in e then Multiplier(name) * ParseDigits(e[name]) else 0
  }

  function Total(e: Env): nat
    requires Whole(e)
  {
    Field(e, "weeks") + Field(e, "days") + Field(e, "hours") + Field(e, "mins") + Field(e, "secs")
  }

  /** Where the first dot is. */
  function Dot(v: string): (i: nat)
    ensures i <= |v| && '.' !in v[..i] && (i < |v| ==> v[i] == '.')
  {
    if v == [] || v[0] == '.' then 0 else 1 + Dot(v[1..])
  }

  function TenTo(k: nat): (r: int)
    ensures r > 0
  {
    if k == 0 then 1 else 10 * TenTo(k - 1)
  }

  predicate OnlyDigits(s: string) {
    forall i :: 0 <= i < |s| ==> IsDigit(s[i])
  }

  /** The number with these digits in front of and behind the dot. */
  function Pointed(whole: string, part: string): real
    requires OnlyDigits(whole) && OnlyDigits(part)
  {
    ParseDigits(whole) as real + ParseDigits(part) as real / TenTo(|part|) as real
  }

  /** `float` of a text of digits and dots: at least one digit and at most one dot, or an exception. */
  function ParseFloat(v: string): Option<real> {
    var i := Dot(v);
    var whole, part := v[..i], if i < |v| then v[i + 1..] else "";
    if OnlyDigits(whole) && OnlyDigits(part) && whole + part != "" then
      Some(Pointed(whole, part))
    else None
  }

  function FloatField(e: Env, name: string): Option<real> {
    if name !in e then Some(0.0)
    else
      match ParseFloat(e[name])
      case Some(x) => Some(Multiplier(name) as real * x)
      case None => None
  }

  function Plus(a: Option<real>, b: Option<real>): Option<real> {
    if a.Some? && b.Some? then Some(a.value + b.value) else None
  }

  /** Everything but the seconds. */
  function FloatTotal(e: Env): Option<real> {
    Plus(Plus(FloatField(e, "weeks"), FloatField(e, "days")), Plus(FloatField(e, "hours"), FloatField(e, "mins")))
  }

  predicate WholeSecs(e: Env) {
    "secs" in e ==> AllDigits(e["secs"])
  }

  /** What the captured fields come to: whole fields are added up; with whole seconds the rest is cut down to a whole
    number; otherwise the sum stands as it is. Sums are exact here. */
  predicate ComesTo(e: Env, n: nat) {
    if Whole(e) then Total(e) == n
    else if WholeSecs(e) then
      var rest, secs := FloatTotal(e), if "secs" in e then ParseDigits(e["secs"]) else 0;
      rest.Some? && rest.value.Floor + secs == n
    else
      Plus(FloatTotal(e), FloatField(e, "secs")) == Some(n as real)
  }

  predicate Blank(s: string) {
    forall i :: 0 <= i < |s| ==> s[i] in SPACE
  }

  ghost predicate Accepts(i: nat, s: string)
    requires i < 4
  {
    !Blank(s) && exists e: Env :: Denotes(Format(i), s, e)
  }

  /** The text reads as `n` seconds: the first format that accepts it captures fields that come to `n`. */
  ghost predicate Reads(s: string, n: nat) {
    exists i: nat, e: Env :: ReadsBy(s, i, e, n)
  }

  ghost predicate ReadsBy(s: string, i: nat, e: Env, n: nat) {
    && i < 4 && !Blank(s) && Denotes(Format(i), s, e) && (forall j: nat :: j < i ==> !Accepts(j, s))
    && ComesTo(e, n)
  }

  // ---------------------------------------------------------------------------------------------------------
  // Counting colons tells the formats apart

  function CountColons(s: string): nat {
    if s == [] then 0 else (if s[0] == ':' then 1 else 0) + CountColons(s[1..])
  }

  lemma {:induction false} CountColonsConcat(a: string, b: string)
    ensures CountColons(a + b) == CountColons(a) + CountColons(b)
  {
    if a == [] {
      assert a + b == b;
    } else {
      assert (a + b)[1..] == a[1..] + b;
      CountColonsConcat(a[1..], b);
    }
  }

  lemma {:induction false} NoColons(s: string)
    ensures CountColons(s) == 0 <==> ':' !in s
  {
    if s != [] {
      NoColons(s[1..]);
      assert s == [s[0]] + s[1..];
    }
  }

  /** How many colons every text an expression matches has, where that is one number. */
  function Colons(re: Re): Option<nat> {
    match re
    case Chr(cs) => if ':' !in cs then Some(0) else if cs == {':'} then Some(1) else None
    case Rep(cs, _, _) => if ':' !in cs then Some(0) else None
    case Cat(a, b) => if Colons(a).Some? && Colons(b).Some? then Some(Colons(a).value + Colons(b).value) else None
    case Or(a, b) => if Colons(a) == Colons(b) then Colons(a) else None
    case Opt(a) => if Colons(a) == Some(0) then Some(0) else None
    case Group(_, a) => Colons(a)
  }

  lemma {:induction false} ColonsExact(re: Re, s: string, e: Env)
    requires Colons(re).Some? && Denotes(re, s, e)
    ensures CountColons(s) == Colons(re).value
  {
    match re
    case Chr(cs) => assert s == [s[0]] && s[1..] == [];
    case Rep(cs, lo, hi) => NoColons(s);
    case Cat(a, b) =>
      var x, y, f, g := CatElim(a, b, s, e);
      ColonsExact(a, x, f);
      ColonsExact(b, y, g);
      CountColonsConcat(x, y);
    case Or(a, b) =>
      if Denotes(a, s, e) { ColonsExact(a, s, e); } else { ColonsExact(b, s, e); }
    case Opt(a) =>
      if Denotes(a, s, e) { ColonsExact(a, s, e); }
    case Group(name, a) =>
      var f: Env :| Denotes(a, s, f) && e == f[name := s];
      ColonsExact(a, s, f);
  }

  lemma {:induction false} WordColons(w: string)
    requires Word(w)
    ensures Colons(Letters(w)) == Some(0) && Colons(Plural(w)) == Some(0)
  {
    assert Colons(Letter(w[0])) == Some(0);
    if |w| > 1 {
      WordColons(w[1..]);
    }
  }

  lemma QuantityColons(name: string, c: char, short: string, long: string)
    requires 'a' <= c <= 'z' && Word(short) && Word(long)
    ensures var q := Quantity(name, Unit(c, short, long)); Colons(OptSep(q)) == Some(0) && Colons(Opt(q)) == Some(0)
  {
    WordColons(short);
    WordColons(long);
    assert Colons(Letter(c)) == Some(0);
    hide Letters, Plural, Letter;
    var u := Unit(c, short, long);
    assert Colons(Or(Plural(short), Plural(long))) == Some(0);
    assert Colons(u) == Some(0) && Colons(Spaces()) == Some(0) && Colons(Separator()) == Some(0);
    hide Unit, Spaces, Separator;
    assert Colons(Group(name, Number())) == Some(0);
    assert Colons(Cat(Spaces(), u)) == Some(0);
    assert Colons(Quantity(name, u)) == Some(0);
    hide Quantity;
    assert Colons(Cat(Spaces(), Separator())) == Some(0);
  }

  lemma UnitColons()
    ensures Colons(OptSep(Weeks())) == Some(0) && Colons(OptSep(Days())) == Some(0)
    ensures Colons(OptSep(Hours())) == Some(0) && Colons(OptSep(Mins())) == Some(0) && Colons(Opt(Secs())) == Some(0)
  {
    hide Quantity, Unit, OptSep;
    QuantityColons("weeks", 'w', "wk", "week");
    QuantityColons("days", 'd', "dy", "day");
    QuantityColons("hours", 'h', "hr", "hour");
    QuantityColons("mins", 'm', "min", "minute");
    QuantityColons("secs", 's', "sec", "second");
  }

  lemma ClockColons()
    ensures Colons(Spaces()) == Some(0) && Colons(ClockSecs()) == Some(0) && Colons(Colon()) == Some(1)
    ensures Colons(MinutePart()) == Some(1)
  {
  }

  lemma CatColons(a: Re, b: Re)
    requires Colons(a).Some? && Colons(b).Some?
    ensures Colons(Cat(a, b)) == Some(Colons(a).value + Colons(b).value)
  {
  }

  lemma GroupColons(name: string, a: Re)
    ensures Colons(Group(name, a)) == Colons(a)
  {
  }

  lemma DigitColons(lo: nat, hi: Option<nat>)
    ensures Colons(Digits(lo, hi)) == Some(0)
  {
  }

  /** A group of digits, a colon, and the rest. */
  lemma ColonFieldColons(name: string, lo: nat, hi: Option<nat>, rest: Re)
    requires Colons(rest).Some?
    ensures Colons(Cat(Group(name, Digits(lo, hi)), Cat(Colon(), rest))) == Some(1 + Colons(rest).value)
  {
    ClockColons();
    hide *;
    DigitColons(lo, hi);
    GroupColons(name, Digits(lo, hi));
    CatColons(Colon(), rest);
    CatColons(Group(name, Digits(lo, hi)), Cat(Colon(), rest));
  }

  /** An optional quantity, spaces, and the rest. */
  lemma NextColons(x: Re, rest: Re)
    requires Colons(x) == Some(0) && Colons(rest).Some?
    ensures Colons(Cat(x, Cat(Spaces(), rest))) == Colons(rest)
  {
    ClockColons();
    hide *;
    CatColons(Spaces(), rest);
    CatColons(x, Cat(Spaces(), rest));
  }

  lemma WordsColons()
    ensures Colons(Core(0)) == Some(0)
  {
    hide OptSep, Weeks, Days, Hours, Mins, Secs, Spaces, Colons;
    UnitColons();
    var a := Opt(Secs());
    var b := Cat(OptSep(Mins()), Cat(Spaces(), a));
    var c := Cat(OptSep(Hours()), Cat(Spaces(), b));
    var d := Cat(OptSep(Days()), Cat(Spaces(), c));
    NextColons(OptSep(Mins()), a);
    NextColons(OptSep(Hours()), b);
    NextColons(OptSep(Days()), c);
    NextColons(OptSep(Weeks()), d);
  }

  lemma ClockFormatColons()
    ensures Colons(MinClock()) == Some(1) && Colons(HourClock()) == Some(2) && Colons(DayClock()) == Some(3)
  {
    hide Digits, ClockSecs, Colon, MinutePart, Colons;
    ClockColons();
    ColonFieldColons("mins", 1, Some(2), ClockSecs());
    ColonFieldColons("hours", 1, None, MinutePart());
    var hours := Cat(Group("hours", Digits(2, Some(2))), Cat(Colon(), MinutePart()));
    ColonFieldColons("hours", 2, Some(2), MinutePart());
    ColonFieldColons("days", 1, None, hours);
  }

  lemma CoreColons(i: nat)
    requires i < 4
    ensures Colons(Core(i)) == Some(i)
  {
    hide OptSep, Weeks, Days, Spaces, Colons, HourClock, MinClock, DayClock;
    WordsColons();
    ClockFormatColons();
    UnitColons();
    var c := Cat(OptSep(Days()), Cat(Spaces(), HourClock()));
    NextColons(OptSep(Days()), HourClock());
    NextColons(OptSep(Weeks()), c);
  }

  lemma FormatColons(i: nat)
    requires i < 4
    ensures Colons(Format(i)) == Some(i)
  {
    hide Core, Spaces, Colons;
    CoreColons(i);
    ClockColons();
    CatColons(Core(i), Spaces());
    CatColons(Spaces(), Cat(Core(i), Spaces()));
  }

  // ---------------------------------------------------------------------------------------------------------
  // Cutting texts apart

  predicate StartsOutside(s: string, cs: set<char>) {
    s == [] || s[0] !in cs
  }

  lemma Ends(a: string, b: string)
    ensures a != [] ==> (a + b)[0] == a[0] && (a + b)[1..] == a[1..] + b
    ensures a == [] ==> a + b == b
    ensures b == [] ==> a + b == a
  {
  }

  /** A run of characters of one kind followed by something else can be cut off in one way only. */
  lemma {:induction false} CutFront(a: string, b: string, c: string, d: string, cs: set<char>)
    requires In(a, cs) && In(c, cs) && StartsOutside(b, cs) && StartsOutside(d, cs) && a + b == c + d
    ensures a == c && b == d
    decreases |a|
  {
    Ends(a, b);
    Ends(c, d);
    if a != [] && c != [] {
      CutFront(a[1..], b, c[1..], d, cs);
      assert a == [a[0]] + a[1..] && c == [c[0]] + c[1..];
    }
  }

  lemma StartsEarlier(a: string, b: string, cs: set<char>)
    requires StartsOutside(a, cs) && (a == [] ==> StartsOutside(b, cs))
    ensures StartsOutside(a + b, cs)
  {
    Ends(a, b);
  }

  lemma InParts(a: string, b: string, cs: set<char>)
    ensures In(a + b, cs) <==> In(a, cs) && In(b, cs)
  {
    forall i | 0 <= i < |a| ensures a[i] == (a + b)[i] {}
    forall i | 0 <= i < |b| ensures b[i] == (a + b)[|a| + i] {}
  }

  lemma First(s: string, cs: set<char>)
    requires s != [] && In(s, cs)
    ensures s[0] in cs
  {
  }

  // ---------------------------------------------------------------------------------------------------------
  // What the pieces match

  lemma NoGroups(f: Env, g: Env)
    requires f == map[]
    ensures f + g == g && g + f == g
  {
  }

  lemma SpacesIs(s: string, e: Env)
    ensures Denotes(Spaces(), s, e) <==> In(s, SPACE) && e == map[]
  {
  }

  lemma NumberIs(s: string, e: Env)
    ensures Denotes(Number(), s, e) <==> s != [] && In(s, NUMBER) && e == map[]
  {
  }

  lemma DigitsIs(lo: nat, hi: Option<nat>, s: string, e: Env)
    ensures Denotes(Digits(lo, hi), s, e)
       <==> lo <= |s| && (hi.Some? ==> |s| <= hi.value) && In(s, DIGITS) && e == map[]
  {
  }

  lemma ColonIs(s: string, e: Env)
    ensures Denotes(Colon(), s, e) <==> s == ":" && e == map[]
  {
  }

  lemma GroupElim(name: string, a: Re, s: string, e: Env) returns (f: Env)
    requires Denotes(Group(name, a), s, e)
    ensures Denotes(a, s, f) && e == f[name := s]
  {
    f :| Denotes(a, s, f) && e == f[name := s];
  }

  lemma GroupIntro(name: string, a: Re, s: string, f: Env)
    requires Denotes(a, s, f)
    ensures Denotes(Group(name, a), s, f[name := s])
  {
  }

  lemma CatPlain(a: Re, b: Re, s: string, t: string)
    requires Denotes(a, s, map[]) && Denotes(b, t, map[])
    ensures Denotes(Cat(a, b), s + t, map[])
  {
    CatIntro(a, b, s, t, map[], map[]);
    NoGroups(map[], map[]);
  }

  // Words

  function Upper(c: char): char {
    if 'a' <= c <= 'z' then c - 'a' + 'A' else c
  }

  /** The same word, in any case. */
  ghost predicate AnyCase(s: string, w: string) {
    |s| == |w| && forall i :: 0 <= i < |w| ==> s[i] == w[i] || s[i] == Upper(w[i])
  }

  lemma LetterIs(c: char, s: string, e: Env)
    requires 'a' <= c <= 'z'
    ensures Denotes(Letter(c), s, e) <==> AnyCase(s, [c]) && e == map[]
  {
  }

  lemma CaseParts(s: string, t: string, v: string, w: string)
    requires |s| == |v|
    ensures AnyCase(s + t, v + w) <==> AnyCase(s, v) && AnyCase(t, w)
  {
    forall i | 0 <= i < |s| ensures (s + t)[i] == s[i] && (v + w)[i] == v[i] {}
    if |t| == |w| {
      forall i | 0 <= i < |t| ensures (s + t)[|s| + i] == t[i] && (v + w)[|s| + i] == w[i] {}
    }
  }

  lemma {:induction false} LettersIs(w: string, s: string, e: Env)
    requires Word(w)
    ensures Denotes(Letters(w), s, e) <==> AnyCase(s, w) && e == map[]
  {
    if |w| == 1 {
      LetterIs(w[0], s, e);
      assert w == [w[0]];
    } else {
      var v := w[1..];
      assert w == [w[0]] + v;
      hide Denotes, Letter, AnyCase;
      if Denotes(Letters(w), s, e) {
        var x, y, f, g := CatElim(Letter(w[0]), Letters(v), s, e);
        LetterIs(w[0], x, f);
        LettersIs(v, y, g);
        SameLength(x, [w[0]]);
        CaseParts(x, y, [w[0]], v);
        NoGroups(f, g);
      }
      if AnyCase(s, w) && e == map[] {
        SameLength(s, w);
        assert s == s[..1] + s[1..];
        CaseParts(s[..1], s[1..], [w[0]], v);
        LetterIs(w[0], s[..1], e);
        LettersIs(v, s[1..], e);
        CatPlain(Letter(w[0]), Letters(v), s[..1], s[1..]);
      }
    }
  }

  lemma SameLength(s: string, w: string)
    requires AnyCase(s, w)
    ensures |s| == |w|
  {
  }

  lemma OptIs(a: Re, s: string, e: Env)
    ensures Denotes(Opt(a), s, e) <==> (s == [] && e == map[]) || Denotes(a, s, e)
  {
  }

  lemma PluralIs(w: string, s: string, e: Env)
    requires Word(w)
    ensures Denotes(Plural(w), s, e) <==> (AnyCase(s, w) || AnyCase(s, w + "s")) && e == map[]
  {
    hide Denotes, Letters, Letter, AnyCase;
    if Denotes(Plural(w), s, e) {
      var x, y, f, g := CatElim(Letters(w), Opt(Letter('s')), s, e);
      LettersIs(w, x, f);
      OptIs(Letter('s'), y, g);
      LetterIs('s', y, g);
      SameLength(x, w);
      CaseParts(x, y, w, "s");
      NoGroups(f, g);
      assert x + [] == x;
    }
    if AnyCase(s, w) && e == map[] {
      LettersIs(w, s, e);
      OptIs(Letter('s'), "", e);
      CatPlain(Letters(w), Opt(Letter('s')), s, "");
      assert s + "" == s;
    }
    if AnyCase(s, w + "s") && e == map[] {
      SameLength(s, w + "s");
      var x, y := s[..|w|], s[|w|..];
      assert s == x + y;
      CaseParts(x, y, w, "s");
      LettersIs(w, x, e);
      LetterIs('s', y, e);
      OptIs(Letter('s'), y, e);
      CatPlain(Letters(w), Opt(Letter('s')), x, y);
    }
  }

  lemma UnitIs(c: char, short: string, long: string, s: string, e: Env)
    requires 'a' <= c <= 'z' && Word(short) && Word(long)
    ensures Denotes(Unit(c, short, long), s, e)
       <==> && (|| AnyCase(s, [c]) || AnyCase(s, short) || AnyCase(s, short + "s")
                || AnyCase(s, long) || AnyCase(s, long + "s"))
            && e == map[]
  {
    LetterIs(c, s, e);
    PluralIs(short, s, e);
    PluralIs(long, s, e);
    hide Letter, Plural, AnyCase;
  }

  /** The words for weeks, days, hours, minutes and seconds. */
  function Spellings(k: nat): (r: seq<string>)
    requires k < 5
    ensures |r| == 5
  {
    if k == 0 then ["w", "wk", "wks", "week", "weeks"]
    else if k == 1 then ["d", "dy", "dys", "day", "days"]
    else if k == 2 then ["h", "hr", "hrs", "hour", "hours"]
    else if k == 3 then ["m", "min", "mins", "minute", "minutes"]
    else ["s", "sec", "secs", "second", "seconds"]
  }

  /** One of the words for unit `k`, in any case. */
  ghost predicate Spells(k: nat, s: string)
    requires k < 5
  {
    exists i :: 0 <= i < 5 && AnyCase(s, Spellings(k)[i])
  }

  function Name(k: nat): string {
    if k == 0 then "weeks" else if k == 1 then "days" else if k == 2 then "hours" else if k == 3 then "mins" else "secs"
  }

  function UnitRe(k: nat): Re
    requires k < 5
  {
    if k == 0 then Unit('w', "wk", "week")
    else if k == 1 then Unit('d', "dy", "day")
    else if k == 2 then Unit('h', "hr", "hour")
    else if k == 3 then Unit('m', "min", "minute")
    else Unit('s', "sec", "second")
  }

  function QuantityRe(k: nat): Re
    requires k < 5
  {
    Quantity(Name(k), UnitRe(k))
  }

  lemma AnyOf(s: string, ws: seq<string>, a: string, b: string, c: string, d: string, f: string)
    requires ws == [a, b, c, d, f]
    ensures (exists i :: 0 <= i < 5 && AnyCase(s, ws[i]))
       <==> AnyCase(s, a) || AnyCase(s, b) || AnyCase(s, c) || AnyCase(s, d) || AnyCase(s, f)
  {
    hide AnyCase;
    if AnyCase(s, a) { assert AnyCase(s, ws[0]); }
    if AnyCase(s, b) { assert AnyCase(s, ws[1]); }
    if AnyCase(s, c) { assert AnyCase(s, ws[2]); }
    if AnyCase(s, d) { assert AnyCase(s, ws[3]); }
    if AnyCase(s, f) { assert AnyCase(s, ws[4]); }
  }

  lemma SpellsIs(k: nat, c: char, short: string, long: string, s: string)
    requires k < 5 && Spellings(k) == [[c], short, short + "s", long, long + "s"]
    ensures Spells(k, s)
       <==> || AnyCase(s, [c]) || AnyCase(s, short) || AnyCase(s, short + "s")
            || AnyCase(s, long) || AnyCase(s, long + "s")
  {
    AnyOf(s, Spellings(k), [c], short, short + "s", long, long + "s");
    hide AnyCase, Spellings;
  }

  lemma UnitReIs(k: nat, s: string, e: Env)
    requires k < 5
    ensures Denotes(UnitRe(k), s, e) <==> Spells(k, s) && e == map[]
  {
    hide Denotes, Unit, AnyCase, Spells;
    if k == 0 {
      UnitIs('w', "wk", "week", s, e);
      assert "wk" + "s" == "wks" && "week" + "s" == "weeks";
      SpellsIs(0, 'w', "wk", "week", s);
    } else if k == 1 {
      UnitIs('d', "dy", "day", s, e);
      assert "dy" + "s" == "dys" && "day" + "s" == "days";
      SpellsIs(1, 'd', "dy", "day", s);
    } else if k == 2 {
      UnitIs('h', "hr", "hour", s, e);
      assert "hr" + "s" == "hrs" && "hour" + "s" == "hours";
      SpellsIs(2, 'h', "hr", "hour", s);
    } else if k == 3 {
      UnitIs('m', "min", "minute", s, e);
      assert "min" + "s" == "mins" && "minute" + "s" == "minutes";
      SpellsIs(3, 'm', "min", "minute", s);
    } else {
      UnitIs('s', "sec", "second", s, e);
      assert "sec" + "s" == "secs" && "second" + "s" == "seconds";
      SpellsIs(4, 's', "sec", "second", s);
    }
  }

  const LETTERS := set c: char | 'a' <= c <= 'z' || 'A' <= c <= 'Z'

  /** A word for a unit starts with that unit's letter. */
  lemma SpellsStart(k: nat, s: string)
    requires k < 5 && Spells(k, s)
    ensures s != [] && In(s, LETTERS) && s[0] in {Spellings(k)[0][0], Upper(Spellings(k)[0][0])}
  {
    var i :| 0 <= i < 5 && AnyCase(s, Spellings(k)[i]);
    SpellingStart(k, i);
    assert Spellings(k)[i][0] == Spellings(k)[0][0];
  }

  lemma SpellingStart(k: nat, i: nat)
    requires k < 5 && i < 5
    ensures Word(Spellings(k)[i]) && Spellings(k)[0] != [] && Spellings(k)[i][0] == Spellings(k)[0][0]
  {
  }

  /** No word is one for two units. */
  lemma SpellsOne(j: nat, k: nat, s: string)
    requires j < 5 && k < 5 && Spells(j, s) && Spells(k, s)
    ensures j == k
  {
    SpellsStart(j, s);
    SpellsStart(k, s);
    hide Spells, In;
  }

  // Quantities

  const TAIL := SPACE + {',', '/'}

  lemma QuantityElim(k: nat, s: string, e: Env) returns (num: string, sp: string, w: string)
    requires k < 5 && Denotes(QuantityRe(k), s, e)
    ensures s == num + (sp + w) && num != [] && In(num, NUMBER) && In(sp, SPACE) && Spells(k, w)
    ensures e == map[Name(k) := num]
  {
    hide Denotes, UnitRe, Number, Spaces, Spells, In, Name;
    var rest, f, g;
    num, rest, f, g := CatElim(Group(Name(k), Number()), Cat(Spaces(), UnitRe(k)), s, e);
    var h := GroupElim(Name(k), Number(), num, f);
    NumberIs(num, h);
    var c, d;
    sp, w, c, d := CatElim(Spaces(), UnitRe(k), rest, g);
    SpacesIs(sp, c);
    UnitReIs(k, w, d);
    NoGroups(c, d);
    NoGroups(g, f);
  }

  lemma QuantityIntro(k: nat, num: string, sp: string, w: string)
    requires k < 5 && num != [] && In(num, NUMBER) && In(sp, SPACE) && Spells(k, w)
    ensures Denotes(QuantityRe(k), num + (sp + w), map[Name(k) := num])
  {
    hide Denotes, UnitRe, Number, Spaces, Spells, In, Name;
    NumberIs(num, map[]);
    GroupIntro(Name(k), Number(), num, map[]);
    SpacesIs(sp, map[]);
    UnitReIs(k, w, map[]);
    CatPlain(Spaces(), UnitRe(k), sp, w);
    CatIntro(Group(Name(k), Number()), Cat(Spaces(), UnitRe(k)), num, sp + w, map[Name(k) := num], map[]);
    NoGroups(map[], map[Name(k) := num]);
  }

  /** What may stand behind a quantity: spaces, and perhaps a separator and more spaces. */
  predicate IsAfter(s1: string, sep: string, s2: string) {
    && (forall i :: 0 <= i < |s1| ==> s1[i] in SPACE) && (forall i :: 0 <= i < |s2| ==> s2[i] in SPACE)
    && sep in {"", ",", "/"} && (sep == "" ==> s2 == "")
  }

  lemma SeparatorIntro(sep: string, sp: string)
    requires sep in {",", "/"} && In(sp, SPACE)
    ensures Denotes(Separator(), sep + sp, map[])
  {
    assert Denotes(Chr({',', '/'}), sep, map[]);
    SpacesIs(sp, map[]);
    hide Denotes, Spaces, In;
    CatPlain(Chr({',', '/'}), Spaces(), sep, sp);
    OptIs(Cat(Chr({',', '/'}), Spaces()), sep + sp, map[]);
  }

  lemma SeparatorElim(s: string, e: Env)
    requires Denotes(Separator(), s, e)
    ensures In(s, TAIL) && e == map[]
  {
    if Denotes(Cat(Chr({',', '/'}), Spaces()), s, e) {
      var x, y, f, g := CatElim(Chr({',', '/'}), Spaces(), s, e);
      SpacesIs(y, g);
      NoGroups(f, g);
    }
  }

  lemma TailIntro(s1: string, sep: string, s2: string)
    requires IsAfter(s1, sep, s2)
    ensures Denotes(Cat(Spaces(), Separator()), s1 + (sep + s2), map[])
  {
    SpacesIs(s1, map[]);
    if sep == "" {
      OptIs(Cat(Chr({',', '/'}), Spaces()), "", map[]);
      assert sep + s2 == "";
    } else {
      SeparatorIntro(sep, s2);
    }
    hide Denotes, Spaces, Separator;
    CatPlain(Spaces(), Separator(), s1, sep + s2);
  }

  lemma TailElim(s: string, e: Env)
    requires Denotes(Cat(Spaces(), Separator()), s, e)
    ensures In(s, TAIL) && e == map[]
  {
    hide Denotes, Spaces, Separator;
    var x, y, f, g := CatElim(Spaces(), Separator(), s, e);
    SpacesIs(x, f);
    SeparatorElim(y, g);
    NoGroups(f, g);
  }

  lemma RegroupFour(a: string, b: string, c: string, d: string)
    ensures (a + (b + c)) + d == a + (b + (c + d))
  {
  }

  lemma OptSepElim(k: nat, s: string, e: Env)
      returns (some: bool, num: string, sp: string, w: string, tail: string)
    requires k < 5 && Denotes(OptSep(QuantityRe(k)), s, e)
    ensures !some ==> s == [] && e == map[]
    ensures some ==> s == num + (sp + (w + tail)) && num != [] && In(num, NUMBER) && In(sp, SPACE) && Spells(k, w)
    ensures some ==> In(tail, TAIL) && e == map[Name(k) := num]
  {
    OptIs(Cat(QuantityRe(k), Cat(Spaces(), Separator())), s, e);
    hide Denotes, QuantityRe, Spaces, Separator, Spells, In, Name;
    some, num, sp, w, tail := false, "", "", "", "";
    if !(s == [] && e == map[]) {
      var x, f, g;
      x, tail, f, g := CatElim(QuantityRe(k), Cat(Spaces(), Separator()), s, e);
      num, sp, w := QuantityElim(k, x, f);
      TailElim(tail, g);
      NoGroups(g, f);
      some := true;
      RegroupFour(num, sp, w, tail);
    }
  }

  lemma OptSepIntro(k: nat, num: string, sp: string, w: string, s1: string, sep: string, s2: string)
    requires k < 5 && num != [] && In(num, NUMBER) && In(sp, SPACE) && Spells(k, w) && IsAfter(s1, sep, s2)
    ensures Denotes(OptSep(QuantityRe(k)), num + (sp + (w + (s1 + (sep + s2)))), map[Name(k) := num])
  {
    hide Denotes, QuantityRe, Spaces, Separator, Spells, In, Name, IsAfter;
    QuantityIntro(k, num, sp, w);
    TailIntro(s1, sep, s2);
    var x, tail, f := num + (sp + w), s1 + (sep + s2), map[Name(k) := num];
    CatIntro(QuantityRe(k), Cat(Spaces(), Separator()), x, tail, f, map[]);
    NoGroups(map[], f);
    RegroupFour(num, sp, w, tail);
    OptIs(Cat(QuantityRe(k), Cat(Spaces(), Separator())), x + tail, f);
  }

  // Clocks

  /** The seconds of a clock: two digits, and perhaps a point and more digits. */
  predicate SecsText(x: string) {
    && |x| >= 2 && x[0] in DIGITS && x[1] in DIGITS
    && (|x| == 2 || (|x| > 3 && x[2] == '.' && forall i :: 3 <= i < |x| ==> x[i] in DIGITS))
  }

  lemma FractionIs(s: string, e: Env)
    ensures Denotes(Fraction(), s, e)
       <==> (s == [] || (|s| > 1 && s[0] == '.' && In(s[1..], DIGITS))) && e == map[]
  {
    OptIs(Cat(Chr({'.'}), Digits(1, None)), s, e);
    if Denotes(Cat(Chr({'.'}), Digits(1, None)), s, e) {
      var x, y, f, g := CatElim(Chr({'.'}), Digits(1, None), s, e);
      assert x == ".";
      DigitsIs(1, None, y, g);
      NoGroups(f, g);
      assert s[1..] == y;
    }
    if |s| > 1 && s[0] == '.' && In(s[1..], DIGITS) {
      assert Denotes(Chr({'.'}), ".", map[]);
      DigitsIs(1, None, s[1..], map[]);
      CatPlain(Chr({'.'}), Digits(1, None), ".", s[1..]);
      assert s == "." + s[1..];
    }
  }

  lemma ClockSecsElim(x: string, e: Env)
    requires Denotes(ClockSecs(), x, e)
    ensures SecsText(x) && e == map["secs" := x]
  {
    hide Denotes, Digits, Fraction;
    var f := GroupElim("secs", Cat(Digits(2, Some(2)), Fraction()), x, e);
    var a, b, g, k := CatElim(Digits(2, Some(2)), Fraction(), x, f);
    DigitsIs(2, Some(2), a, g);
    FractionIs(b, k);
    assert x[0] == a[0] && x[1] == a[1];
    assert forall i :: 2 <= i < |x| ==> x[i] == b[i - 2];
    if b != [] {
      forall i | 3 <= i < |x| ensures x[i] in DIGITS {
        assert b[1..][i - 3] == x[i];
      }
    }
  }

  lemma ClockSecsIntro(x: string)
    requires SecsText(x)
    ensures Denotes(ClockSecs(), x, map["secs" := x])
  {
    var a, b := x[..2], x[2..];
    DigitsIs(2, Some(2), a, map[]);
    assert b != [] ==> forall i :: 0 <= i < |b[1..]| ==> b[1..][i] == x[i + 3];
    FractionIs(b, map[]);
    hide Denotes, Digits, Fraction;
    CatPlain(Digits(2, Some(2)), Fraction(), a, b);
    assert x == a + b;
    GroupIntro("secs", Cat(Digits(2, Some(2)), Fraction()), x, map[]);
  }

  /** Digits, a colon, and what follows. */
  function ColonField(name: string, lo: nat, hi: Option<nat>, rest: Re): Re {
    Cat(Group(name, Digits(lo, hi)), Cat(Colon(), rest))
  }

  lemma ClocksAre()
    ensures MinClock() == ColonField("mins", 1, Some(2), ClockSecs())
    ensures MinutePart() == ColonField("mins", 2, Some(2), ClockSecs())
    ensures HourClock() == ColonField("hours", 1, None, MinutePart())
    ensures DayClock() == ColonField("days", 1, None, ColonField("hours", 2, Some(2), MinutePart()))
  {
  }

  lemma ColonFieldElim(name: string, lo: nat, hi: Option<nat>, rest: Re, s: string, e: Env)
      returns (d: string, r: string, f: Env)
    requires Denotes(ColonField(name, lo, hi, rest), s, e)
    ensures s == d + (":" + r) && lo <= |d| && (hi.Some? ==> |d| <= hi.value) && In(d, DIGITS)
    ensures Denotes(rest, r, f) && e == map[name := d] + f
  {
    hide Denotes, Digits, Colon, In;
    var s', g, k;
    d, s', g, k := CatElim(Group(name, Digits(lo, hi)), Cat(Colon(), rest), s, e);
    var h := GroupElim(name, Digits(lo, hi), d, g);
    DigitsIs(lo, hi, d, h);
    var c, l;
    c, r, l, f := CatElim(Colon(), rest, s', k);
    ColonIs(c, l);
    NoGroups(l, f);
  }

  lemma ColonFieldIntro(name: string, lo: nat, hi: Option<nat>, rest: Re, d: string, r: string, f: Env)
    requires lo <= |d| && (hi.Some? ==> |d| <= hi.value) && In(d, DIGITS) && Denotes(rest, r, f)
    ensures Denotes(ColonField(name, lo, hi, rest), d + (":" + r), map[name := d] + f)
  {
    hide Denotes, Digits, Colon, In;
    DigitsIs(lo, hi, d, map[]);
    GroupIntro(name, Digits(lo, hi), d, map[]);
    ColonIs(":", map[]);
    CatIntro(Colon(), rest, ":", r, map[], f);
    NoGroups(map[], f);
    CatIntro(Group(name, Digits(lo, hi)), Cat(Colon(), rest), d, ":" + r, map[name := d], f);
  }

  lemma FormatElim(i: nat, s: string, e: Env) returns (a: string, x: string, b: string)
    requires i < 4 && Denotes(Format(i), s, e)
    ensures s == a + (x + b) && In(a, SPACE) && In(b, SPACE) && Denotes(Core(i), x, e)
  {
    hide Core, Spaces, Denotes, In;
    var y, f, g;
    a, y, f, g := CatElim(Spaces(), Cat(Core(i), Spaces()), s, e);
    var h, k;
    x, b, h, k := CatElim(Core(i), Spaces(), y, g);
    SpacesIs(a, f);
    SpacesIs(b, k);
    NoGroups(f, g);
    NoGroups(k, h);
  }

  lemma FormatIntro(i: nat, a: string, x: string, b: string, e: Env)
    requires i < 4 && In(a, SPACE) && In(b, SPACE) && Denotes(Core(i), x, e)
    ensures Denotes(Format(i), a + (x + b), e)
  {
    hide Core, Spaces, Denotes, In;
    SpacesIs(a, map[]);
    SpacesIs(b, map[]);
    CatIntro(Core(i), Spaces(), x, b, e, map[]);
    NoGroups(map[], e);
    CatIntro(Spaces(), Cat(Core(i), Spaces()), a, x + b, map[], e);
  }
}
