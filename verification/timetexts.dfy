/** What texts read as: for every text that is a list of quantities, a clock, or one in front of the other, whether it
  is read at all, and as how many seconds, without reference to the formats. Then the round trip through the printed
  form. */
module TimeTexts {
  import opened Records
  import opened ContextRows
  import opened TimeParse

  // ---------------------------------------------------------------------------------------------------------
  // Texts

  /** A number, spaces, a word, and what stands behind it. */
  datatype Part = Part(num: string, gap: string, word: string, s1: string, sep: string, s2: string)

  ghost predicate IsPart(p: Part) {
    && p.num != [] && In(p.num, NUMBER) && In(p.gap, SPACE) && p.word != [] && In(p.word, LETTERS)
    && IsAfter(p.s1, p.sep, p.s2)
  }

  ghost predicate AllParts(ps: seq<Part>) {
    forall i :: 0 <= i < |ps| ==> IsPart(ps[i])
  }

  function After(p: Part): string {
    p.s1 + (p.sep + p.s2)
  }

  /** The parts one after the other, and what follows them. */
  function Text(ps: seq<Part>, tail: string): string {
    if ps == [] then tail
    else ps[0].num + (ps[0].gap + (ps[0].word + (After(ps[0]) + Text(ps[1..], tail))))
  }

  /** A text may end in a clock: hours, minutes and seconds. */
  datatype End = NoClock | Clock(h: string, m: string, x: string)

  function EndText(t: End, b: string): string {
    match t
    case NoClock => b
    case Clock(h, m, x) => h + (":" + (m + (":" + (x + b))))
  }

  ghost predicate Loose(t: End) {
    t.Clock? ==> In(t.h, DIGITS) && In(t.m, DIGITS) && In(t.x, NUMBER)
  }

  /** Some hours, two digits of minutes, and two of seconds with or without a fraction. */
  predicate IsClock(t: End) {
    t.Clock? ==> t.h != [] && |t.m| == 2 && SecsText(t.x)
  }

  /** The unit a word stands for, from 0 for weeks to 4 for seconds; 5 for any other word. */
  ghost function UnitOf(w: string): (k: nat)
    ensures k <= 5 && (k < 5 ==> Spells(k, w)) && (k == 5 ==> forall j: nat :: j < 5 ==> !Spells(j, w))
  {
    if Spells(0, w) then 0
    else if Spells(1, w) then 1
    else if Spells(2, w) then 2
    else if Spells(3, w) then 3
    else if Spells(4, w) then 4
    else 5
  }

  /** The words stand for units from `k` on, each for a smaller one than the one before; in front of a clock for weeks
    and days only. No separator follows the seconds. */
  ghost predicate InOrder(ps: seq<Part>, k: nat, t: End) {
    ps != [] ==>
      var u := UnitOf(ps[0].word);
      && k <= u < (if t.NoClock? then 5 else 2) && (u == 4 ==> ps[0].sep == "") && InOrder(ps[1..], u + 1, t)
  }

  function EndFields(t: End): Env {
    match t
    case NoClock => map[]
    case Clock(h, m, x) => map["hours" := h] + (map["mins" := m] + map["secs" := x])
  }

  /** Every number belongs to the field of its unit. */
  ghost function Fields(ps: seq<Part>, t: End): Env {
    if ps == [] then EndFields(t) else map[Name(UnitOf(ps[0].word)) := ps[0].num] + Fields(ps[1..], t)
  }

  // ---------------------------------------------------------------------------------------------------------
  // The first and the third format, unit by unit

  function Top(t: End): (k: nat)
    ensures k <= 4
  {
    if t.NoClock? then 4 else 2
  }

  function EndRe(t: End): Re {
    if t.NoClock? then Opt(QuantityRe(4)) else HourClock()
  }

  /** What is left of a format from unit `k` on. */
  function Words(k: nat, t: End): Re
    requires k <= Top(t)
    decreases Top(t) - k
  {
    if k == Top(t) then EndRe(t) else Cat(OptSep(QuantityRe(k)), Cat(Spaces(), Words(k + 1, t)))
  }

  lemma CoreIs(t: End)
    ensures Core(if t.NoClock? then 0 else 2) == Words(0, t)
  {
    assert QuantityRe(0) == Weeks() && QuantityRe(1) == Days() && QuantityRe(2) == Hours();
    assert QuantityRe(3) == Mins() && QuantityRe(4) == Secs();
    hide QuantityRe, Weeks, Days, Hours, Mins, Secs, OptSep, Spaces, HourClock;
    if t.NoClock? {
      assert Words(4, t) == EndRe(t);
      assert Words(3, t) == Cat(OptSep(Mins()), Cat(Spaces(), Words(4, t)));
      assert Words(2, t) == Cat(OptSep(Hours()), Cat(Spaces(), Words(3, t)));
    } else {
      assert Words(2, t) == EndRe(t);
    }
    assert Words(1, t) == Cat(OptSep(Days()), Cat(Spaces(), Words(2, t)));
    assert Words(0, t) == Cat(OptSep(Weeks()), Cat(Spaces(), Words(1, t)));
  }

  // ---------------------------------------------------------------------------------------------------------
  // A match captures what the text says

  lemma TextStart(ps: seq<Part>, t: End, b: string)
    requires AllParts(ps) && Loose(t) && In(b, SPACE)
    ensures var s := Text(ps, EndText(t, b));
            && StartsOutside(s, LETTERS)
            && (ps != [] || t.Clock? ==> s != [] && StartsOutside(s, TAIL))
            && (ps == [] && t.NoClock? ==> In(s, TAIL))
            && (ps != [] ==> s[0] in NUMBER)
  {
    if ps != [] {
      assert IsPart(ps[0]);
      First(ps[0].num, NUMBER);
      assert Text(ps, EndText(t, b))[0] == ps[0].num[0];
    } else if t.Clock? {
      if t.h != [] {
        First(t.h, DIGITS);
        assert EndText(t, b)[0] == t.h[0];
      } else {
        assert EndText(t, b)[0] == ':';
      }
    } else if b != [] {
      First(b, SPACE);
    }
  }

  lemma EndStart(t: End, x: string, e: Env)
    requires Denotes(EndRe(t), x, e)
    ensures StartsOutside(x, LETTERS)
  {
    hide Denotes, QuantityRe, HourClock, MinutePart, Spells, In, ColonField;
    if t.NoClock? {
      OptIs(QuantityRe(4), x, e);
      if x != [] {
        var num, sp, w := QuantityElim(4, x, e);
        First(num, NUMBER);
        assert x[0] == num[0];
      }
    } else {
      ClocksAre();
      var h, r, f := ColonFieldElim("hours", 1, None, MinutePart(), x, e);
      First(h, DIGITS);
      assert x[0] == h[0];
    }
  }

  lemma {:induction false} WordsStart(k: nat, t: End, x: string, e: Env)
    requires k <= Top(t) && Denotes(Words(k, t), x, e)
    ensures StartsOutside(x, LETTERS)
    decreases Top(t) - k
  {
    hide Denotes, QuantityRe, EndRe, OptSep, Spaces, Spells, In;
    if k == Top(t) {
      EndStart(t, x, e);
    } else {
      var a, r, f, g := CatElim(OptSep(QuantityRe(k)), Cat(Spaces(), Words(k + 1, t)), x, e);
      var w, y, c, d := CatElim(Spaces(), Words(k + 1, t), r, g);
      SpacesIs(w, c);
      WordsStart(k + 1, t, y, d);
      var some, num, sp, word, tail := OptSepElim(k, a, f);
      if some {
        First(num, NUMBER);
        assert x[0] == num[0];
      } else {
        OutsideLetters(w);
        StartsEarlier(w, y, LETTERS);
        assert x == w + y;
      }
    }
  }

  lemma OutsideLetters(s: string)
    requires In(s, TAIL) || In(s, SPACE)
    ensures StartsOutside(s, LETTERS) && StartsOutside(s, NUMBER) && In(s, TAIL)
  {
  }

  lemma WordOutside(w: string)
    requires w != [] && In(w, LETTERS)
    ensures StartsOutside(w, SPACE) && StartsOutside(w, NUMBER) && w[0] in LETTERS
  {
  }

  lemma AfterIsTail(p: Part)
    requires IsAfter(p.s1, p.sep, p.s2)
    ensures In(After(p), TAIL)
  {
    assert In(p.s1, TAIL) && In(p.sep, TAIL) && In(p.s2, TAIL);
    InParts(p.sep, p.s2, TAIL);
    InParts(p.s1, p.sep + p.s2, TAIL);
  }

  /** Two quantities at the same place are the same. */
  lemma SameQuantity(num: string, sp: string, w: string, y: string, num': string, sp': string, w': string, y': string)
    requires num + (sp + (w + y)) == num' + (sp' + (w' + y'))
    requires In(num, NUMBER) && In(sp, SPACE) && w != [] && In(w, LETTERS) && StartsOutside(y, LETTERS)
    requires In(num', NUMBER) && In(sp', SPACE) && w' != [] && In(w', LETTERS) && StartsOutside(y', LETTERS)
    ensures num == num' && sp == sp' && w == w' && y == y'
  {
    WordOutside(w);
    WordOutside(w');
    OutsideLetters(sp);
    OutsideLetters(sp');
    hide In;
    StartsEarlier(w, y, NUMBER);
    StartsEarlier(w', y', NUMBER);
    StartsEarlier(sp, w + y, NUMBER);
    StartsEarlier(sp', w' + y', NUMBER);
    CutFront(num, sp + (w + y), num', sp' + (w' + y'), NUMBER);
    StartsEarlier(w, y, SPACE);
    StartsEarlier(w', y', SPACE);
    CutFront(sp, w + y, sp', w' + y', SPACE);
    CutFront(w, y, w', y', LETTERS);
  }

  lemma UnitStart(sp: string, w: string, y: string)
    requires In(sp, SPACE) && w != [] && In(w, LETTERS)
    ensures sp + (w + y) != [] && (sp + (w + y))[0] != ':' && StartsOutside(sp + (w + y), NUMBER)
  {
    WordOutside(w);
    if sp == [] {
      assert (sp + (w + y))[0] == w[0];
    } else {
      First(sp, SPACE);
      assert (sp + (w + y))[0] == sp[0];
    }
  }

  /** A quantity is not where a clock is. */
  lemma NoQuantityInClock(num: string, sp: string, w: string, y: string, h: string, r: string)
    requires In(num, NUMBER) && In(sp, SPACE) && w != [] && In(w, LETTERS) && In(h, DIGITS)
    ensures num + (sp + (w + y)) != h + (":" + r)
  {
    UnitStart(sp, w, y);
    assert In(h, NUMBER) && StartsOutside(":" + r, NUMBER);
    if num + (sp + (w + y)) == h + (":" + r) {
      CutFront(num, sp + (w + y), h, ":" + r, NUMBER);
    }
  }

  /** A match of a quantity is the next part of the text. */
  lemma QuantityThere(pre: string, num: string, sp: string, w: string, y: string, k: nat, post: string, ps: seq<Part>,
                      t: End, b: string)
    requires AllParts(ps) && Loose(t) && In(b, SPACE) && In(pre, TAIL) && In(post, TAIL)
    requires k < 5 && num != [] && In(num, NUMBER) && In(sp, SPACE) && Spells(k, w) && StartsOutside(y, LETTERS)
    requires pre + (num + (sp + (w + y))) == post + Text(ps, EndText(t, b))
    ensures ps != [] && ps[0].num == num && UnitOf(ps[0].word) == k
    ensures y == After(ps[0]) + Text(ps[1..], EndText(t, b))
  {
    var s := Text(ps, EndText(t, b));
    var mine := num + (sp + (w + y));
    TextStart(ps, t, b);
    SpellsStart(k, w);
    First(num, NUMBER);
    assert mine[0] == num[0];
    assert StartsOutside(mine, TAIL);
    if ps == [] && t.NoClock? {
      InParts(post, s, TAIL);
      InParts(pre, mine, TAIL);
      First(mine, TAIL);
    } else {
      hide In, Spells, UnitOf, Text;
      CutFront(pre, mine, post, s, TAIL);
      if ps == [] {
        ClockOnly(t, b);
        NoQuantityInClock(num, sp, w, y, t.h, t.m + (":" + (t.x + b)));
      } else {
        FirstPart(ps, t, b);
        SameQuantity(num, sp, w, y, ps[0].num, ps[0].gap, ps[0].word, After(ps[0]) + Text(ps[1..], EndText(t, b)));
        var u := UnitOf(w);
        SpellsOne(u, k, w);
      }
    }
  }

  lemma ClockOnly(t: End, b: string)
    requires t.Clock? && Loose(t)
    ensures Text([], EndText(t, b)) == t.h + (":" + (t.m + (":" + (t.x + b)))) && In(t.h, DIGITS)
  {
  }

  lemma FirstPart(ps: seq<Part>, t: End, b: string)
    requires ps != [] && AllParts(ps) && Loose(t) && In(b, SPACE)
    ensures AllParts(ps[1..])
    ensures var p, rest := ps[0], Text(ps[1..], EndText(t, b));
            && Text(ps, EndText(t, b)) == p.num + (p.gap + (p.word + (After(p) + rest)))
            && p.num != [] && In(p.num, NUMBER) && In(p.gap, SPACE) && p.word != [] && In(p.word, LETTERS)
            && In(After(p), TAIL) && StartsOutside(After(p) + rest, LETTERS)
  {
    var p, rest := ps[0], Text(ps[1..], EndText(t, b));
    assert IsPart(p);
    TextStart(ps[1..], t, b);
    AfterIsTail(p);
    OutsideLetters(After(p));
    StartsEarlier(After(p), rest, LETTERS);
  }

  /** Where the first format ends, after the minutes. */
  lemma SecondsEnd(pre: string, x: string, b: string, e: Env, post: string, ps: seq<Part>, b': string)
    requires Denotes(EndRe(NoClock), x, e) && In(pre, TAIL) && In(post, TAIL) && In(b, SPACE) && In(b', SPACE)
    requires AllParts(ps) && pre + (x + b) == post + Text(ps, EndText(NoClock, b'))
    ensures InOrder(ps, 4, NoClock) && e == Fields(ps, NoClock)
  {
    OptIs(QuantityRe(4), x, e);
    hide Denotes, QuantityRe, Spells;
    TextStart(ps, NoClock, b');
    OutsideLetters(b);
    if x == [] && e == map[] {
      assert x + b == b;
      InParts(pre, b, TAIL);
      InParts(post, Text(ps, EndText(NoClock, b')), TAIL);
      if ps != [] {
        First(Text(ps, EndText(NoClock, b')), TAIL);
      }
    } else {
      var num, sp, w := QuantityElim(4, x, e);
      RegroupFour(num, sp, w, b);
      QuantityThere(pre, num, sp, w, b, 4, post, ps, NoClock, b');
      NothingAfter(ps, b, b');
      assert InOrder(ps[1..], 5, NoClock);
    }
  }

  lemma NothingAfter(ps: seq<Part>, b: string, b': string)
    requires ps != [] && AllParts(ps) && In(b, SPACE) && In(b', SPACE)
    requires b == After(ps[0]) + Text(ps[1..], EndText(NoClock, b'))
    ensures ps[1..] == [] && ps[0].sep == ""
  {
    var p, rest := ps[0], Text(ps[1..], EndText(NoClock, b'));
    assert IsPart(p);
    assert forall i :: 0 <= i < |ps[1..]| ==> ps[1..][i] == ps[i + 1];
    TextStart(ps[1..], NoClock, b');
    InParts(After(p), rest, SPACE);
    InParts(p.s1, p.sep + p.s2, SPACE);
    InParts(p.sep, p.s2, SPACE);
    if ps[1..] != [] {
      First(rest, SPACE);
    }
    if p.sep != "" {
      First(p.sep, SPACE);
    }
  }

  lemma AfterColon(r: string, q: string)
    requires ":" + r == ":" + q
    ensures r == q
  {
    assert (":" + r)[1..] == r && (":" + q)[1..] == q;
  }

  lemma SameClock(h: string, m: string, x: string, b: string, h': string, m': string, x': string, b': string)
    requires h + (":" + (m + (":" + (x + b)))) == h' + (":" + (m' + (":" + (x' + b'))))
    requires In(h, DIGITS) && In(m, DIGITS) && In(x, NUMBER) && In(b, SPACE)
    requires In(h', DIGITS) && In(m', DIGITS) && In(x', NUMBER) && In(b', SPACE)
    ensures h == h' && m == m' && x == x' && b == b'
  {
    OutsideLetters(b);
    OutsideLetters(b');
    hide In;
    CutFront(h, ":" + (m + (":" + (x + b))), h', ":" + (m' + (":" + (x' + b'))), DIGITS);
    AfterColon(m + (":" + (x + b)), m' + (":" + (x' + b')));
    CutFront(m, ":" + (x + b), m', ":" + (x' + b'), DIGITS);
    AfterColon(x + b, x' + b');
    CutFront(x, b, x', b', NUMBER);
  }

  lemma SecsNumber(x: string)
    requires SecsText(x)
    ensures In(x, NUMBER)
  {
  }

  lemma ClockElim(x: string, e: Env) returns (h: string, m: string, y: string)
    requires Denotes(HourClock(), x, e)
    ensures x == h + (":" + (m + (":" + y))) && h != [] && In(h, DIGITS) && |m| == 2 && In(m, DIGITS) && SecsText(y)
    ensures e == map["hours" := h] + (map["mins" := m] + map["secs" := y])
  {
    ClocksAre();
    hide Denotes, HourClock, MinutePart, ClockSecs, ColonField;
    var r, f, g;
    h, r, f := ColonFieldElim("hours", 1, None, MinutePart(), x, e);
    m, y, g := ColonFieldElim("mins", 2, Some(2), ClockSecs(), r, f);
    ClockSecsElim(y, g);
  }

  /** Where the third format ends, after the days. */
  lemma ClockEnd(t: End, pre: string, x: string, b: string, e: Env, post: string, ps: seq<Part>, b': string)
    requires t.Clock? && Loose(t) && Denotes(EndRe(t), x, e)
    requires In(pre, TAIL) && In(post, TAIL) && In(b, SPACE) && In(b', SPACE)
    requires AllParts(ps) && pre + (x + b) == post + Text(ps, EndText(t, b'))
    ensures InOrder(ps, 2, t) && IsClock(t) && e == Fields(ps, t)
  {
    hide *;
    var h, m, y := ClockThere(t, x, e, b);
    var s := Text(ps, EndText(t, b'));
    TextStart(ps, t, b');
    CutFront(pre, x + b, post, s, TAIL);
    if ps == [] {
      ClockOnly(t, b');
      ClockFields(t);
      SecsNumber(y);
      SameClock(h, m, y, b, t.h, t.m, t.x, b');
    } else {
      FirstPart(ps, t, b');
      var p := ps[0];
      NoQuantityInClock(p.num, p.gap, p.word, After(p) + Text(ps[1..], EndText(t, b')), h, m + (":" + (y + b)));
    }
  }

  lemma ClockThere(t: End, x: string, e: Env, b: string) returns (h: string, m: string, y: string)
    requires t.Clock? && Denotes(EndRe(t), x, e)
    ensures x + b == h + (":" + (m + (":" + (y + b)))) && h != [] && |m| == 2 && SecsText(y)
    ensures In(h, DIGITS) && In(m, DIGITS) && StartsOutside(x + b, TAIL)
    ensures e == map["hours" := h] + (map["mins" := m] + map["secs" := y])
  {
    hide Denotes, HourClock, SecsText;
    h, m, y := ClockElim(x, e);
    First(h, DIGITS);
    assert (x + b)[0] == h[0];
    hide In;
    ThreeParts(m, y, b);
    ThreeParts(h, m + (":" + y), b);
  }

  lemma ClockFields(t: End)
    requires t.Clock?
    ensures Fields([], t) == map["hours" := t.h] + (map["mins" := t.m] + map["secs" := t.x])
    ensures InOrder([], 2, t) && (IsClock(t) <==> t.h != [] && |t.m| == 2 && SecsText(t.x))
    ensures Loose(t) <==> In(t.h, DIGITS) && In(t.m, DIGITS) && In(t.x, NUMBER)
  {
    hide SecsText, In;
  }

  /** A match from unit `k` on, in its parts. */
  lemma WordsParts(k: nat, t: End, x: string, e: Env)
      returns (a: string, f: Env, w: string, y: string, d: Env)
    requires k < Top(t) && Denotes(Words(k, t), x, e)
    ensures x == a + (w + y) && In(w, SPACE) && e == f + d
    ensures Denotes(OptSep(QuantityRe(k)), a, f) && Denotes(Words(k + 1, t), y, d)
  {
    hide Denotes, QuantityRe, EndRe, OptSep, Spaces, In;
    var r, g, c;
    a, r, f, g := CatElim(OptSep(QuantityRe(k)), Cat(Spaces(), Words(k + 1, t)), x, e);
    w, y, c, d := CatElim(Spaces(), Words(k + 1, t), r, g);
    SpacesIs(w, c);
    NoGroups(c, d);
  }

  lemma TakePart(k: nat, t: End, ps: seq<Part>, num: string, f: Env, d: Env)
    requires ps != [] && ps[0].num == num && UnitOf(ps[0].word) == k < Top(t) && f == map[Name(k) := num]
    requires InOrder(ps[1..], k + 1, t) && d == Fields(ps[1..], t)
    ensures InOrder(ps, k, t) && f + d == Fields(ps, t)
  {
    hide UnitOf, Name;
  }

  lemma SkipUnit(k: nat, t: End, ps: seq<Part>)
    requires InOrder(ps, k + 1, t)
    ensures InOrder(ps, k, t)
  {
    hide UnitOf;
  }

  lemma MoveSpaces(pre: string, w: string, y: string, b: string)
    ensures (pre + w) + (y + b) == pre + (([] + (w + y)) + b)
  {
    assert [] + (w + y) == w + y;
  }

  /** However what is left of a format matches what is left of a text, it captures what the text says. */
  lemma {:induction false} WordsElim(k: nat, t: End, pre: string, x: string, b: string, e: Env, post: string,
                          ps: seq<Part>, b': string)
    requires k <= Top(t) && Denotes(Words(k, t), x, e) && Loose(t)
    requires In(pre, TAIL) && In(post, TAIL) && In(b, SPACE) && In(b', SPACE)
    requires AllParts(ps) && pre + (x + b) == post + Text(ps, EndText(t, b'))
    ensures InOrder(ps, k, t) && IsClock(t) && e == Fields(ps, t)
    decreases Top(t) - k
  {
    LastWords(k, t);
    hide *;
    if k == Top(t) {
      if t.NoClock? {
        SecondsEnd(pre, x, b, e, post, ps, b');
      } else {
        ClockEnd(t, pre, x, b, e, post, ps, b');
      }
    } else {
      var a, f, w, y, d := WordsParts(k, t, x, e);
      OutsideLetters(w);
      var some, num, sp, word, tail := OptSepElim(k, a, f);
      if some {
        WordsStart(k + 1, t, y, d);
        PastQuantity(pre, num, sp, word, tail, w, y, b, k, post, ps, t, b');
        InParts(tail, w, TAIL);
        WordsElim(k + 1, t, tail + w, y, b, d, After(ps[0]), ps[1..], b');
        TakePart(k, t, ps, num, f, d);
      } else {
        NoGroups(f, d);
        InParts(pre, w, TAIL);
        MoveSpaces(pre, w, y, b);
        WordsElim(k + 1, t, pre + w, y, b, d, post, ps, b');
        SkipUnit(k, t, ps);
      }
    }
  }

  lemma LastWords(k: nat, t: End)
    requires k <= Top(t)
    ensures k == Top(t) ==> Words(k, t) == EndRe(t) && (t.NoClock? ==> k == 4) && (t.Clock? ==> k == 2)
    ensures t.NoClock? ==> t == NoClock
  {
    hide EndRe, QuantityRe, OptSep;
  }

  lemma PastQuantity(pre: string, num: string, sp: string, word: string, tail: string, w: string, y: string, b: string,
                     k: nat, post: string, ps: seq<Part>, t: End, b': string)
    requires AllParts(ps) && Loose(t) && In(b, SPACE) && In(b', SPACE) && In(pre, TAIL) && In(post, TAIL)
    requires k < 5 && num != [] && In(num, NUMBER) && In(sp, SPACE) && Spells(k, word) && In(tail, TAIL) && In(w, SPACE)
    requires StartsOutside(y, LETTERS)
    requires pre + (((num + (sp + (word + tail))) + (w + y)) + b) == post + Text(ps, EndText(t, b'))
    ensures ps != [] && ps[0].num == num && UnitOf(ps[0].word) == k && AllParts(ps[1..]) && In(After(ps[0]), TAIL)
    ensures (tail + w) + (y + b) == After(ps[0]) + Text(ps[1..], EndText(t, b'))
  {
    hide *;
    var rest := tail + (w + (y + b));
    RegroupSix(num, sp, word, tail, w, y, b);
    OutsideLetters(tail);
    OutsideLetters(w);
    OutsideLetters(b);
    StartsEarlier(y, b, LETTERS);
    StartsEarlier(w, y + b, LETTERS);
    StartsEarlier(tail, w + (y + b), LETTERS);
    QuantityThere(pre, num, sp, word, rest, k, post, ps, t, b');
    FirstPart(ps, t, b');
    Regroup(tail, w, y, b);
  }

  lemma Regroup(tail: string, w: string, y: string, b: string)
    ensures (tail + w) + (y + b) == tail + (w + (y + b))
  {
  }

  lemma RegroupSix(num: string, sp: string, word: string, tail: string, w: string, y: string, b: string)
    ensures ((num + (sp + (word + tail))) + (w + y)) + b == num + (sp + (word + (tail + (w + (y + b)))))
  {
  }

  // ---------------------------------------------------------------------------------------------------------
  // What the text says is a match

  lemma ClockIntro(h: string, m: string, y: string)
    requires h != [] && In(h, DIGITS) && |m| == 2 && In(m, DIGITS) && SecsText(y)
    ensures Denotes(HourClock(), h + (":" + (m + (":" + y))),
                    map["hours" := h] + (map["mins" := m] + map["secs" := y]))
  {
    ClocksAre();
    hide Denotes, HourClock, MinutePart, ClockSecs, ColonField;
    ClockSecsIntro(y);
    ColonFieldIntro("mins", 2, Some(2), ClockSecs(), m, y, map["secs" := y]);
    ColonFieldIntro("hours", 1, None, MinutePart(), h, m + (":" + y), map["mins" := m] + map["secs" := y]);
  }

  lemma EndIntro(t: End, ps: seq<Part>, b: string) returns (x: string, y: string)
    requires AllParts(ps) && Loose(t) && InOrder(ps, Top(t), t) && IsClock(t) && In(b, SPACE)
    ensures Text(ps, EndText(t, b)) == x + y && In(y, SPACE) && Denotes(EndRe(t), x, Fields(ps, t))
  {
    hide Denotes, QuantityRe, HourClock, Spells;
    if t.Clock? {
      x, y := t.h + (":" + (t.m + (":" + t.x))), b;
      ClockIntro(t.h, t.m, t.x);
      assert EndText(t, b) == x + y;
    } else if ps == [] {
      x, y := "", b;
      OptIs(QuantityRe(4), "", map[]);
    } else {
      var p := ps[0];
      assert IsPart(p) && ps[1..] == [];
      x, y := p.num + (p.gap + p.word), After(p) + b;
      QuantityIntro(4, p.num, p.gap, p.word);
      OptIs(QuantityRe(4), x, map[Name(4) := p.num]);
      NoGroups(map[], map[Name(4) := p.num]);
      RegroupFour(p.num, p.gap, p.word, y);
      assert After(p) == p.s1;
      InParts(p.s1, b, SPACE);
    }
  }

  lemma {:induction false} WordsIntro(k: nat, t: End, ps: seq<Part>, b: string) returns (x: string, y: string)
    requires k <= Top(t) && AllParts(ps) && Loose(t) && InOrder(ps, k, t) && IsClock(t) && In(b, SPACE)
    ensures Text(ps, EndText(t, b)) == x + y && In(y, SPACE) && Denotes(Words(k, t), x, Fields(ps, t))
    decreases Top(t) - k
  {
    hide Denotes, QuantityRe, EndRe, OptSep, Spaces, Spells, In, EndText, Loose, IsPart, IsAfter, UnitOf;
    if k == Top(t) {
      x, y := EndIntro(t, ps, b);
    } else if ps != [] && UnitOf(ps[0].word) == k {
      var z;
      z, y := WordsIntro(k + 1, t, ps[1..], b);
      x := PartIntro(k, t, ps, b, z, y);
    } else {
      var z;
      z, y := WordsIntro(k + 1, t, ps, b);
      x := z;
      SkipIntro(k, t, z, Fields(ps, t));
    }
  }

  lemma SkipIntro(k: nat, t: End, z: string, e: Env)
    requires k < Top(t) && Denotes(Words(k + 1, t), z, e)
    ensures Denotes(Words(k, t), z, e)
  {
    OptIs(Cat(QuantityRe(k), Cat(Spaces(), Separator())), "", map[]);
    SpacesIs("", map[]);
    hide Denotes, QuantityRe, OptSep, Spaces;
    CatIntro(Spaces(), Words(k + 1, t), "", z, map[], e);
    NoGroups(map[], e);
    assert "" + z == z;
    CatIntro(OptSep(QuantityRe(k)), Cat(Spaces(), Words(k + 1, t)), "", z, map[], e);
  }

  lemma PartIntro(k: nat, t: End, ps: seq<Part>, b: string, z: string, y: string) returns (x: string)
    requires k < Top(t) && ps != [] && AllParts(ps) && UnitOf(ps[0].word) == k
    requires Denotes(Words(k + 1, t), z, Fields(ps[1..], t)) && Text(ps[1..], EndText(t, b)) == z + y
    ensures Text(ps, EndText(t, b)) == x + y && Denotes(Words(k, t), x, Fields(ps, t))
  {
    var p, f := ps[0], Fields(ps[1..], t);
    assert IsPart(p);
    SpacesIs("", map[]);
    OptSepIntro(k, p.num, p.gap, p.word, p.s1, p.sep, p.s2);
    hide Denotes, QuantityRe, OptSep, Spaces, Spells, UnitOf, Name, In;
    CatIntro(Spaces(), Words(k + 1, t), "", z, map[], f);
    NoGroups(map[], f);
    assert "" + z == z;
    var q := p.num + (p.gap + (p.word + After(p)));
    CatIntro(OptSep(QuantityRe(k)), Cat(Spaces(), Words(k + 1, t)), q, z, map[Name(k) := p.num], f);
    x := q + z;
    RegroupFive(p.num, p.gap, p.word, After(p), z, y);
  }

  lemma RegroupFive(num: string, sp: string, w: string, a: string, z: string, y: string)
    ensures ((num + (sp + (w + a))) + z) + y == num + (sp + (w + (a + (z + y))))
  {
  }

  // ---------------------------------------------------------------------------------------------------------
  // Which texts read as what

  lemma NoColonIn(s: string, cs: set<char>)
    requires In(s, cs) && ':' !in cs
    ensures CountColons(s) == 0
  {
    NoColons(s);
  }

  lemma EndColons(t: End, b: string)
    requires Loose(t) && In(b, SPACE)
    ensures CountColons(EndText(t, b)) == if t.NoClock? then 0 else 2
  {
    NoColonIn(b, SPACE);
    if t.Clock? {
      NoColonIn(t.h, DIGITS);
      NoColonIn(t.m, DIGITS);
      NoColonIn(t.x, NUMBER);
      var y := t.x + b;
      CountColonsConcat(t.x, b);
      CountColonsConcat(":", y);
      CountColonsConcat(t.m, ":" + y);
      CountColonsConcat(":", t.m + (":" + y));
      CountColonsConcat(t.h, ":" + (t.m + (":" + y)));
      assert CountColons(":") == 1;
      hide CountColons;
    }
  }

  lemma {:induction false} TextColons(ps: seq<Part>, tail: string)
    requires AllParts(ps)
    ensures CountColons(Text(ps, tail)) == CountColons(tail)
  {
    if ps != [] {
      var p, rest := ps[0], Text(ps[1..], tail);
      assert IsPart(p);
      TextColons(ps[1..], tail);
      AfterIsTail(p);
      NoColonIn(p.num, NUMBER);
      NoColonIn(p.gap, SPACE);
      NoColonIn(p.word, LETTERS);
      NoColonIn(After(p), TAIL);
      hide CountColons, In;
      CountColonsConcat(After(p), rest);
      CountColonsConcat(p.word, After(p) + rest);
      CountColonsConcat(p.gap, p.word + (After(p) + rest));
      CountColonsConcat(p.num, p.gap + (p.word + (After(p) + rest)));
    }
  }

  /** The colons of a text tell which format can read it. */
  lemma OneFormat(s: string, n: nat)
    requires CountColons(s) < 4 && !Blank(s)
    ensures Reads(s, n) <==> exists e: Env :: Denotes(Format(CountColons(s)), s, e) && ComesTo(e, n)
  {
    var c := CountColons(s);
    forall i: nat, e: Env | i < 4 && Denotes(Format(i), s, e) ensures i == c {
      FormatColons(i);
      ColonsExact(Format(i), s, e);
    }
    hide Denotes, Format, ComesTo, Blank, CountColons;
    if e: Env :| Denotes(Format(c), s, e) && ComesTo(e, n) {
      assert ReadsBy(s, c, e, n);
    }
    if Reads(s, n) {
      var i: nat, e: Env :| ReadsBy(s, i, e, n);
      assert i == c;
    }
  }

  lemma NotBlank(a: string, ps: seq<Part>, t: End, b: string)
    requires AllParts(ps) && (ps != [] || t.Clock?)
    ensures !Blank(a + Text(ps, EndText(t, b)))
  {
    var s := Text(ps, EndText(t, b));
    if ps != [] {
      assert IsPart(ps[0]);
      First(ps[0].num, NUMBER);
      assert (a + s)[|a|] == ps[0].num[0];
    } else {
      assert (a + s)[|a| + |t.h|] == ':';
    }
  }

  lemma TextFormat(a: string, ps: seq<Part>, t: End, b: string, n: nat)
    requires In(a, SPACE) && In(b, SPACE) && AllParts(ps) && Loose(t) && (ps != [] || t.Clock?)
    ensures var s, i := a + Text(ps, EndText(t, b)), if t.NoClock? then 0 else 2;
            Reads(s, n) <==> exists e: Env :: Denotes(Format(i), s, e) && ComesTo(e, n)
  {
    NotBlank(a, ps, t, b);
    NoColonIn(a, SPACE);
    CountColonsConcat(a, Text(ps, EndText(t, b)));
    TextColons(ps, EndText(t, b));
    EndColons(t, b);
    hide *;
    OneFormat(a + Text(ps, EndText(t, b)), n);
  }

  /** A text of quantities, with or without a clock at its end, is read if and only if its words stand for smaller and
    smaller units and the clock has two digits of minutes and of seconds; and it reads as what its numbers come to. */
  lemma TextReads(a: string, ps: seq<Part>, t: End, b: string, n: nat)
    requires In(a, SPACE) && In(b, SPACE) && AllParts(ps) && Loose(t) && (ps != [] || t.Clock?)
    ensures Reads(a + Text(ps, EndText(t, b)), n) <==> InOrder(ps, 0, t) && IsClock(t) && ComesTo(Fields(ps, t), n)
  {
    TextFormat(a, ps, t, b, n);
    hide *;
    if InOrder(ps, 0, t) && IsClock(t) {
      TextMatches(a, ps, t, b);
    }
    var s, i := a + Text(ps, EndText(t, b)), if t.NoClock? then 0 else 2;
    if e: Env :| Denotes(Format(i), s, e) && ComesTo(e, n) {
      MatchCaptures(a, ps, t, b, e);
    }
  }

  lemma TextMatches(a: string, ps: seq<Part>, t: End, b: string)
    requires In(a, SPACE) && In(b, SPACE) && AllParts(ps) && Loose(t) && InOrder(ps, 0, t) && IsClock(t)
    ensures Denotes(Format(if t.NoClock? then 0 else 2), a + Text(ps, EndText(t, b)), Fields(ps, t))
  {
    CoreIs(t);
    hide Denotes, Format, Core, Words, Text, EndText, Loose, IsClock, In, InOrder, Fields;
    var x, y := WordsIntro(0, t, ps, b);
    FormatIntro(if t.NoClock? then 0 else 2, a, x, y, Fields(ps, t));
  }

  lemma MatchCaptures(a: string, ps: seq<Part>, t: End, b: string, e: Env)
    requires In(a, SPACE) && In(b, SPACE) && AllParts(ps) && Loose(t)
    requires Denotes(Format(if t.NoClock? then 0 else 2), a + Text(ps, EndText(t, b)), e)
    ensures InOrder(ps, 0, t) && IsClock(t) && e == Fields(ps, t)
  {
    CoreIs(t);
    hide Denotes, Format, Core, Words, Text, EndText, Loose, IsClock, In, InOrder, Fields;
    var a', x, b' := FormatElim(if t.NoClock? then 0 else 2, a + Text(ps, EndText(t, b)), e);
    OutsideLetters(a);
    OutsideLetters(a');
    WordsElim(0, t, a', x, b', e, a, ps, b);
  }

  // ---------------------------------------------------------------------------------------------------------
  // Whole numbers

  /** The seconds in a week, a day, an hour, a minute and a second. */
  const WORTH: seq<nat> := [604800, 86400, 3600, 60, 1]

  ghost predicate WholeParts(ps: seq<Part>) {
    forall i :: 0 <= i < |ps| ==> AllDigits(ps[i].num)
  }

  predicate WholeEnd(t: End) {
    t.Clock? ==> AllDigits(t.h) && AllDigits(t.m) && AllDigits(t.x)
  }

  /** What the quantities come to. */
  ghost function Value(ps: seq<Part>): nat
    requires WholeParts(ps)
  {
    if ps == [] then 0
    else
      var u := UnitOf(ps[0].word);
      (if u < 5 then WORTH[u] * ParseDigits(ps[0].num) else 0) + Value(ps[1..])
  }

  function EndValue(t: End): nat
    requires WholeEnd(t)
  {
    match t
    case NoClock => 0
    case Clock(h, m, x) => 3600 * ParseDigits(h) + 60 * ParseDigits(m) + ParseDigits(x)
  }

  lemma FieldAdded(k: nat, v: string, f: Env, j: nat)
    requires k < 5 && j < 5 && AllDigits(v) && Whole(f) && Name(k) !in f
    ensures var e := map[Name(k) := v] + f;
            Whole(e) && Field(e, Name(j)) == Field(f, Name(j)) + if j == k then WORTH[k] * ParseDigits(v) else 0
  {
    assert Name(j) == Name(k) ==> j == k;
    hide AllDigits, ParseDigits;
  }

  lemma TotalIs(f: Env)
    requires Whole(f)
    ensures Total(f)
         == Field(f, Name(0)) + Field(f, Name(1)) + Field(f, Name(2)) + Field(f, Name(3)) + Field(f, Name(4))
  {
    hide Field, Whole;
  }

  lemma OneMoreField(k: nat, v: string, f: Env)
    requires k < 5 && AllDigits(v) && Whole(f) && Name(k) !in f
    ensures var e := map[Name(k) := v] + f; Whole(e) && Total(e) == WORTH[k] * ParseDigits(v) + Total(f)
  {
    WorthSize();
    hide *;
    FieldAdded(k, v, f, 0);
    FieldAdded(k, v, f, 1);
    FieldAdded(k, v, f, 2);
    FieldAdded(k, v, f, 3);
    FieldAdded(k, v, f, 4);
    TotalIs(f);
    TotalIs(map[Name(k) := v] + f);
  }

  lemma EndTotal(t: End)
    requires WholeEnd(t)
    ensures Whole(EndFields(t)) && Total(EndFields(t)) == EndValue(t)
    ensures forall j: nat :: j < 5 && Name(j) in EndFields(t) ==> t.Clock? && j >= 2
  {
    if t.Clock? {
      var s: Env := map[];
      assert Name(2) == "hours" && Name(3) == "mins" && Name(4) == "secs";
      NoGroups(s, map["secs" := t.x]);
      hide ParseDigits, AllDigits;
      OneMoreField(4, t.x, s);
      OneMoreField(3, t.m, map["secs" := t.x]);
      OneMoreField(2, t.h, map["mins" := t.m] + map["secs" := t.x]);
    }
  }

  lemma {:induction false} FieldsTotal(ps: seq<Part>, k: nat, t: End)
    requires WholeParts(ps) && WholeEnd(t) && InOrder(ps, k, t)
    ensures Whole(Fields(ps, t)) && Total(Fields(ps, t)) == Value(ps) + EndValue(t)
    ensures forall j: nat :: j < 5 && Name(j) in Fields(ps, t) ==> j >= k || (t.Clock? && j >= 2)
  {
    hide Total, Whole, ParseDigits, AllDigits;
    if ps == [] {
      EndTotal(t);
    } else {
      var u := UnitOf(ps[0].word);
      FieldsTotal(ps[1..], u + 1, t);
      OneMoreField(u, ps[0].num, Fields(ps[1..], t));
      forall j: nat | j < 5 && Name(j) in Fields(ps, t) ensures j >= k || (t.Clock? && j >= 2) {
        assert Name(j) == Name(u) ==> j == u;
      }
    }
  }

  lemma DigitsAre(s: string)
    ensures AllDigits(s) <==> s != [] && In(s, DIGITS)
    ensures In(s, DIGITS) ==> In(s, NUMBER)
  {
  }

  /** A text of whole quantities, with or without a clock, reads as the sum of what its quantities and its clock are
    worth, and as nothing else; if the units do not grow smaller it is not read at all. */
  lemma WholeTexts(a: string, ps: seq<Part>, t: End, b: string, n: nat)
    requires In(a, SPACE) && In(b, SPACE) && AllParts(ps) && WholeParts(ps) && WholeEnd(t) && (ps != [] || t.Clock?)
    ensures Reads(a + Text(ps, EndText(t, b)), n)
       <==> && InOrder(ps, 0, t) && (t.Clock? ==> |t.m| == 2 && |t.x| == 2) && n == Value(ps) + EndValue(t)
  {
    if t.Clock? {
      DigitsAre(t.h);
      DigitsAre(t.m);
      DigitsAre(t.x);
      assert |t.x| > 2 && SecsText(t.x) ==> !IsDigit(t.x[2]);
    }
    TextReads(a, ps, t, b, n);
    if InOrder(ps, 0, t) {
      FieldsTotal(ps, 0, t);
    }
    hide Reads, Text, EndText, Fields, Value, EndValue, Total, Whole, UnitOf, InOrder, AllParts;
  }

  // ---------------------------------------------------------------------------------------------------------
  // One quantity

  lemma UnitIsLiteral(w: string, k: nat)
    requires k < 5
    ensures UnitOf(w) == k <==> Spells(k, w)
  {
    if Spells(k, w) {
      SpellsOne(UnitOf(w), k, w);
    }
  }

  /** A number and a word are read if and only if the word is one of the words for a unit, in any case; they read as the
    number times what the unit is worth. */
  lemma UnitReads(num: string, gap: string, word: string, n: nat)
    requires AllDigits(num) && In(gap, SPACE) && word != [] && In(word, LETTERS)
    ensures Reads(num + (gap + word), n)
       <==> || (Spells(0, word) && n == 604800 * ParseDigits(num))
            || (Spells(1, word) && n == 86400 * ParseDigits(num))
            || (Spells(2, word) && n == 3600 * ParseDigits(num))
            || (Spells(3, word) && n == 60 * ParseDigits(num))
            || (Spells(4, word) && n == ParseDigits(num))
  {
    var p := Part(num, gap, word, "", "", "");
    DigitsAre(num);
    assert IsPart(p);
    OneText(p, num + (gap + word));
    OneValue(p);
    hide *;
    WholeTexts("", [p], NoClock, "", n);
    UnitWords(word);
  }

  lemma OneText(p: Part, s: string)
    requires p.s1 == p.sep == p.s2 == "" && s == p.num + (p.gap + p.word)
    ensures "" + Text([p], EndText(NoClock, "")) == s
  {
    assert [p][1..] == [];
    assert p.word + (After(p) + "") == p.word;
  }

  lemma OneValue(p: Part)
    requires AllDigits(p.num) && p.sep == ""
    ensures var u := UnitOf(p.word);
            && (IsPart(p) ==> AllParts([p])) && WholeParts([p]) && WholeEnd(NoClock) && EndValue(NoClock) == 0
            && (InOrder([p], 0, NoClock) <==> u < 5)
            && (u == 0 ==> Value([p]) == 604800 * ParseDigits(p.num))
            && (u == 1 ==> Value([p]) == 86400 * ParseDigits(p.num))
            && (u == 2 ==> Value([p]) == 3600 * ParseDigits(p.num))
            && (u == 3 ==> Value([p]) == 60 * ParseDigits(p.num))
            && (u == 4 ==> Value([p]) == ParseDigits(p.num))
  {
    assert [p][1..] == [];
    assert Value([]) == 0;
    assert InOrder([], UnitOf(p.word) + 1, NoClock);
    hide UnitOf, ParseDigits, IsPart;
  }

  // ---------------------------------------------------------------------------------------------------------
  // Fractions

  lemma {:induction false} DotAt(a: string, b: string)
    requires OnlyDigits(a)
    ensures Dot(a + ("." + b)) == |a|
  {
    if a == [] {
      assert a + ("." + b) == "." + b;
    } else {
      assert (a + ("." + b))[1..] == a[1..] + ("." + b);
      assert (a + ("." + b))[0] == a[0];
      DotAt(a[1..], b);
    }
  }

  lemma FloatOf(a: string, b: string)
    requires OnlyDigits(a) && OnlyDigits(b) && a + b != ""
    ensures ParseFloat(a + ("." + b)) == Some(Pointed(a, b))
  {
    var v := a + ("." + b);
    DotAt(a, b);
    assert v[..|a|] == a && v[|a| + 1..] == b;
    hide Dot, Pointed, OnlyDigits;
  }

  /** `z` is `value` by `t`. */
  ghost predicate IsShare(z: real, value: nat, t: nat) {
    t > 0 && z * t as real == value as real
  }

  lemma Unscale(x: nat, y: nat, t: nat)
    requires t > 0
    ensures IsShare(x as real + y as real / t as real, x * t + y, t)
  {
    assert (x * t) as real == x as real * t as real;
    assert y as real / t as real * t as real == y as real;
  }

  lemma PointedIs(a: string, b: string)
    requires OnlyDigits(a) && OnlyDigits(b)
    ensures IsShare(Pointed(a, b), ParseDigits(a) * TenTo(|b|) + ParseDigits(b), TenTo(|b|))
  {
    Unscale(ParseDigits(a), ParseDigits(b), TenTo(|b|));
    hide ParseDigits, TenTo, IsShare;
  }

  /** Cut down to a whole number. */
  function CutDown(n: nat, t: nat): nat
    requires t > 0
  {
    n / t
  }

  function Times(w: nat, z: real): real {
    w as real * z
  }

  /** What a number with a point comes to, times a whole number. */
  lemma Cuts(w: nat, z: real, value: nat, t: nat)
    requires IsShare(z, value, t)
    ensures Times(w, z).Floor == CutDown(w * value, t)
  {
    var n := w * value;
    assert n as real == w as real * value as real;
    assert (w as real * z) * t as real == n as real;
    var q, r := n / t, n % t;
    assert n == q * t + r;
    assert n as real == q as real * t as real + r as real;
    assert (w as real * z - q as real) * t as real == r as real;
    Within(w as real * z - q as real, r, t);
  }

  lemma Within(d: real, r: nat, t: nat)
    requires t > 0 && r < t && d * t as real == r as real
    ensures 0.0 <= d < 1.0
  {
  }

  lemma Exactly(z: real, value: nat, t: nat, n: nat)
    requires IsShare(z, value, t)
    ensures z == n as real <==> n * t == value
  {
    assert (n * t) as real == n as real * t as real;
    if n * t == value {
      assert (z - n as real) * t as real == 0.0;
    }
  }

  lemma FieldFloat(k: nat, v: string, j: nat)
    requires k < 5 && j < 5 && ParseFloat(v).Some?
    ensures FloatField(map[Name(k) := v], Name(j))
         == Some(if j == k then Times(WORTH[k], ParseFloat(v).value) else 0.0)
  {
    NamesApart(j, k);
    hide ParseFloat;
  }

  lemma FloatComes(k: nat, num: string, z: real, n: nat)
    requires k < 5 && !AllDigits(num) && ParseFloat(num) == Some(z)
    ensures ComesTo(map[Name(k) := num], n)
       <==> if k < 4 then Times(WORTH[k], z).Floor == n else z == n as real
  {
    var e: Env := map[Name(k) := num];
    FieldFloat(k, num, 0);
    FieldFloat(k, num, 1);
    FieldFloat(k, num, 2);
    FieldFloat(k, num, 3);
    FieldFloat(k, num, 4);
    assert Name(k) in e && !Whole(e);
    assert Times(WORTH[4], z) == z;
    assert "secs" in e <==> k == 4;
    hide ParseFloat, AllDigits, FloatField, Whole, Times, WORTH;
  }

  lemma FractionComes(k: nat, num: string, z: real, value: nat, t: nat, n: nat)
    requires k < 5 && !AllDigits(num) && ParseFloat(num) == Some(z) && IsShare(z, value, t)
    ensures t > 0
    ensures ComesTo(map[Name(k) := num], n)
       <==> if k < 4 then n == CutDown(WORTH[k] * value, t) else n * t == value
  {
    assert t > 0;
    hide *;
    FloatComes(k, num, z, n);
    Cuts(WORTH[k], z, value, t);
    Exactly(z, value, t, n);
  }

  lemma NotWhole(a: string, b: string)
    ensures !AllDigits(a + ("." + b))
  {
    assert (a + ("." + b))[|a|] == '.';
  }

  lemma PointPart(a: string, b: string, p: Part)
    requires OnlyDigits(a) && OnlyDigits(b) && p.num == a + ("." + b) && In(p.gap, SPACE)
    requires p.word != [] && In(p.word, LETTERS) && p.s1 == p.sep == p.s2 == ""
    ensures IsPart(p) && AllParts([p])
  {
    assert In(a, NUMBER) && In(b, NUMBER) && In(".", NUMBER);
    InParts(".", b, NUMBER);
    InParts(a, "." + b, NUMBER);
  }

  lemma OneOrder(p: Part)
    requires p.sep == ""
    ensures InOrder([p], 0, NoClock) <==> UnitOf(p.word) < 5
    ensures Fields([p], NoClock) == map[Name(UnitOf(p.word)) := p.num]
    ensures Loose(NoClock) && IsClock(NoClock) && In("", SPACE)
  {
    assert [p][1..] == [];
    assert InOrder([], UnitOf(p.word) + 1, NoClock);
    assert Fields([], NoClock) == map[];
    NoGroups(map[], map[Name(UnitOf(p.word)) := p.num]);
    hide UnitOf, IsPart, Name;
  }

  /** One quantity, whatever its number. */
  lemma OneReads(p: Part, n: nat)
    requires AllParts([p]) && p.s1 == p.sep == p.s2 == ""
    ensures var k := UnitOf(p.word); Reads(p.num + (p.gap + p.word), n) <==> k < 5 && ComesTo(map[Name(k) := p.num], n)
  {
    OneText(p, p.num + (p.gap + p.word));
    OneOrder(p);
    hide *;
    TextReads("", [p], NoClock, "", n);
  }

  lemma ShareReads(a: string, b: string, gap: string, word: string, value: nat, t: nat, n: nat)
    requires OnlyDigits(a) && OnlyDigits(b) && a + b != "" && In(gap, SPACE) && word != [] && In(word, LETTERS)
    requires t > 0 && IsShare(Pointed(a, b), value, t)
    ensures Reads((a + ("." + b)) + (gap + word), n)
       <==> || (Spells(0, word) && n == CutDown(604800 * value, t))
            || (Spells(1, word) && n == CutDown(86400 * value, t))
            || (Spells(2, word) && n == CutDown(3600 * value, t))
            || (Spells(3, word) && n == CutDown(60 * value, t))
            || (Spells(4, word) && n * t == value)
  {
    var p := Part(a + ("." + b), gap, word, "", "", "");
    PointPart(a, b, p);
    OneReads(p, n);
    FloatOf(a, b);
    NotWhole(a, b);
    UnitWords(word);
    var k := UnitOf(word);
    hide *;
    if k < 5 {
      FractionComes(k, p.num, Pointed(a, b), value, t, n);
      Worth();
    }
  }

  /** The number is written with these digits in front of and behind a point: `value` by the power of ten `t`. */
  predicate PointedBy(a: string, b: string, num: string, value: nat, t: nat) {
    && num == a + ("." + b) && OnlyDigits(a) && OnlyDigits(b) && a + b != ""
    && t == TenTo(|b|) && value == ParseDigits(a) * t + ParseDigits(b)
  }

  ghost predicate IsPointed(num: string, value: nat, t: nat) {
    exists a, b :: PointedBy(a, b, num, value, t)
  }

  lemma PointedFloat(a: string, b: string, num: string, value: nat, t: nat)
    requires PointedBy(a, b, num, value, t)
    ensures num == a + ("." + b) && OnlyDigits(a) && OnlyDigits(b) && a + b != ""
    ensures ParseFloat(num) == Some(Pointed(a, b)) && !AllDigits(num)
  {
    FloatOf(a, b);
    NotWhole(a, b);
    hide ParseDigits, TenTo, Pointed, ParseFloat, AllDigits;
  }

  lemma PointedShare(a: string, b: string, num: string, value: nat, t: nat)
    requires PointedBy(a, b, num, value, t)
    ensures t > 0 && OnlyDigits(a) && OnlyDigits(b) && IsShare(Pointed(a, b), value, t)
  {
    PointedIs(a, b);
    hide ParseDigits, Pointed, IsShare, OnlyDigits;
  }

  lemma PointedNumber(num: string, value: nat, t: nat)
    requires IsPointed(num, value, t)
    ensures !AllDigits(num) && ParseFloat(num).Some? && t > 0 && IsShare(ParseFloat(num).value, value, t)
  {
    var a, b :| PointedBy(a, b, num, value, t);
    hide *;
    PointedFloat(a, b, num, value, t);
    PointedShare(a, b, num, value, t);
  }

  /** A quantity with a point reads as its value in seconds, cut down to a whole number; seconds with a point read only
    if they are whole. */
  lemma FractionReads(a: string, b: string, num: string, gap: string, word: string, value: nat, t: nat, n: nat)
    requires PointedBy(a, b, num, value, t) && In(gap, SPACE) && word != [] && In(word, LETTERS)
    ensures Reads(num + (gap + word), n)
       <==> || (Spells(0, word) && n == 604800 * value / t)
            || (Spells(1, word) && n == 86400 * value / t)
            || (Spells(2, word) && n == 3600 * value / t)
            || (Spells(3, word) && n == 60 * value / t)
            || (Spells(4, word) && n * t == value)
  {
    hide *;
    PointedFloat(a, b, num, value, t);
    PointedShare(a, b, num, value, t);
    CutsAre(value, t);
    ShareReads(a, b, gap, word, value, t, n);
  }

  lemma CutsAre(value: nat, t: nat)
    requires t > 0
    ensures CutDown(604800 * value, t) == 604800 * value / t && CutDown(86400 * value, t) == 86400 * value / t
    ensures CutDown(3600 * value, t) == 3600 * value / t && CutDown(60 * value, t) == 60 * value / t
  {
  }

  lemma Worth()
    ensures WORTH == [604800, 86400, 3600, 60, 1]
  {
  }

  lemma UnitWords(w: string)
    ensures var k := UnitOf(w);
            && (k == 0 <==> Spells(0, w)) && (k == 1 <==> Spells(1, w)) && (k == 2 <==> Spells(2, w))
            && (k == 3 <==> Spells(3, w)) && (k == 4 <==> Spells(4, w)) && k <= 5
  {
    UnitIsLiteral(w, 0);
    UnitIsLiteral(w, 1);
    UnitIsLiteral(w, 2);
    UnitIsLiteral(w, 3);
    UnitIsLiteral(w, 4);
    hide Spells;
  }

  lemma FieldOf(j: nat, x: string, k: nat, y: string, i: nat)
    requires j < k < 5 && i < 5
    ensures var e := map[Name(j) := x] + map[Name(k) := y];
            && (i == j ==> FloatField(e, Name(i)) == FloatField(map[Name(j) := x], Name(j)))
            && (i == k ==> FloatField(e, Name(i)) == FloatField(map[Name(k) := y], Name(k)))
            && (i != j && i != k ==> FloatField(e, Name(i)) == Some(0.0))
  {
    hide *;
    NamesApart(i, j);
    NamesApart(i, k);
    NamesApart(j, k);
    var e := map[Name(j) := x] + map[Name(k) := y];
    SameField(e, map[Name(j) := x], Name(i));
    SameField(e, map[Name(k) := y], Name(i));
    SameField(e, map[], Name(i));
    NoField(Name(i));
  }

  lemma SameField(e: Env, f: Env, name: string)
    ensures (name in e <==> name in f) && (name in e ==> e[name] == f[name])
        ==> FloatField(e, name) == FloatField(f, name)
  {
    if name in e && name in f && e[name] == f[name] {
      var v := e[name];
      assert f[name] == v && ParseFloat(e[name]) == ParseFloat(v) == ParseFloat(f[name]);
      hide ParseFloat, Multiplier;
    }
  }

  lemma NoField(name: string)
    ensures FloatField(map[], name) == Some(0.0)
  {
    hide ParseFloat, Multiplier;
  }

  lemma NamesApart(i: nat, j: nat)
    requires i < 5 && j < 5
    ensures Name(i) == Name(j) <==> i == j
  {
    assert "weeks"[0] == 'w' && "days"[0] == 'd' && "hours"[0] == 'h' && "mins"[0] == 'm' && "secs"[0] == 's';
  }

  lemma ParseWhole(v: string)
    requires AllDigits(v)
    ensures ParseFloat(v) == Some(ParseDigits(v) as real)
  {
    NoDot(v);
    assert v[..|v|] == v;
    assert Pointed(v, "") == ParseDigits(v) as real;
    hide ParseDigits;
  }

  lemma {:induction false} NoDot(v: string)
    requires OnlyDigits(v)
    ensures Dot(v) == |v|
  {
    if v != [] {
      NoDot(v[1..]);
    }
  }

  lemma FourTerms(e: Env, v0: real, v1: real, v2: real, v3: real)
    requires FloatField(e, "weeks") == Some(v0) && FloatField(e, "days") == Some(v1)
    requires FloatField(e, "hours") == Some(v2) && FloatField(e, "mins") == Some(v3)
    ensures FloatTotal(e) == Some((v0 + v1) + (v2 + v3))
  {
    hide FloatField;
  }

  lemma TwoTotal(j: nat, x: string, k: nat, y: string)
    requires j < k < 5 && ParseFloat(x).Some? && ParseFloat(y).Some?
    ensures FloatTotal(map[Name(j) := x] + map[Name(k) := y])
         == Some(Times(WORTH[j], ParseFloat(x).value) + if k < 4 then Times(WORTH[k], ParseFloat(y).value) else 0.0)
  {
    var e := map[Name(j) := x] + map[Name(k) := y];
    FieldOf(j, x, k, y, 0);
    FieldOf(j, x, k, y, 1);
    FieldOf(j, x, k, y, 2);
    FieldOf(j, x, k, y, 3);
    FieldFloat(j, x, j);
    FieldFloat(k, y, k);
    var u, w := Times(WORTH[j], ParseFloat(x).value), Times(WORTH[k], ParseFloat(y).value);
    hide ParseFloat, FloatField, FloatTotal, Times, WORTH;
    FourTerms(e, if j == 0 then u else 0.0, if j == 1 then u else if k == 1 then w else 0.0,
              if j == 2 then u else if k == 2 then w else 0.0, if j == 3 then u else if k == 3 then w else 0.0);
  }

  lemma ComesFrom(e: Env, total: real, n: nat)
    requires !Whole(e) && FloatTotal(e) == Some(total)
    ensures "secs" !in e ==> (ComesTo(e, n) <==> total.Floor == n)
    ensures "secs" in e && AllDigits(e["secs"]) ==> (ComesTo(e, n) <==> total.Floor + ParseDigits(e["secs"]) == n)
  {
    hide Whole, FloatTotal, AllDigits, ParseDigits, FloatField;
  }

  lemma TwoFields(j: nat, x: string, k: nat, y: string)
    requires j < k < 5 && !AllDigits(x)
    ensures var e := map[Name(j) := x] + map[Name(k) := y];
            !Whole(e) && ("secs" in e <==> k == 4) && (k == 4 ==> e["secs"] == y)
  {
    var e := map[Name(j) := x] + map[Name(k) := y];
    assert Name(j) in e && e[Name(j)] == x;
    hide AllDigits;
  }

  /** Two numbers, not both whole: the second are seconds, and whole, or both are cut down together. */
  lemma TwoFloats(j: nat, x: string, k: nat, y: string, n: nat)
    requires j < k < 5 && ParseFloat(x).Some? && ParseFloat(y).Some? && !AllDigits(x)
    ensures var e, u := map[Name(j) := x] + map[Name(k) := y], Times(WORTH[j], ParseFloat(x).value);
            && (k == 4 && AllDigits(y) ==> (ComesTo(e, n) <==> u.Floor + ParseDigits(y) == n))
            && (k < 4 ==> (ComesTo(e, n) <==> (u + Times(WORTH[k], ParseFloat(y).value)).Floor == n))
  {
    WorthSize();
    hide *;
    var e, u := map[Name(j) := x] + map[Name(k) := y], Times(WORTH[j], ParseFloat(x).value);
    TwoTotal(j, x, k, y);
    TwoFields(j, x, k, y);
    ComesFrom(e, if k < 4 then u + Times(WORTH[k], ParseFloat(y).value) else u, n);
  }

  lemma TwoOrder(p: Part, q: Part)
    requires UnitOf(p.word) < UnitOf(q.word) < 5 && q.sep == ""
    ensures InOrder([p, q], 0, NoClock)
    ensures Fields([p, q], NoClock) == map[Name(UnitOf(p.word)) := p.num] + map[Name(UnitOf(q.word)) := q.num]
    ensures "" + Text([p, q], EndText(NoClock, "")) == Text([p, q], "")
  {
    assert [p, q][1..] == [q] && [q][1..] == [];
    assert InOrder([], UnitOf(q.word) + 1, NoClock) && Fields([], NoClock) == map[];
    assert InOrder([q], UnitOf(p.word) + 1, NoClock);
    OneOrder(q);
    hide UnitOf, Name;
  }

  /** Two quantities, whatever their numbers. */
  lemma TwoRead(p: Part, q: Part, n: nat)
    requires AllParts([p, q]) && UnitOf(p.word) < UnitOf(q.word) < 5 && q.sep == ""
    ensures var e := map[Name(UnitOf(p.word)) := p.num] + map[Name(UnitOf(q.word)) := q.num];
            Reads(Text([p, q], ""), n) <==> ComesTo(e, n)
  {
    TwoOrder(p, q);
    assert Loose(NoClock) && IsClock(NoClock) && In("", SPACE);
    hide *;
    TextReads("", [p, q], NoClock, "", n);
  }

  lemma ShareAndSeconds(p: Part, q: Part, j: nat, z: real, value: nat, t: nat, n: nat)
    requires AllParts([p, q]) && UnitOf(p.word) == j < UnitOf(q.word) == 4 && q.sep == "" && AllDigits(q.num)
    requires ParseFloat(p.num) == Some(z) && !AllDigits(p.num) && t > 0 && IsShare(z, value, t)
    ensures Reads(Text([p, q], ""), n) <==> n == CutDown(WORTH[j] * value, t) + ParseDigits(q.num)
  {
    ParseWhole(q.num);
    hide *;
    TwoRead(p, q, n);
    TwoFloats(j, p.num, 4, q.num, n);
    Cuts(WORTH[j], z, value, t);
  }

  /** A quantity with a point and whole seconds: the seconds are added to what is cut down. */
  lemma PointAndSeconds(p: Part, q: Part, j: nat, value: nat, t: nat, n: nat)
    requires AllParts([p, q]) && UnitOf(p.word) == j < UnitOf(q.word) == 4 && q.sep == "" && AllDigits(q.num)
    requires t > 0 && IsPointed(p.num, value, t)
    ensures Reads(Text([p, q], ""), n) <==> n == CutDown(WORTH[j] * value, t) + ParseDigits(q.num)
  {
    hide *;
    PointedNumber(p.num, value, t);
    ShareAndSeconds(p, q, j, ParseFloat(p.num).value, value, t, n);
  }

  lemma Together(w: nat, y: real, v: nat, w': nat, y': real, v': nat, t: nat)
    requires IsShare(y, v, t) && IsShare(y', v', t)
    ensures (Times(w, y) + Times(w', y')).Floor == CutDown(w * v + w' * v', t)
  {
    Weighted(w, y, v, t);
    Weighted(w', y', v', t);
    var z, n := Times(w, y) + Times(w', y'), w * v + w' * v';
    assert z * t as real == Times(w, y) * t as real + Times(w', y') * t as real;
    hide Times;
    assert IsShare(z, n, t);
    Cuts(1, z, n, t);
    TimesOne(z, n);
  }

  lemma Weighted(w: nat, y: real, v: nat, t: nat)
    requires IsShare(y, v, t)
    ensures Times(w, y) * t as real == (w * v) as real
  {
    assert (w * v) as real == w as real * v as real;
  }

  lemma TimesOne(z: real, n: nat)
    ensures Times(1, z) == z && 1 * n == n
  {
  }

  /** Two quantities with points in front of the seconds are added up before they are cut down. */
  lemma PointsTogether(p: Part, q: Part, j: nat, k: nat, v: nat, w: nat, t: nat, n: nat)
    requires AllParts([p, q]) && UnitOf(p.word) == j < UnitOf(q.word) == k < 4 && q.sep == ""
    requires t > 0 && IsPointed(p.num, v, t) && IsPointed(q.num, w, t)
    ensures Reads(Text([p, q], ""), n) <==> n == CutDown(WORTH[j] * v + WORTH[k] * w, t)
  {
    hide *;
    PointedNumber(p.num, v, t);
    PointedNumber(q.num, w, t);
    WorthSize();
    TwoRead(p, q, n);
    TwoFloats(j, p.num, k, q.num, n);
    Together(WORTH[j], ParseFloat(p.num).value, v, WORTH[k], ParseFloat(q.num).value, w, t);
  }

  lemma WorthSize()
    ensures |WORTH| == 5
  {
  }

  lemma PointIn(a: string, b: string)
    requires OnlyDigits(a) && In(b, NUMBER)
    ensures In(a + ("." + b), NUMBER) && a + ("." + b) != []
  {
    assert In(a, NUMBER) && In(".", NUMBER);
    InParts(".", b, NUMBER);
    InParts(a, "." + b, NUMBER);
  }

  lemma TwoPointsFloat(a: string, b: string)
    requires OnlyDigits(a) && '.' in b
    ensures ParseFloat(a + ("." + b)) == None
  {
    var v := a + ("." + b);
    DotAt(a, b);
    assert v[..|a|] == a && v[|a| + 1..] == b;
    hide Dot, Pointed;
  }

  /** A number with two points is not read. */
  lemma TwoPoints(a: string, b: string, gap: string, word: string, n: nat)
    requires OnlyDigits(a) && In(b, NUMBER) && '.' in b && In(gap, SPACE) && word != [] && In(word, LETTERS)
    ensures !Reads((a + ("." + b)) + (gap + word), n)
  {
    var p := Part(a + ("." + b), gap, word, "", "", "");
    PointIn(a, b);
    assert IsPart(p) && AllParts([p]);
    hide *;
    TwoPointsFloat(a, b);
    NotWhole(a, b);
    OneReads(p, n);
    var k := UnitOf(word);
    if k < 5 {
      NoFloat(k, p.num, n);
    }
  }

  lemma NoFloat(k: nat, num: string, n: nat)
    requires k < 5 && ParseFloat(num) == None && !AllDigits(num)
    ensures !ComesTo(map[Name(k) := num], n)
  {
    var e: Env := map[Name(k) := num];
    assert Name(k) in e && e[Name(k)] == num && !Whole(e);
    assert FloatField(e, Name(k)) == None;
    hide ParseFloat, AllDigits, Whole;
  }

  /** Spaces alone are not read. */
  lemma NothingReads(s: string, n: nat)
    requires In(s, SPACE)
    ensures !Reads(s, n)
  {
    assert Blank(s);
    hide Denotes, Format, ComesTo;
  }

  // ---------------------------------------------------------------------------------------------------------
  // The second and the fourth format

  lemma DigitsIn(s: string)
    ensures OnlyDigits(s) <==> In(s, DIGITS)
    ensures In(s, DIGITS) ==> In(s, NUMBER) && StartsOutside(s, SPACE) && ':' !in s
    ensures OnlyDigits(s) && s != [] ==> AllDigits(s)
  {
    NoColons(s);
  }

  lemma MinuteClockColons(a: string, m: string, x: string, b: string)
    requires In(a, SPACE) && OnlyDigits(m) && In(x, NUMBER) && In(b, SPACE)
    ensures var s := a + (m + (":" + (x + b))); CountColons(s) == 1 && !Blank(s)
  {
    DigitsIn(m);
    NoColonIn(a, SPACE);
    NoColonIn(b, SPACE);
    NoColons(m);
    NoColonIn(x, NUMBER);
    assert CountColons(":") == 1;
    hide CountColons;
    CountColonsConcat(x, b);
    CountColonsConcat(":", x + b);
    CountColonsConcat(m, ":" + (x + b));
    CountColonsConcat(a, m + (":" + (x + b)));
    assert (a + (m + (":" + (x + b))))[|a| + |m|] == ':';
  }

  lemma MinuteClockMatch(y: string, e: Env) returns (m: string, x: string)
    requires Denotes(Core(1), y, e)
    ensures y == m + (":" + x) && 1 <= |m| <= 2 && In(m, DIGITS) && SecsText(x) && In(x, NUMBER)
    ensures e == map["mins" := m] + map["secs" := x]
  {
    ClocksAre();
    hide Denotes, MinClock, ClockSecs, ColonField;
    var f;
    m, x, f := ColonFieldElim("mins", 1, Some(2), ClockSecs(), y, e);
    ClockSecsElim(x, f);
    SecsNumber(x);
  }

  lemma SameMinutes(a: string, m: string, x: string, b: string, a': string, m': string, x': string, b': string)
    requires a + (m + (":" + (x + b))) == a' + (m' + (":" + (x' + b')))
    requires In(a, SPACE) && In(m, DIGITS) && In(x, NUMBER) && In(b, SPACE)
    requires In(a', SPACE) && In(m', DIGITS) && In(x', NUMBER) && In(b', SPACE)
    ensures m == m' && x == x'
  {
    DigitsIn(m);
    DigitsIn(m');
    NoHours(m, x, b);
    NoHours(m', x', b');
    hide In;
    StartsEarlier(m, ":" + (x + b), SPACE);
    StartsEarlier(m', ":" + (x' + b'), SPACE);
    CutFront(a, m + (":" + (x + b)), a', m' + (":" + (x' + b')), SPACE);
    SameClock("", m, x, b, "", m', x', b');
  }

  lemma ThreeParts(m: string, x: string, b: string)
    ensures (m + (":" + x)) + b == m + (":" + (x + b))
  {
  }

  lemma MinuteClockElim(a: string, m: string, x: string, b: string, e: Env)
    requires In(a, SPACE) && OnlyDigits(m) && In(x, NUMBER) && In(b, SPACE)
    requires Denotes(Format(1), a + (m + (":" + (x + b))), e)
    ensures 1 <= |m| <= 2 && SecsText(x) && e == map["mins" := m] + map["secs" := x]
  {
    DigitsIn(m);
    hide *;
    var a', y, b' := FormatElim(1, a + (m + (":" + (x + b))), e);
    var m', x' := MinuteClockMatch(y, e);
    ThreeParts(m', x', b');
    SameMinutes(a', m', x', b', a, m, x, b);
  }

  lemma NoHours(m: string, x: string, b: string)
    ensures "" + (":" + (m + (":" + (x + b)))) == ":" + (m + (":" + (x + b)))
    ensures In("", DIGITS)
  {
  }

  lemma TwoSeconds(x: string)
    requires OnlyDigits(x)
    ensures SecsText(x) <==> |x| == 2
  {
  }

  lemma MinuteClockIs(m: string, x: string)
    requires In(m, DIGITS) && SecsText(x) && 1 <= |m| <= 2
    ensures Denotes(Core(1), m + (":" + x), map["mins" := m] + map["secs" := x])
  {
    ClocksAre();
    ClockSecsIntro(x);
    hide Denotes, MinClock, ClockSecs, ColonField, In;
    ColonFieldIntro("mins", 1, Some(2), ClockSecs(), m, x, map["secs" := x]);
  }

  lemma MinuteClockIntro(a: string, m: string, x: string, b: string)
    requires In(a, SPACE) && OnlyDigits(m) && SecsText(x) && In(b, SPACE) && 1 <= |m| <= 2
    ensures Denotes(Format(1), a + (m + (":" + (x + b))), map["mins" := m] + map["secs" := x])
  {
    DigitsIn(m);
    hide *;
    MinuteClockIs(m, x);
    FormatIntro(1, a, m + (":" + x), b, map["mins" := m] + map["secs" := x]);
    ThreeParts(m, x, b);
  }

  lemma MinuteClockTotal(m: string, x: string)
    requires AllDigits(m) && AllDigits(x)
    ensures var e := map["mins" := m] + map["secs" := x]; Whole(e) && Total(e) == 60 * ParseDigits(m) + ParseDigits(x)
  {
    var s: Env := map[];
    assert Name(3) == "mins" && Name(4) == "secs";
    NoGroups(s, map["secs" := x]);
    hide ParseDigits, AllDigits;
    OneMoreField(4, x, s);
    OneMoreField(3, m, map["secs" := x]);
  }

  /** Digits, a colon and a number are read if and only if there are one or two digits of minutes and the number has two
    digits, with or without a fraction behind them. */
  lemma MinuteClockTexts(a: string, m: string, x: string, b: string, n: nat)
    requires In(a, SPACE) && OnlyDigits(m) && In(x, NUMBER) && In(b, SPACE)
    ensures Reads(a + (m + (":" + (x + b))), n)
       <==> 1 <= |m| <= 2 && SecsText(x) && ComesTo(map["mins" := m] + map["secs" := x], n)
  {
    MinuteClockColons(a, m, x, b);
    hide *;
    var s := a + (m + (":" + (x + b)));
    OneFormat(s, n);
    if 1 <= |m| <= 2 && SecsText(x) {
      MinuteClockIntro(a, m, x, b);
    }
    if e: Env :| Denotes(Format(1), s, e) && ComesTo(e, n) {
      MinuteClockElim(a, m, x, b, e);
    }
  }

  /** With digits only: one or two of minutes and two of seconds. */
  lemma MinuteClockReads(a: string, m: string, x: string, b: string, n: nat)
    requires In(a, SPACE) && OnlyDigits(m) && OnlyDigits(x) && In(b, SPACE)
    ensures Reads(a + (m + (":" + (x + b))), n)
       <==> 1 <= |m| <= 2 && |x| == 2 && n == 60 * ParseDigits(m) + ParseDigits(x)
  {
    DigitsIn(m);
    DigitsIn(x);
    TwoSeconds(x);
    MinuteClockTexts(a, m, x, b, n);
    if 1 <= |m| <= 2 && |x| == 2 {
      MinuteClockTotal(m, x);
    }
    hide Reads, In, Whole, Total, ParseDigits, OnlyDigits, SecsText;
  }

  function DayClockText(d: string, h: string, m: string, x: string, b: string): string {
    d + (":" + (h + (":" + (m + (":" + (x + b))))))
  }

  lemma DayClockColons(a: string, d: string, h: string, m: string, x: string, b: string)
    requires In(a, SPACE) && OnlyDigits(d) && OnlyDigits(h) && OnlyDigits(m) && In(x, NUMBER) && In(b, SPACE)
    ensures var s := a + DayClockText(d, h, m, x, b); CountColons(s) == 3 && !Blank(s)
  {
    DigitsIn(d);
    DigitsIn(h);
    DigitsIn(m);
    NoColonIn(a, SPACE);
    NoColons(d);
    var t := Clock(h, m, x);
    EndColons(t, b);
    assert CountColons(":") == 1;
    hide CountColons, EndText;
    CountColonsConcat(":", EndText(t, b));
    CountColonsConcat(d, ":" + EndText(t, b));
    CountColonsConcat(a, d + (":" + EndText(t, b)));
    DayClockIs(d, h, m, x, b);
    assert (a + DayClockText(d, h, m, x, b))[|a| + |d|] == ':';
  }

  lemma DayClockIs(d: string, h: string, m: string, x: string, b: string)
    ensures DayClockText(d, h, m, x, b) == d + (":" + EndText(Clock(h, m, x), b))
  {
  }

  function DayFields(d: string, h: string, m: string, x: string): Env {
    map["days" := d] + EndFields(Clock(h, m, x))
  }

  lemma DayClockMatch(y: string, e: Env) returns (d: string, h: string, m: string, x: string)
    requires Denotes(Core(3), y, e)
    ensures forall b :: y + b == DayClockText(d, h, m, x, b)
    ensures d != "" && |h| == 2 && |m| == 2 && In(d, DIGITS) && In(h, DIGITS) && In(m, DIGITS)
    ensures SecsText(x) && In(x, NUMBER) && e == DayFields(d, h, m, x)
  {
    ClocksAre();
    hide Denotes, DayClock, MinutePart, ClockSecs, ColonField, In, SecsText;
    var y1, y2, f1, f2, f3;
    d, y1, f1 := ColonFieldElim("days", 1, None, ColonField("hours", 2, Some(2), MinutePart()), y, e);
    h, y2, f2 := ColonFieldElim("hours", 2, Some(2), MinutePart(), y1, f1);
    m, x, f3 := ColonFieldElim("mins", 2, Some(2), ClockSecs(), y2, f2);
    ClockSecsElim(x, f3);
    SecsNumber(x);
    forall b ensures y + b == DayClockText(d, h, m, x, b) {
      SevenParts(d, h, m, x, b);
    }
  }

  lemma SevenParts(d: string, h: string, m: string, x: string, b: string)
    ensures (d + (":" + (h + (":" + (m + (":" + x)))))) + b == DayClockText(d, h, m, x, b)
  {
    ThreeParts(m, x, b);
    ThreeParts(h, m + (":" + x), b);
    ThreeParts(d, h + (":" + (m + (":" + x))), b);
  }

  predicate IsDayClock(d: string, h: string, m: string, x: string) {
    d != "" && |h| == 2 && |m| == 2 && SecsText(x)
  }

  lemma DayClockElim(a: string, d: string, h: string, m: string, x: string, b: string, e: Env)
    requires In(a, SPACE) && OnlyDigits(d) && OnlyDigits(h) && OnlyDigits(m) && In(x, NUMBER) && In(b, SPACE)
    requires Denotes(Format(3), a + DayClockText(d, h, m, x, b), e)
    ensures IsDayClock(d, h, m, x) && e == DayFields(d, h, m, x)
  {
    DigitsIn(d);
    DigitsIn(h);
    DigitsIn(m);
    hide *;
    var a', y, b' := FormatElim(3, a + DayClockText(d, h, m, x, b), e);
    var d', h', m', x' := DayClockMatch(y, e);
    SameDayClock(a', d', h', m', x', b', a, d, h, m, x, b);
    HasDayClock(d, h, m, x);
  }

  lemma HasDayClock(d: string, h: string, m: string, x: string)
    ensures IsDayClock(d, h, m, x) <==> d != "" && |h| == 2 && |m| == 2 && SecsText(x)
  {
  }

  lemma SameDayClock(a: string, d: string, h: string, m: string, x: string, b: string,
                     a': string, d': string, h': string, m': string, x': string, b': string)
    requires In(a, SPACE) && In(d, DIGITS) && In(h, DIGITS) && In(m, DIGITS) && In(x, NUMBER) && In(b, SPACE)
    requires In(a', SPACE) && In(d', DIGITS) && In(h', DIGITS) && In(m', DIGITS) && In(x', NUMBER) && In(b', SPACE)
    requires a + DayClockText(d, h, m, x, b) == a' + DayClockText(d', h', m', x', b')
    ensures d == d' && h == h' && m == m' && x == x'
  {
    var t, t' := EndText(Clock(h, m, x), b), EndText(Clock(h', m', x'), b');
    DayClockIs(d, h, m, x, b);
    DayClockIs(d', h', m', x', b');
    DigitsIn(d);
    DigitsIn(d');
    hide In, EndText, DayClockText;
    StartsEarlier(d, ":" + t, SPACE);
    StartsEarlier(d', ":" + t', SPACE);
    CutFront(a, d + (":" + t), a', d' + (":" + t'), SPACE);
    CutFront(d, ":" + t, d', ":" + t', DIGITS);
    AfterColon(t, t');
    ClockTextIs(h, m, x, b);
    ClockTextIs(h', m', x', b');
    SameClock(h, m, x, b, h', m', x', b');
  }

  lemma ClockTextIs(h: string, m: string, x: string, b: string)
    ensures EndText(Clock(h, m, x), b) == h + (":" + (m + (":" + (x + b))))
  {
  }

  lemma DayClockMatches(d: string, h: string, m: string, x: string)
    requires In(d, DIGITS) && In(h, DIGITS) && In(m, DIGITS) && SecsText(x) && d != "" && |h| == 2 && |m| == 2
    ensures Denotes(Core(3), DayClockText(d, h, m, x, ""), DayFields(d, h, m, x))
  {
    ClocksAre();
    ClockSecsIntro(x);
    hide Denotes, DayClock, MinutePart, ClockSecs, ColonField, In, SecsText;
    var f3, y2 := map["secs" := x], m + (":" + x);
    ColonFieldIntro("mins", 2, Some(2), ClockSecs(), m, x, f3);
    var f2, y1 := map["mins" := m] + f3, h + (":" + y2);
    ColonFieldIntro("hours", 2, Some(2), MinutePart(), h, y2, f2);
    ColonFieldIntro("days", 1, None, ColonField("hours", 2, Some(2), MinutePart()), d, y1, map["hours" := h] + f2);
    assert x + "" == x;
  }

  lemma DayClockIntro(a: string, d: string, h: string, m: string, x: string, b: string)
    requires In(a, SPACE) && OnlyDigits(d) && OnlyDigits(h) && OnlyDigits(m) && In(b, SPACE)
    requires IsDayClock(d, h, m, x)
    ensures Denotes(Format(3), a + DayClockText(d, h, m, x, b), DayFields(d, h, m, x))
  {
    DigitsIn(d);
    DigitsIn(h);
    DigitsIn(m);
    TextEnds(d, h, m, x, b);
    hide *;
    HasDayClock(d, h, m, x);
    DayClockMatches(d, h, m, x);
    FormatIntro(3, a, DayClockText(d, h, m, x, ""), b, DayFields(d, h, m, x));
  }

  lemma TextEnds(d: string, h: string, m: string, x: string, b: string)
    ensures DayClockText(d, h, m, x, "") + b == DayClockText(d, h, m, x, b)
  {
    SevenParts(d, h, m, x, b);
    assert x + "" == x;
  }

  lemma DayClockTotal(d: string, h: string, m: string, x: string)
    requires AllDigits(d) && AllDigits(h) && AllDigits(m) && AllDigits(x)
    ensures var e := DayFields(d, h, m, x);
            && Whole(e)
            && Total(e) == 86400 * ParseDigits(d) + 3600 * ParseDigits(h) + 60 * ParseDigits(m) + ParseDigits(x)
  {
    var t := Clock(h, m, x);
    EndTotal(t);
    assert Name(1) == "days";
    hide ParseDigits, AllDigits, EndFields;
    OneMoreField(1, d, EndFields(t));
  }

  lemma DayClockComes(d: string, h: string, m: string, x: string, n: nat)
    requires AllDigits(d) && AllDigits(h) && AllDigits(m) && AllDigits(x)
    ensures ComesTo(DayFields(d, h, m, x), n)
       <==> n == 86400 * ParseDigits(d) + 3600 * ParseDigits(h) + 60 * ParseDigits(m) + ParseDigits(x)
  {
    DayClockTotal(d, h, m, x);
    hide Total, Whole, DayFields, ParseDigits, AllDigits;
  }

  /** Three runs of digits and a number with colons between them are read if and only if there are some days, two digits
    of hours and of minutes, and the number has two digits, with or without a fraction behind them. */
  lemma DayClockTexts(a: string, d: string, h: string, m: string, x: string, b: string, n: nat)
    requires In(a, SPACE) && OnlyDigits(d) && OnlyDigits(h) && OnlyDigits(m) && In(x, NUMBER) && In(b, SPACE)
    ensures Reads(a + DayClockText(d, h, m, x, b), n)
       <==> IsDayClock(d, h, m, x) && ComesTo(DayFields(d, h, m, x), n)
  {
    DayClockColons(a, d, h, m, x, b);
    hide *;
    var s := a + DayClockText(d, h, m, x, b);
    OneFormat(s, n);
    if IsDayClock(d, h, m, x) {
      DayClockIntro(a, d, h, m, x, b);
    }
    if e: Env :| Denotes(Format(3), s, e) && ComesTo(e, n) {
      DayClockElim(a, d, h, m, x, b, e);
    }
  }

  /** Four runs of digits with colons between them are read if and only if there are some days and two digits of
    hours, of minutes and of seconds. */
  lemma DayClockReads(a: string, d: string, h: string, m: string, x: string, b: string, n: nat)
    requires In(a, SPACE) && OnlyDigits(d) && OnlyDigits(h) && OnlyDigits(m) && OnlyDigits(x) && In(b, SPACE)
    ensures Reads(a + (d + (":" + (h + (":" + (m + (":" + (x + b))))))), n)
       <==> && d != "" && |h| == 2 && |m| == 2 && |x| == 2
            && n == 86400 * ParseDigits(d) + 3600 * ParseDigits(h) + 60 * ParseDigits(m) + ParseDigits(x)
  {
    hide *;
    DayTextIs(d, h, m, x, b);
    IsDayClockIs(d, h, m, x);
    DayClockTexts(a, d, h, m, x, b, n);
    if IsDayClock(d, h, m, x) {
      DayClockComes(d, h, m, x, n);
    }
  }

  lemma DayTextIs(d: string, h: string, m: string, x: string, b: string)
    ensures DayClockText(d, h, m, x, b) == d + (":" + (h + (":" + (m + (":" + (x + b))))))
  {
  }

  lemma IsDayClockIs(d: string, h: string, m: string, x: string)
    requires OnlyDigits(d) && OnlyDigits(h) && OnlyDigits(m) && OnlyDigits(x)
    ensures IsDayClock(d, h, m, x) <==> d != "" && |h| == 2 && |m| == 2 && |x| == 2
    ensures IsDayClock(d, h, m, x) ==> AllDigits(d) && AllDigits(h) && AllDigits(m) && AllDigits(x)
    ensures In(x, NUMBER)
  {
    TwoSeconds(x);
    DigitsIn(x);
    hide SecsText;
  }

  // ---------------------------------------------------------------------------------------------------------
  // Texts with numbers in them

  function Two(n: nat): (s: string)
    requires n < 100
    ensures |s| == 2 && AllDigits(s)
  {
    [DigitOf(n / 10), DigitOf(n % 10)]
  }

  lemma ParseTwo(n: nat)
    requires n < 100
    ensures ParseDigits(Two(n)) == n
  {
    var s := Two(n);
    assert s[..1] == [s[0]] && s[..1][..0] == [];
    assert ParseDigits(s[..1]) == n / 10;
  }

  lemma DecimalLength(n: nat)
    ensures n < 100 ==> |Decimal(n)| <= 2
  {
    if 10 <= n < 100 {
      assert Decimal(n) == Decimal(n / 10) + [DigitOf(n % 10)];
    }
  }

  /** Minutes and seconds. */
  lemma MinutesSeconds(m: nat, s: nat, n: nat)
    requires m < 100 && s < 100
    ensures Reads(Decimal(m) + (":" + Two(s)), n) <==> n == 60 * m + s
  {
    ParseDecimal(m);
    ParseTwo(s);
    DecimalLength(m);
    hide Reads, ParseDigits, Decimal, Two;
    MinuteClockReads("", Decimal(m), Two(s), "", n);
    NothingAround(Decimal(m), Two(s));
  }

  lemma NothingAround(m: string, x: string)
    ensures "" + (m + (":" + (x + ""))) == m + (":" + x)
  {
    assert x + "" == x;
  }

  /** Days, hours, minutes and seconds, the hours with two digits. */
  lemma DaysClock(d: nat, h: nat, m: nat, s: nat, n: nat)
    requires h < 100 && m < 100 && s < 100
    ensures Reads(Decimal(d) + (":" + (Two(h) + (":" + (Two(m) + (":" + Two(s)))))), n)
       <==> n == 86400 * d + 3600 * h + 60 * m + s
  {
    ParseDecimal(d);
    ParseTwo(h);
    ParseTwo(m);
    ParseTwo(s);
    hide Reads, ParseDigits, Decimal, Two;
    DayClockReads("", Decimal(d), Two(h), Two(m), Two(s), "", n);
    NothingAroundDay(Decimal(d), Two(h), Two(m), Two(s));
  }

  lemma NothingAroundDay(d: string, h: string, m: string, x: string)
    ensures "" + (d + (":" + (h + (":" + (m + (":" + (x + "")))))))
         == d + (":" + (h + (":" + (m + (":" + x)))))
  {
    assert x + "" == x;
  }

  lemma SpellsItself(k: nat, i: nat, w: string)
    requires k < 5 && i < 5 && w == Spellings(k)[i]
    ensures UnitOf(w) == k && w != [] && In(w, LETTERS)
  {
    assert AnyCase(w, Spellings(k)[i]);
    assert Spells(k, w);
    UnitIsLiteral(w, k);
    SpellsStart(k, w);
    hide Spells, Spellings;
  }

  /** Two quantities one after the other. */
  lemma TwoQuantities(p: Part, q: Part, n: nat)
    requires AllParts([p, q]) && AllDigits(p.num) && AllDigits(q.num) && q.sep == ""
    requires UnitOf(p.word) < UnitOf(q.word) < 5
    ensures Reads(Text([p, q], ""), n)
       <==> n == WORTH[UnitOf(p.word)] * ParseDigits(p.num) + WORTH[UnitOf(q.word)] * ParseDigits(q.num)
  {
    var ps := [p, q];
    assert ps[1..] == [q] && [q][1..] == [];
    assert InOrder([], UnitOf(q.word) + 1, NoClock) && Value([]) == 0;
    assert InOrder([q], UnitOf(p.word) + 1, NoClock);
    assert InOrder(ps, 0, NoClock);
    assert Value([q]) == WORTH[UnitOf(q.word)] * ParseDigits(q.num);
    assert Value(ps) == WORTH[UnitOf(p.word)] * ParseDigits(p.num) + Value([q]);
    assert "" + Text(ps, EndText(NoClock, "")) == Text(ps, "");
    hide Reads, ParseDigits, UnitOf, Text, Value, InOrder, AllParts;
    WholeTexts("", ps, NoClock, "", n);
  }

  lemma TwoTexts(p: Part, q: Part)
    ensures Text([p, q], "")
         == p.num + (p.gap + (p.word + (After(p) + (q.num + (q.gap + (q.word + After(q)))))))
  {
    var tail := q.num + (q.gap + (q.word + After(q)));
    assert [p, q][1..] == [q] && [q][1..] == [];
    assert After(q) + "" == After(q);
    assert Text([q], "") == tail;
    assert Text([p, q], "") == p.num + (p.gap + (p.word + (After(p) + Text([q], ""))));
  }

  lemma OneAndTwentyFour()
    ensures AllDigits("1") && ParseDigits("1") == 1 && AllDigits("24") && ParseDigits("24") == 24
    ensures In("1", NUMBER) && In("24", NUMBER) && In("", SPACE)
  {
    assert "1"[..0] == "";
    assert "24"[..1] == "2" && "2"[..0] == "";
  }

  lemma MinuteSecond(minute: string, i: nat, second: string, j: nat, gap: string, sep: string, n: nat)
    requires i < 5 && j < 5 && minute == Spellings(3)[i] && second == Spellings(4)[j]
    requires In(gap, SPACE) && sep in {"", ","} && (sep == "" ==> gap == "")
    ensures Reads("1" + (gap + (minute + (("" + (sep + gap)) + ("24" + (gap + (second + "")))))), n) <==> n == 84
  {
    var p, q := Part("1", gap, minute, "", sep, gap), Part("24", gap, second, "", "", "");
    assert IsAfter("", sep, gap) && IsAfter("", "", "") && After(q) == "" && After(p) == "" + (sep + gap);
    hide *;
    SpellsItself(3, i, minute);
    SpellsItself(4, j, second);
    OneAndTwentyFour();
    PairOfParts(p, q);
    TwoTexts(p, q);
    TwoQuantities(p, q, n);
    Worth();
  }

  lemma PairOfParts(p: Part, q: Part)
    requires p.num != [] && In(p.num, NUMBER) && In(p.gap, SPACE) && p.word != [] && In(p.word, LETTERS)
    requires q.num != [] && In(q.num, NUMBER) && In(q.gap, SPACE) && q.word != [] && In(q.word, LETTERS)
    requires IsAfter(p.s1, p.sep, p.s2) && IsAfter(q.s1, q.sep, q.s2)
    ensures AllParts([p, q])
  {
    hide In, IsAfter;
  }

  /** The examples in the program's own documentation. */
  lemma Documented(n: nat)
    ensures Reads("1:24", n) <==> n == 84
    ensures Reads("1 minute, 24 secs", n) <==> n == 84
    ensures Reads("1m24s", n) <==> n == 84
    ensures Reads("1.2 minutes", n) <==> n == 72
    ensures !Reads("1.2 seconds", n)
  {
    hide Reads;
    ClockExample(n);
    MinuteSecond("minute", 3, "secs", 2, " ", ",", n);
    assert "1" + (" " + ("minute" + (("" + ("," + " ")) + ("24" + (" " + ("secs" + "")))))) == "1 minute, 24 secs";
    MinuteSecond("m", 0, "s", 0, "", "", n);
    assert "1" + ("" + ("m" + (("" + ("" + "")) + ("24" + ("" + ("s" + "")))))) == "1m24s";
    FractionExamples(n);
    hide *;
  }

  lemma ClockExample(n: nat)
    ensures Reads("1:24", n) <==> n == 84
  {
    MinutesSeconds(1, 24, n);
    assert Decimal(1) + (":" + Two(24)) == "1:24";
    hide Reads;
  }

  lemma OneTwo()
    ensures PointedBy("1", "2", "1.2", 12, 10) && In(" ", SPACE)
  {
    assert "1" + ("." + "2") == "1.2";
    assert "1"[..0] == "" && "2"[..0] == "";
    assert TenTo(1) == 10;
  }

  lemma OnePointTwo(word: string, k: nat, n: nat)
    requires k < 5 && UnitOf(word) == k && word != [] && In(word, LETTERS)
    ensures k == 3 ==> (Reads("1.2" + (" " + word), n) <==> n == 72)
    ensures k == 4 ==> !Reads("1.2" + (" " + word), n)
  {
    hide *;
    OneTwo();
    UnitWords(word);
    FractionReads("1", "2", "1.2", " ", word, 12, 10, n);
  }

  lemma Spelled()
    ensures "1.2" + (" " + "minutes") == "1.2 minutes" && "1.2" + (" " + "seconds") == "1.2 seconds"
    ensures Spellings(3)[4] == "minutes" && Spellings(4)[4] == "seconds"
  {
  }

  lemma FractionExamples(n: nat)
    ensures Reads("1.2 minutes", n) <==> n == 72
    ensures !Reads("1.2 seconds", n)
  {
    hide *;
    Spelled();
    SpellsItself(3, 4, "minutes");
    SpellsItself(4, 4, "seconds");
    OnePointTwo("minutes", 3, n);
    OnePointTwo("seconds", 4, n);
  }

  // ---------------------------------------------------------------------------------------------------------
  // Printing, and reading back

  /** The part in front of the clock. */
  function DayPart(d: nat): string {
    if d == 0 then "" else Decimal(d) + DayWord(d)
  }

  function DayWord(d: nat): string {
    if d == 1 then " day, " else " days, "
  }

  function ClockOf(n: nat): string
    requires n < 86400
  {
    Decimal(n / 3600) + (":" + (Two(n / 60 % 60) + (":" + Two(n % 60))))
  }

  /** `str` of a time difference of a whole number of seconds. */
  function Print(n: nat): string {
    DayPart(n / 86400) + ClockOf(n % 86400)
  }

  /** Days, hours, minutes and seconds of a number of seconds. */
  lemma Parts(d: nat, h: nat, m: nat, s: nat)
    requires h < 24 && m < 60 && s < 60
    ensures var n := 86400 * d + 3600 * h + 60 * m + s; var r := n % 86400;
            n / 86400 == d && r / 3600 == h && r / 60 % 60 == m && r % 60 == s
  {
    var r := 3600 * h + 60 * m + s;
    assert r / 60 == 60 * h + m;
  }

  lemma PrintFrom(n: nat, d: nat, h: nat, m: nat, s: nat)
    requires m < 60 && s < 60 && n / 86400 == d
    requires var r := n % 86400; r / 3600 == h && r / 60 % 60 == m && r % 60 == s
    ensures Print(n) == DayPart(d) + (Decimal(h) + (":" + (Two(m) + (":" + Two(s)))))
  {
    hide Decimal, Two, DayPart;
  }

  lemma DayPartAs(d: nat)
    ensures DayPart(d) == if d == 0 then "" else if d == 1 then "1 day, " else Decimal(d) + " days, "
  {
    assert Decimal(1) + " day, " == "1 day, ";
    hide Decimal;
  }

  /** How a time difference is printed: the days, if there are any, and the clock of the day. */
  lemma PrintedAs(d: nat, h: nat, m: nat, s: nat)
    requires h < 24 && m < 60 && s < 60
    ensures Print(86400 * d + 3600 * h + 60 * m + s)
         == (if d == 0 then "" else if d == 1 then "1 day, " else Decimal(d) + " days, ")
          + (Decimal(h) + (":" + (Two(m) + (":" + Two(s)))))
  {
    hide *;
    Parts(d, h, m, s);
    PrintFrom(86400 * d + 3600 * h + 60 * m + s, d, h, m, s);
    DayPartAs(d);
  }

  lemma AddsUp(n: nat)
    ensures var d, r := n / 86400, n % 86400;
            && n == 86400 * d + 3600 * (r / 3600) + 60 * (r / 60 % 60) + r % 60
            && r / 3600 < 24
  {
    var r := n % 86400;
    assert r / 60 / 60 == r / 3600;
    assert r / 60 == 60 * (r / 60 / 60) + r / 60 % 60;
    assert r == 60 * (r / 60) + r % 60;
  }

  function DayName(d: nat): string {
    if d == 1 then "day" else "days"
  }

  /** The printed days as a quantity. */
  function DayPieces(d: nat): seq<Part> {
    if d == 0 then [] else [Part(Decimal(d), " ", DayName(d), "", ",", " ")]
  }

  lemma DayPiecesAre(d: nat, t: End, tail: string)
    requires t.Clock?
    ensures AllParts(DayPieces(d)) && WholeParts(DayPieces(d)) && InOrder(DayPieces(d), 0, t)
    ensures Value(DayPieces(d)) == 86400 * d && Text(DayPieces(d), tail) == DayPart(d) + tail
  {
    if d > 0 {
      var ps := DayPieces(d);
      ParseDecimal(d);
      DigitsAre(Decimal(d));
      SpellsItself(1, if d == 1 then 3 else 4, DayName(d));
      assert IsPart(ps[0]) && ps[1..] == [];
      hide Decimal, ParseDigits, UnitOf, In;
      assert InOrder([], 2, t) && Value([]) == 0;
      DayPartIs(d, tail);
    }
  }

  lemma DayPartIs(d: nat, tail: string)
    requires d > 0
    ensures Decimal(d) + (" " + (DayName(d) + (("" + ("," + " ")) + tail))) == DayPart(d) + tail
  {
    hide Decimal;
    assert (" " + DayName(d)) + ", " == DayWord(d) && "" + ("," + " ") == ", ";
    RegroupFour(Decimal(d), " ", DayName(d), ", ");
    assert Decimal(d) + DayWord(d) == Decimal(d) + (" " + (DayName(d) + ", "));
    RegroupEnd(Decimal(d), " ", DayName(d), ", ", tail);
  }

  lemma RegroupEnd(a: string, b: string, c: string, d: string, tail: string)
    ensures (a + (b + (c + d))) + tail == a + (b + (c + (d + tail)))
  {
  }

  /** Printing and parsing: for every whole number of seconds the printed text has a reading, and any reading of it,
    whatever way the engine finds it, is that number. */
  lemma PrintedReadsBack(n: nat, m: nat)
    ensures Reads(Print(n), m) <==> m == n
  {
    var d, r := n / 86400, n % 86400;
    AddsUp(n);
    PrintIs(n);
    hide *;
    var t := ClockAt(r);
    ClockAtIs(r);
    DayPiecesAre(d, t, EndText(t, ""));
    WholeTexts("", DayPieces(d), t, "", m);
  }

  function ClockAt(r: nat): End
    requires r < 86400
  {
    Clock(Decimal(r / 3600), Two(r / 60 % 60), Two(r % 60))
  }

  lemma ClockAtIs(r: nat)
    requires r < 86400
    ensures var t := ClockAt(r);
            && t.Clock? && WholeEnd(t) && |t.m| == 2 && |t.x| == 2 && In("", SPACE)
            && EndValue(t) == 3600 * (r / 3600) + 60 * (r / 60 % 60) + r % 60
  {
    ParseDecimal(r / 3600);
    ParseTwo(r / 60 % 60);
    ParseTwo(r % 60);
    hide ParseDigits, Decimal, Two;
  }

  lemma PrintIs(n: nat)
    ensures "" + (DayPart(n / 86400) + EndText(ClockAt(n % 86400), "")) == Print(n)
  {
    var t := ClockAt(n % 86400);
    assert t.x + "" == t.x;
    hide Decimal, Two, DayPart;
  }

  const MAX_DAYS := 999999999

  /** `validate_timedelta`: a text that reads as no time or as nothing is rejected, and so is one beyond the range of
    a time difference; any other is replaced by the printed form of what it reads as. */
  ghost predicate Validates(value: string, result: string) {
    exists n: nat :: Reads(value, n) && n > 0 && n / 86400 <= MAX_DAYS && result == Print(n)
  }

  /** Validation is idempotent: a validated text validates to itself and to nothing else. */
  lemma ValidatedStays(value: string, result: string, again: string)
    requires Validates(value, result)
    ensures Validates(result, again) <==> again == result
  {
    var n: nat :| Reads(value, n) && n > 0 && n / 86400 <= MAX_DAYS && result == Print(n);
    PrintedReadsBack(n, n);
    forall m: nat | Reads(result, m) ensures m == n {
      PrintedReadsBack(n, m);
    }
    hide Reads, Print;
  }

  /** What a printed time difference validates to: itself, from one second up to a thousand million days; and nothing
    otherwise. */
  lemma PrintedValidates(n: nat, result: string)
    ensures Validates(Print(n), result) <==> 0 < n < 86400000000000 && result == Print(n)
  {
    PrintedReadsBack(n, n);
    forall m: nat | Reads(Print(n), m) ensures m == n {
      PrintedReadsBack(n, m);
    }
    hide Reads, Print;
  }

  /** But not every printed time difference is valid: the empty one, which is a whole number of seconds like any other,
    is rejected. */
  lemma ZeroRejected(result: string)
    ensures Print(0) == "0:00:00" && Reads("0:00:00", 0) && !Validates("0:00:00", result)
  {
    assert Two(0) == "00" && Decimal(0) == "0";
    assert Print(0) == "0:00:00";
    PrintedReadsBack(0, 0);
    PrintedValidates(0, result);
  }
}
