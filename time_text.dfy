/** Durations as text, shared by the toolbar badge (background.js) and the popup
    (popup.js): the hour / minute / second decomposition under JavaScript's
    `Math.floor` and `%`, decimal rendering of whole numbers, the one-unit parts
    "Nh", "Nm", "Ns", and a reader for such text that the writers are proved against. */
module TimeText {
  import opened Wrappers

  /** JavaScript's `a % b` for a positive divisor: the remainder takes the sign of the
      dividend (Dafny's `%` is Euclidean and never negative). */
  function JsRem(a: int, b: int): (r: int)
    requires b > 0
    ensures a >= 0 ==> 0 <= r < b
    ensures a < 0 ==> -b < r <= 0
    ensures exists q :: a == q * b + r
  {
    var q := if a >= 0 then a / b else -((-a) / b);
    var r := if a >= 0 then a % b else -((-a) % b);
    assert a == q * b + r;
    r
  }

  // `Math.floor(x / n)` with a positive constant n is Dafny's `x / n`: for a positive
  // divisor, Euclidean division rounds toward negative infinity.

  /** `Math.floor(seconds / 3600)`. */
  function Hours(seconds: int): (h: int)
    ensures h >= 0 <==> seconds >= 0
    ensures h > 0 <==> seconds >= 3600
  {
    seconds / 3600
  }

  /** `Math.floor((seconds % 3600) / 60)`. */
  function Minutes(seconds: int): (m: int)
    ensures seconds >= 0 ==> 0 <= m < 60
    ensures 0 <= seconds < 3600 ==> m == seconds / 60
    ensures seconds < 0 ==> m <= 0
  {
    JsRem(seconds, 3600) / 60
  }

  /** `seconds % 60`. */
  function Secs(seconds: int): (s: int)
    ensures seconds >= 0 ==> 0 <= s < 60
    ensures seconds < 0 ==> s <= 0
  {
    JsRem(seconds, 60)
  }

  /** For a non-negative count the three fields are a mixed-radix decomposition. */
  lemma Decompose(seconds: nat)
    ensures Hours(seconds) * 3600 + Minutes(seconds) * 60 + Secs(seconds) == seconds
    ensures Secs(seconds) == seconds % 60
  {
    var h, r := seconds / 3600, seconds % 3600;
    assert seconds == h * 3600 + r;
    var m, s := r / 60, r % 60;
    assert r == m * 60 + s;
    assert seconds == (h * 60 + m) * 60 + s;
    assert seconds % 60 == s;
  }

  // ---------------------------------------------------------------- decimal digits

  predicate IsDigit(c: char) {
    '0' <= c <= '9'
  }

  predicate AllDigits(s: string) {
    forall i :: 0 <= i < |s| ==> IsDigit(s[i])
  }

  function DigitChar(d: nat): (c: char)
    requires d < 10
    ensures IsDigit(c) && DigitValue(c) == d
  {
    (d + '0' as int) as char
  }

  function DigitValue(c: char): (d: nat)
    requires IsDigit(c)
    ensures d < 10
  {
    c as int - '0' as int
  }

  /** The text JavaScript produces for a non-negative integer in a template literal:
      decimal, most significant digit first, no leading zero. */
  function Digits(n: nat): (r: string)
    ensures |r| >= 1 && AllDigits(r)
    ensures r[0] == '0' <==> n == 0
    decreases n
  {
    if n < 10 then [DigitChar(n)] else Digits(n / 10) + [DigitChar(n % 10)]
  }

  /** The number a string of decimal digits denotes. */
  function DigitsValue(s: string): nat
    requires AllDigits(s)
    decreases |s|
  {
    if s == [] then 0 else DigitsValue(s[..|s| - 1]) * 10 + DigitValue(s[|s| - 1])
  }

  lemma {:induction false} DigitsRoundTrip(n: nat)
    ensures DigitsValue(Digits(n)) == n
    decreases n
  {
    var r := Digits(n);
    if n < 10 {
      assert r[..|r| - 1] == [];
    } else {
      DigitsRoundTrip(n / 10);
      assert r[..|r| - 1] == Digits(n / 10);
    }
  }

  // ---------------------------------------------------------------- one-unit parts

  datatype Unit = Hour | Minute | Second

  function UnitSeconds(u: Unit): nat {
    match u
    case Hour => 3600
    case Minute => 60
    case Second => 1
  }

  function UnitChar(u: Unit): char {
    match u
    case Hour => 'h'
    case Minute => 'm'
    case Second => 's'
  }

  function UnitOfChar(c: char): (r: Option<Unit>)
    ensures r.Some? ==> UnitChar(r.value) == c
    ensures forall u :: UnitChar(u) == c ==> r == Some(u)
  {
    if c == 'h' then Some(Hour)
    else if c == 'm' then Some(Minute)
    else if c == 's' then Some(Second)
    else None
  }

  /** An amount of one unit, shown as `${amount}h`, `${amount}m` or `${amount}s`. */
  datatype Part = Part(amount: nat, unit: Unit)

  function PartSeconds(p: Part): nat {
    p.amount * UnitSeconds(p.unit)
  }

  function Render(p: Part): (r: string)
    ensures |r| >= 2 && AllDigits(r[..|r| - 1]) && r[|r| - 1] == UnitChar(p.unit)
    ensures ' ' !in r
  {
    var r := Digits(p.amount) + [UnitChar(p.unit)];
    assert r[..|r| - 1] == Digits(p.amount);
    assert forall i :: 0 <= i < |r| - 1 ==> IsDigit(r[i]);
    r
  }

  /** Reads back one part: a run of digits followed by one unit letter. */
  function ParsePart(token: string): Option<Part> {
    if |token| >= 2 && AllDigits(token[..|token| - 1]) && UnitOfChar(token[|token| - 1]).Some?
    then Some(Part(DigitsValue(token[..|token| - 1]), UnitOfChar(token[|token| - 1]).value))
    else None
  }

  lemma PartRoundTrip(p: Part)
    ensures ParsePart(Render(p)) == Some(p)
  {
    var r := Render(p);
    assert r[..|r| - 1] == Digits(p.amount);
    DigitsRoundTrip(p.amount);
  }

  /** A rendered part holds exactly one letter, its unit's. */
  lemma UnitLetterInRender(p: Part, u: Unit)
    ensures UnitChar(u) in Render(p) <==> u == p.unit
  {
  }

  // ---------------------------------------------------------------- lists of parts

  function RenderAll(ps: seq<Part>): (ts: seq<string>)
    ensures |ts| == |ps|
    ensures forall k :: 0 <= k < |ts| ==> ts[k] == Render(ps[k])
  {
    if ps == [] then [] else [Render(ps[0])] + RenderAll(ps[1..])
  }

  function TotalSeconds(ps: seq<Part>): nat {
    if ps == [] then 0 else PartSeconds(ps[0]) + TotalSeconds(ps[1..])
  }

  function ParseParts(tokens: seq<string>): Option<seq<Part>> {
    if tokens == [] then Some([])
    else
      var head, tail := ParsePart(tokens[0]), ParseParts(tokens[1..]);
      if head.Some? && tail.Some? then Some([head.value] + tail.value) else None
  }

  lemma {:induction false} ParseRenderAll(ps: seq<Part>)
    ensures ParseParts(RenderAll(ps)) == Some(ps)
  {
    if ps != [] {
      var ts := RenderAll(ps);
      assert ts[1..] == RenderAll(ps[1..]);
      PartRoundTrip(ps[0]);
      ParseRenderAll(ps[1..]);
      var head, tail := ParsePart(ts[0]), ParseParts(ts[1..]);
      assert head == Some(ps[0]) && tail == Some(ps[1..]);
      assert [ps[0]] + ps[1..] == ps;
    }
  }

  // ---------------------------------------------------------------- joining and splitting

  /** `Array.prototype.join` with a one-character separator. */
  function Join(tokens: seq<string>, sep: char): string {
    if |tokens| == 0 then []
    else if |tokens| == 1 then tokens[0]
    else tokens[0] + [sep] + Join(tokens[1..], sep)
  }

  function IndexOf(s: string, c: char): (i: nat)
    requires c in s
    ensures i < |s| && s[i] == c && c !in s[..i]
  {
    if s[0] == c then 0 else 1 + IndexOf(s[1..], c)
  }

  /** The pieces of `s` between occurrences of `sep`. */
  function Split(s: string, sep: char): (pieces: seq<string>)
    ensures |pieces| >= 1
    decreases |s|
  {
    if sep in s then
      var i := IndexOf(s, sep);
      [s[..i]] + Split(s[i + 1..], sep)
    else [s]
  }

  lemma {:induction false} SplitJoin(tokens: seq<string>, sep: char)
    requires |tokens| >= 1
    requires forall k :: 0 <= k < |tokens| ==> sep !in tokens[k]
    ensures Split(Join(tokens, sep), sep) == tokens
  {
    if |tokens| > 1 {
      var t, rest := tokens[0], Join(tokens[1..], sep);
      var s := t + [sep] + rest;
      assert s[|t|] == sep;
      var i := IndexOf(s, sep);
      assert i == |t|;
      assert s[..i] == t;
      assert s[i + 1..] == rest;
      SplitJoin(tokens[1..], sep);
    }
  }

  /** A character other than the separator occurs in the joined text exactly when it
      occurs in one of the tokens. */
  lemma {:induction false} InJoin(tokens: seq<string>, sep: char, c: char)
    requires c != sep
    ensures c in Join(tokens, sep) <==> exists k :: 0 <= k < |tokens| && c in tokens[k]
  {
    if |tokens| > 1 {
      InJoin(tokens[1..], sep, c);
      var s := tokens[0] + [sep] + Join(tokens[1..], sep);
      if c in s {
        var i :| 0 <= i < |s| && s[i] == c;
        if i < |tokens[0]| {
          assert tokens[0][i] == c;
        } else {
          assert Join(tokens[1..], sep)[i - |tokens[0]| - 1] == c;
          var k :| 0 <= k < |tokens| - 1 && c in tokens[1..][k];
          assert c in tokens[k + 1];
        }
      }
      if exists k :: 0 <= k < |tokens| && c in tokens[k] {
        var k :| 0 <= k < |tokens| && c in tokens[k];
        if k == 0 {
          var i :| 0 <= i < |tokens[0]| && tokens[0][i] == c;
          assert s[i] == c;
        } else {
          assert c in tokens[1..][k - 1];
          var j :| 0 <= j < |Join(tokens[1..], sep)| && Join(tokens[1..], sep)[j] == c;
          assert s[|tokens[0]| + 1 + j] == c;
        }
      }
    }
  }

  predicate HasUnit(ps: seq<Part>, u: Unit) {
    exists k :: 0 <= k < |ps| && ps[k].unit == u
  }

  lemma HasUnitConcat(a: seq<Part>, b: seq<Part>, u: Unit)
    ensures HasUnit(a + b, u) <==> HasUnit(a, u) || HasUnit(b, u)
  {
    if HasUnit(a + b, u) {
      var k :| 0 <= k < |a + b| && (a + b)[k].unit == u;
      if k >= |a| {
        assert b[k - |a|].unit == u;
      }
    }
    if HasUnit(b, u) {
      var k :| 0 <= k < |b| && b[k].unit == u;
      assert (a + b)[|a| + k].unit == u;
    }
    if HasUnit(a, u) {
      var k :| 0 <= k < |a| && a[k].unit == u;
      assert (a + b)[k].unit == u;
    }
  }

  /** A unit letter shows in the joined rendering exactly when a part of that unit is there. */
  lemma UnitLetterInJoin(ps: seq<Part>, u: Unit)
    ensures UnitChar(u) in Join(RenderAll(ps), ' ') <==> HasUnit(ps, u)
  {
    var ts := RenderAll(ps);
    InJoin(ts, ' ', UnitChar(u));
    forall k | 0 <= k < |ps|
      ensures UnitChar(u) in ts[k] <==> ps[k].unit == u
    {
      UnitLetterInRender(ps[k], u);
    }
  }
}
