/** The order in which DynamoDB compares string attributes, and the ISO-8601
    text that `datetime.isoformat(timespec="milliseconds")` produces for a UTC
    instant. DynamoDB orders S values by their UTF-8 bytes, which is the order
    of their code points; Dafny's `char` is a Unicode scalar value, so
    comparing characters compares code points. */
module Timestamps {

  /** Strict lexicographic order on strings: a proper prefix comes first. */
  predicate Below(a: string, b: string)
    decreases |a|
  {
    if a == [] then b != []
    else b != [] && (a[0] < b[0] || (a[0] == b[0] && Below(a[1..], b[1..])))
  }

  /** `a <= b` as DynamoDB evaluates it on two S values. */
  predicate NotAbove(a: string, b: string) {
    a == b || Below(a, b)
  }

  lemma {:induction false} BelowIrreflexive(a: string)
    ensures !Below(a, a)
    decreases |a|
  {
    if a != [] {
      BelowIrreflexive(a[1..]);
    }
  }

  lemma {:induction false} BelowTransitive(a: string, b: string, c: string)
    requires Below(a, b) && Below(b, c)
    ensures Below(a, c)
    decreases |a|
  {
    if a != [] && a[0] == b[0] && b[0] == c[0] {
      BelowTransitive(a[1..], b[1..], c[1..]);
    }
  }

  /** Any two strings are equal or ordered one way. */
  lemma {:induction false} BelowTotal(a: string, b: string)
    ensures a == b || Below(a, b) || Below(b, a)
    decreases |a|
  {
    if a != [] && b != [] && a[0] == b[0] {
      BelowTotal(a[1..], b[1..]);
      if a[1..] == b[1..] {
        assert a == [a[0]] + a[1..] && b == [b[0]] + b[1..];
      }
    }
  }

  lemma BelowAsymmetric(a: string, b: string)
    requires Below(a, b)
    ensures !Below(b, a)
  {
  }

  /** `NotAbove` is a total order. */
  lemma NotAboveTotalOrder(a: string, b: string, c: string)
    ensures NotAbove(a, a)
    ensures NotAbove(a, b) && NotAbove(b, a) ==> a == b
    ensures NotAbove(a, b) && NotAbove(b, c) ==> NotAbove(a, c)
    ensures NotAbove(a, b) || NotAbove(b, a)
  {
    BelowTotal(a, b);
    if Below(a, b) && Below(b, a) {
      BelowAsymmetric(a, b);
    }
    if Below(a, b) && Below(b, c) {
      BelowTransitive(a, b, c);
    }
  }

  /** Comparing two strings that begin with parts of the same length: the
      first parts decide, and only when they are equal do the rests. */
  lemma {:induction false} BelowConcat(a: string, b: string, c: string, d: string)
    requires |a| == |c|
    ensures Below(a + b, c + d) <==> Below(a, c) || (a == c && Below(b, d))
    decreases |a|
  {
    if a == [] {
      assert a + b == b && c + d == d;
    } else {
      assert (a + b)[0] == a[0] && (c + d)[0] == c[0];
      assert (a + b)[1..] == a[1..] + b && (c + d)[1..] == c[1..] + d;
      BelowConcat(a[1..], b, c[1..], d);
      if a[0] == c[0] && a[1..] == c[1..] {
        assert a == [a[0]] + a[1..] && c == [c[0]] + c[1..];
      }
    }
  }

  function Pow10(w: nat): (p: nat)
    ensures p >= 1
  {
    if w == 0 then 1 else 10 * Pow10(w - 1)
  }

  function Digit(d: nat): (c: char)
    requires d < 10
    ensures '0' <= c <= '9'
  {
    ('0' as int + d) as char
  }

  /** `"%0*d" % (w, n)`: `n` in exactly `w` decimal digits. */
  function Pad(n: nat, w: nat): (s: string)
    requires n < Pow10(w)
    ensures |s| == w
  {
    if w == 0 then [] else Pad(n / 10, w - 1) + [Digit(n % 10)]
  }

  /** Zero-padded numbers of one width compare as strings as they compare as numbers. */
  lemma {:induction false} PadOrder(n: nat, m: nat, w: nat)
    requires n < Pow10(w) && m < Pow10(w)
    ensures Below(Pad(n, w), Pad(m, w)) <==> n < m
    ensures Pad(n, w) == Pad(m, w) <==> n == m
    decreases w
  {
    if w > 0 {
      PadOrder(n / 10, m / 10, w - 1);
      BelowConcat(Pad(n / 10, w - 1), [Digit(n % 10)], Pad(m / 10, w - 1), [Digit(m % 10)]);
      var s, t := Pad(n, w), Pad(m, w);
      if s == t {
        assert s[w - 1] == Digit(n % 10) && t[w - 1] == Digit(m % 10);
        assert s[..w - 1] == Pad(n / 10, w - 1) && t[..w - 1] == Pad(m / 10, w - 1);
      }
    }
  }

  /** Numbers rendered field by field, each padded to its width and followed
      by its separator. */
  function Render(vals: seq<nat>, widths: seq<nat>, seps: seq<string>): (s: string)
    requires |vals| == |widths| == |seps|
    requires forall i :: 0 <= i < |vals| ==> vals[i] < Pow10(widths[i])
  {
    if vals == [] then [] else Pad(vals[0], widths[0]) + seps[0] + Render(vals[1..], widths[1..], seps[1..])
  }

  /** Lexicographic order on sequences of numbers of the same length. */
  predicate Earlier(u: seq<nat>, v: seq<nat>)
    requires |u| == |v|
  {
    u != [] && (u[0] < v[0] || (u[0] == v[0] && Earlier(u[1..], v[1..])))
  }

  lemma ConcatCancel(a: string, b: string, c: string, d: string)
    requires |a| == |c| && a + b == c + d
    ensures a == c && b == d
  {
    assert a == (a + b)[..|a|] && c == (c + d)[..|c|];
    assert b == (a + b)[|a|..] && d == (c + d)[|c|..];
  }

  /** Rendering keeps the order of the fields and tells different fields apart. */
  lemma {:induction false} RenderOrder(u: seq<nat>, v: seq<nat>, widths: seq<nat>, seps: seq<string>)
    requires |u| == |v| == |widths| == |seps|
    requires forall i :: 0 <= i < |u| ==> u[i] < Pow10(widths[i]) && v[i] < Pow10(widths[i])
    ensures Below(Render(u, widths, seps), Render(v, widths, seps)) <==> Earlier(u, v)
    ensures Render(u, widths, seps) == Render(v, widths, seps) <==> u == v
    decreases |u|
  {
    if u != [] {
      var p, q := Pad(u[0], widths[0]), Pad(v[0], widths[0]);
      var ru, rv := Render(u[1..], widths[1..], seps[1..]), Render(v[1..], widths[1..], seps[1..]);
      RenderOrder(u[1..], v[1..], widths[1..], seps[1..]);
      PadOrder(u[0], v[0], widths[0]);
      RenderStep(u, widths, seps);
      RenderStep(v, widths, seps);
      BelowConcat(p, seps[0] + ru, q, seps[0] + rv);
      BelowConcat(seps[0], ru, seps[0], rv);
      BelowIrreflexive(seps[0]);
      if p + (seps[0] + ru) == q + (seps[0] + rv) {
        ConcatCancel(p, seps[0] + ru, q, seps[0] + rv);
        ConcatCancel(seps[0], ru, seps[0], rv);
      }
      if u[0] == v[0] && u[1..] == v[1..] {
        assert u == [u[0]] + u[1..] && v == [v[0]] + v[1..];
      }
    }
  }

  lemma RenderStep(u: seq<nat>, widths: seq<nat>, seps: seq<string>)
    requires |u| == |widths| == |seps| && u != []
    requires forall i :: 0 <= i < |u| ==> u[i] < Pow10(widths[i])
    ensures Render(u, widths, seps) == Pad(u[0], widths[0]) + (seps[0] + Render(u[1..], widths[1..], seps[1..]))
  {
  }

  /** A UTC instant to the millisecond, within the range of Python's `datetime`. */
  datatype Moment = Moment(year: nat, month: nat, day: nat, hour: nat, minute: nat, second: nat, millisecond: nat) {
    predicate Valid() {
      1 <= year <= 9999 && 1 <= month <= 12 && 1 <= day <= 31
      && hour < 24 && minute < 60 && second < 60 && millisecond < 1000
    }

    /** The fields, most significant first. */
    function Fields(): (f: seq<nat>)
      ensures |f| == 7
    {
      [year, month, day, hour, minute, second, millisecond]
    }
  }

  type Instant = t: Moment | t.Valid() witness Moment(1970, 1, 1, 0, 0, 0, 0)

  /** Chronological order: the first field that differs decides. */
  predicate Before(s: Instant, t: Instant) {
    Earlier(s.Fields(), t.Fields())
  }

  const Widths: seq<nat> := [4, 2, 2, 2, 2, 2, 3]
  const Separators: seq<string> := ["-", "-", "T", ":", ":", ".", "+00:00"]

  lemma FieldsFit(t: Instant)
    ensures forall i :: 0 <= i < 7 ==> t.Fields()[i] < Pow10(Widths[i])
  {
  }

  /** `t.isoformat(timespec="milliseconds")` for a UTC `datetime`, for
      example `2024-01-01T00:00:00.000+00:00`. */
  function Iso(t: Instant): (s: string)
    ensures |s| == 29
    ensures s[4] == '-' && s[7] == '-' && s[10] == 'T' && s[13] == ':' && s[16] == ':' && s[19] == '.'
    ensures s[23..] == "+00:00"
  {
    FieldsFit(t);
    Pad(t.year, 4) + ("-" + (Pad(t.month, 2) + ("-" + (Pad(t.day, 2) + ("T" + (Pad(t.hour, 2) + (":" +
    (Pad(t.minute, 2) + (":" + (Pad(t.second, 2) + ("." + (Pad(t.millisecond, 3) + "+00:00"))))))))))))
  }

  lemma RenderFrom(u: seq<nat>, widths: seq<nat>, seps: seq<string>, k: nat)
    requires |u| == |widths| == |seps| && k < |u|
    requires forall i :: 0 <= i < |u| ==> u[i] < Pow10(widths[i])
    ensures Render(u[k..], widths[k..], seps[k..])
         == Pad(u[k], widths[k]) + (seps[k] + Render(u[k + 1..], widths[k + 1..], seps[k + 1..]))
  {
  }

  /** The ISO text is the fields rendered with their widths and separators. */
  lemma IsoRendersFields(t: Instant)
    ensures forall i :: 0 <= i < 7 ==> t.Fields()[i] < Pow10(Widths[i])
    ensures Iso(t) == Render(t.Fields(), Widths, Separators)
  {
    FieldsFit(t);
    var f, w, p := t.Fields(), Widths, Separators;
    var r7 := Render(f[7..], w[7..], p[7..]);
    assert f[7..] == [];
    assert r7 == [];
    RenderFrom(f, w, p, 6);
    var r6 := Pad(t.millisecond, 3) + ("+00:00" + r7);
    assert Render(f[6..], w[6..], p[6..]) == r6;
    RenderFrom(f, w, p, 5);
    var r5 := Pad(t.second, 2) + ("." + r6);
    assert Render(f[5..], w[5..], p[5..]) == r5;
    RenderFrom(f, w, p, 4);
    var r4 := Pad(t.minute, 2) + (":" + r5);
    assert Render(f[4..], w[4..], p[4..]) == r4;
    RenderFrom(f, w, p, 3);
    var r3 := Pad(t.hour, 2) + (":" + r4);
    assert Render(f[3..], w[3..], p[3..]) == r3;
    RenderFrom(f, w, p, 2);
    var r2 := Pad(t.day, 2) + ("T" + r3);
    assert Render(f[2..], w[2..], p[2..]) == r2;
    RenderFrom(f, w, p, 1);
    var r1 := Pad(t.month, 2) + ("-" + r2);
    assert Render(f[1..], w[1..], p[1..]) == r1;
    RenderFrom(f, w, p, 0);
    assert f[0..] == f && w[0..] == w && p[0..] == p;
    assert "+00:00" + r7 == "+00:00";
  }

  /** The timestamps the handler sends compare as strings exactly as the
      instants compare in time: string order on `isoformat` output is
      chronological order, and different instants give different text. */
  lemma IsoChronological(s: Instant, t: Instant)
    ensures Below(Iso(s), Iso(t)) <==> Before(s, t)
    ensures Iso(s) == Iso(t) <==> s == t
    ensures NotAbove(Iso(s), Iso(t)) <==> !Before(t, s)
  {
    IsoRendersFields(s);
    IsoRendersFields(t);
    RenderOrder(s.Fields(), t.Fields(), Widths, Separators);
    RenderOrder(t.Fields(), s.Fields(), Widths, Separators);
    BelowTotal(Iso(s), Iso(t));
    if Below(Iso(s), Iso(t)) {
      BelowAsymmetric(Iso(s), Iso(t));
    }
    if Iso(s) == Iso(t) {
      BelowIrreflexive(Iso(s));
    }
    if s.Fields() == t.Fields() {
      assert s.year == s.Fields()[0] == t.Fields()[0] == t.year;
      assert s.millisecond == s.Fields()[6] == t.Fields()[6] == t.millisecond;
    }
  }
}
