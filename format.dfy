/**
 * The text that the generator writes into the body of a `codeAppendf` call is
 * itself a printf format string.  This module counts the conversions in such a
 * text, states when a text can be split without cutting a conversion in two,
 * and provides the decimal rendering of integers used in generated names.
 */
module Format {

  /** Number of printf conversions in `s`: `%%` is an escaped percent sign and
      counts nothing, `%` followed by any other character is one conversion,
      and a `%` at the very end is an (incomplete) conversion too. */
  function Placeholders(s: string): nat {
    PlaceholdersFrom(s, 0)
  }

  /** Number of conversions in `s` from position `i` on. */
  function PlaceholdersFrom(s: string, i: nat): nat
    decreases |s| - i
  {
    if i >= |s| then 0
    else if s[i] != '%' then PlaceholdersFrom(s, i + 1)
    else if i + 1 == |s| then 1
    else (if s[i + 1] == '%' then 0 else 1) + PlaceholdersFrom(s, i + 2)
  }

  /** `s` does not end inside a conversion: every `%` is followed by the
      character that completes it. */
  predicate Closed(s: string) {
    ClosedFrom(s, 0)
  }

  /** `s` from position `i` on does not end inside a conversion. */
  predicate ClosedFrom(s: string, i: nat)
    decreases |s| - i
  {
    if i >= |s| then true
    else if s[i] != '%' then ClosedFrom(s, i + 1)
    else i + 1 < |s| && ClosedFrom(s, i + 2)
  }

  /** Text without any percent sign: identifiers, type names, digits. */
  predicate Plain(s: string) {
    forall i :: 0 <= i < |s| ==> s[i] != '%'
  }

  /** Plain text is closed and holds no conversion. */
  lemma PlainHasNoPlaceholders(s: string)
    requires Plain(s)
    ensures Closed(s) && Placeholders(s) == 0
  {
    PlainFrom(s, 0);
  }

  lemma {:induction false} PlainFrom(s: string, i: nat)
    requires Plain(s) && i <= |s|
    ensures ClosedFrom(s, i) && PlaceholdersFrom(s, i) == 0
    decreases |s| - i
  {
    if i < |s| {
      PlainFrom(s, i + 1);
    }
  }

  /** Counting is additive across a split point that does not cut a conversion. */
  lemma ClosedConcat(a: string, b: string)
    requires Closed(a)
    ensures Closed(a + b) == Closed(b)
    ensures Placeholders(a + b) == Placeholders(a) + Placeholders(b)
  {
    ClosedConcatFrom(a, b, 0);
  }

  lemma {:induction false} ClosedConcatFrom(a: string, b: string, i: nat)
    requires i <= |a| && ClosedFrom(a, i)
    ensures ClosedFrom(a + b, i) == ClosedFrom(b, 0)
    ensures PlaceholdersFrom(a + b, i) == PlaceholdersFrom(a, i) + PlaceholdersFrom(b, 0)
    decreases |a| - i
  {
    if i == |a| {
      ShiftFrom(a, b, 0);
    } else if a[i] != '%' {
      assert (a + b)[i] == a[i];
      ClosedConcatFrom(a, b, i + 1);
    } else {
      assert (a + b)[i] == a[i] && (a + b)[i + 1] == a[i + 1];
      ClosedConcatFrom(a, b, i + 2);
    }
  }

  /** Past the end of `a`, scanning `a + b` is scanning `b`. */
  lemma {:induction false} ShiftFrom(a: string, b: string, j: nat)
    requires j <= |b|
    ensures ClosedFrom(a + b, |a| + j) == ClosedFrom(b, j)
    ensures PlaceholdersFrom(a + b, |a| + j) == PlaceholdersFrom(b, j)
    decreases |b| - j
  {
    if j < |b| {
      assert (a + b)[|a| + j] == b[j];
      if j + 1 < |b| {
        assert (a + b)[|a| + j + 1] == b[j + 1];
        ShiftFrom(a, b, j + 2);
      }
      ShiftFrom(a, b, j + 1);
    }
  }

  /** A conversion `%c` written on its own. */
  lemma Conversion(c: char)
    ensures Closed(['%', c])
    ensures Placeholders(['%', c]) == if c == '%' then 0 else 1
  {
    assert ClosedFrom(['%', c], 2) && PlaceholdersFrom(['%', c], 2) == 0;
  }

  /** `s` escaped for a printf format: every `%` doubled. */
  function Escaped(s: string): string {
    if s == [] then []
    else (if s[0] == '%' then "%%" else [s[0]]) + Escaped(s[1..])
  }

  /** What printf prints for a format text without conversions: `%%` is one
      percent sign, every other character is itself. */
  function Unescaped(s: string): string
    decreases |s|
  {
    if s == [] then []
    else if |s| >= 2 && s[0] == '%' && s[1] == '%' then "%" + Unescaped(s[2..])
    else [s[0]] + Unescaped(s[1..])
  }

  /** An escaped text is a complete format with no conversion, and printf
      prints it back as the original text. */
  lemma {:induction false} EscapedRoundTrip(s: string)
    ensures Closed(Escaped(s)) && Placeholders(Escaped(s)) == 0
    ensures Unescaped(Escaped(s)) == s
    decreases |s|
  {
    if s != [] {
      EscapedRoundTrip(s[1..]);
      var head := if s[0] == '%' then "%%" else [s[0]];
      var e := head + Escaped(s[1..]);
      if s[0] == '%' {
        Conversion('%');
        assert e[0] == '%' && e[1] == '%' && e[2..] == Escaped(s[1..]);
      } else {
        PlainHasNoPlaceholders(head);
        assert e[1..] == Escaped(s[1..]);
      }
      ClosedConcat(head, Escaped(s[1..]));
    }
  }

  /** Text without `%` is its own escape. */
  lemma {:induction false} EscapedPlain(s: string)
    requires Plain(s)
    ensures Escaped(s) == s
    decreases |s|
  {
    if s != [] {
      assert Plain(s[1..]) by {
        forall i | 0 <= i < |s[1..]| ensures s[1..][i] != '%' { assert s[1..][i] == s[i + 1]; }
      }
      EscapedPlain(s[1..]);
    }
  }

  /** Concatenation of plain text stays plain. */
  lemma PlainConcat(a: string, b: string)
    requires Plain(a) && Plain(b)
    ensures Plain(a + b)
  {
    forall i | 0 <= i < |a + b| ensures (a + b)[i] != '%' {
      if i < |a| { assert (a + b)[i] == a[i]; } else { assert (a + b)[i] == b[i - |a|]; }
    }
  }

  predicate IsDigit(c: char) {
    '0' <= c <= '9'
  }

  function DigitChar(d: nat): (c: char)
    requires d < 10
    ensures IsDigit(c)
  {
    ('0' as int + d) as char
  }

  /** Decimal rendering of a natural number, without leading zeros. */
  function NatToString(n: nat): (r: string)
    ensures |r| >= 1
    ensures forall i :: 0 <= i < |r| ==> IsDigit(r[i])
    ensures n >= 10 <==> |r| >= 2
    decreases n
  {
    if n < 10 then [DigitChar(n)] else NatToString(n / 10) + [DigitChar(n % 10)]
  }

  /** Decimal rendering of an integer, with a leading `-` for negative values
      (what C++'s `to_string` produces). */
  function IntToString(i: int): (r: string)
    ensures Plain(r)
    ensures |r| >= 1 && (i < 0 <==> r[0] == '-')
  {
    if i < 0 then "-" + NatToString(-i) else NatToString(i)
  }

  /** Distinct numbers have distinct decimal renderings. */
  lemma {:induction false} NatToStringInjective(a: nat, b: nat)
    requires NatToString(a) == NatToString(b)
    ensures a == b
    decreases a
  {
    var sa, sb := NatToString(a), NatToString(b);
    if a >= 10 && b >= 10 {
      assert sa[|sa| - 1] == DigitChar(a % 10);
      assert sb[|sb| - 1] == DigitChar(b % 10);
      assert a % 10 == b % 10;
      assert sa[..|sa| - 1] == NatToString(a / 10);
      assert sb[..|sb| - 1] == NatToString(b / 10);
      NatToStringInjective(a / 10, b / 10);
    } else if a < 10 && b < 10 {
      assert sa[0] == DigitChar(a) && sb[0] == DigitChar(b);
    }
  }

  /** Distinct integers have distinct renderings. */
  lemma IntToStringInjective(a: int, b: int)
    requires IntToString(a) == IntToString(b)
    ensures a == b
  {
    var sa := IntToString(a);
    if a < 0 {
      assert sa[1..] == NatToString(-a) && sa[1..] == NatToString(-b);
      NatToStringInjective(-a, -b);
    } else {
      NatToStringInjective(a, b);
    }
  }

  /** C++ `int64_t`, the type of an integer literal's value. */
  newtype int64 = x: int | -0x8000_0000_0000_0000 <= x < 0x8000_0000_0000_0000

  /** The `(int32_t)` cast: keeps the low 32 bits, read as two's complement. */
  function Int32(v: int): (r: int)
    ensures -0x8000_0000 <= r < 0x8000_0000
    ensures (v - r) % 0x1_0000_0000 == 0
    ensures -0x8000_0000 <= v < 0x8000_0000 ==> r == v
  {
    (v + 0x8000_0000) % 0x1_0000_0000 - 0x8000_0000
  }

  /** The concatenation of `f(x)` over `xs`, in order. */
  function Flatten<T, U>(xs: seq<T>, f: T -> seq<U>): seq<U> {
    if xs == [] then [] else f(xs[0]) + Flatten(xs[1..], f)
  }

  lemma {:induction false} FlattenAppend<T, U>(a: seq<T>, b: seq<T>, f: T -> seq<U>)
    ensures Flatten(a + b, f) == Flatten(a, f) + Flatten(b, f)
    decreases |a|
  {
    if a == [] {
      assert a + b == b;
    } else {
      assert (a + b)[1..] == a[1..] + b;
      FlattenAppend(a[1..], b, f);
    }
  }

  /** One more element, one more piece at the end: the step of a loop over `xs`. */
  lemma FlattenSnoc<T, U>(xs: seq<T>, i: nat, f: T -> seq<U>)
    requires i < |xs|
    ensures Flatten(xs[..i + 1], f) == Flatten(xs[..i], f) + f(xs[i])
  {
    assert xs[..i + 1] == xs[..i] + [xs[i]];
    FlattenAppend(xs[..i], [xs[i]], f);
    assert [xs[i]][1..] == [];
  }

  /** Nothing is produced exactly when every element produces nothing. */
  lemma {:induction false} FlattenEmpty<T, U>(xs: seq<T>, f: T -> seq<U>)
    ensures Flatten(xs, f) == [] <==> forall k :: 0 <= k < |xs| ==> f(xs[k]) == []
    decreases |xs|
  {
    if xs != [] {
      FlattenEmpty(xs[1..], f);
      assert forall k :: 0 < k < |xs| ==> xs[1..][k - 1] == xs[k];
    }
  }

  /** The concatenation of `pieces`, in order. */
  function Join(pieces: seq<string>): string {
    if pieces == [] then "" else pieces[0] + Join(pieces[1..])
  }

  lemma {:induction false} JoinSnoc(pieces: seq<string>, last: string)
    ensures Join(pieces + [last]) == Join(pieces) + last
    decreases |pieces|
  {
    if pieces == [] {
      assert [last][1..] == [];
    } else {
      assert (pieces + [last])[1..] == pieces[1..] + [last];
      JoinSnoc(pieces[1..], last);
    }
  }

  lemma {:induction false} JoinAppend(a: seq<string>, b: seq<string>)
    ensures Join(a + b) == Join(a) + Join(b)
    decreases |a|
  {
    if a == [] {
      assert a + b == b;
    } else {
      assert (a + b)[1..] == a[1..] + b;
      JoinAppend(a[1..], b);
    }
  }

  lemma AppendAssoc<T>(a: seq<T>, b: seq<T>, c: seq<T>)
    ensures a + b + c == a + (b + c)
  {
  }

  /** Four appends in a row append the four pieces together. */
  lemma AppendChain<T>(base: seq<T>, a: seq<T>, b: seq<T>, c: seq<T>, d: seq<T>,
                       mid: seq<T>, mid2: seq<T>, mid3: seq<T>, after: seq<T>)
    requires mid == base + a && mid2 == mid + b && mid3 == mid2 + c && after == mid3 + d
    ensures after == base + (a + b + c + d)
  {
    AppendAssoc(base, a, b);
    AppendAssoc(base, a + b, c);
    AppendAssoc(base, a + b + c, d);
  }

  /** Plain pieces join into plain text. */
  lemma {:induction false} JoinPlain(pieces: seq<string>)
    requires forall k :: 0 <= k < |pieces| ==> Plain(pieces[k])
    ensures Plain(Join(pieces))
    decreases |pieces|
  {
    if pieces != [] {
      JoinPlain(pieces[1..]);
      PlainConcat(pieces[0], Join(pieces[1..]));
    }
  }
}
