/** String helpers with the meaning Python gives them: `str.join`,
    `str.split` on one character, `str.lower` on ASCII, `str.isspace`,
    `in` on strings, `str(n)` for a natural number and the `:,` format
    (thousands separated by commas). */
module Text {

  /** `sep.join(xs)`. */
  function Join(xs: seq<string>, sep: string): string
  {
    if |xs| == 0 then ""
    else if |xs| == 1 then xs[0]
    else xs[0] + sep + Join(xs[1..], sep)
  }

  /** Joining one more element adds the separator and that element at the end. */
  lemma {:induction false} JoinAppend(xs: seq<string>, x: string, sep: string)
    requires xs != []
    ensures Join(xs + [x], sep) == Join(xs, sep) + sep + x
  {
    if |xs| == 1 {
      assert xs + [x] == [xs[0], x];
    } else {
      assert (xs + [x])[1..] == xs[1..] + [x];
      JoinAppend(xs[1..], x, sep);
    }
  }

  /** `s.split(c)` for a single separator character: never empty. */
  function Split(s: string, c: char): (r: seq<string>)
    ensures |r| >= 1
  {
    if |s| == 0 then [""]
    else if s[0] == c then [""] + Split(s[1..], c)
    else
      var rest := Split(s[1..], c);
      [[s[0]] + rest[0]] + rest[1..]
  }

  lemma {:induction false} SplitWithout(s: string, c: char)
    requires c !in s
    ensures Split(s, c) == [s]
  {
    if |s| > 0 {
      assert c !in s[1..] by { assert forall k :: 0 <= k < |s[1..]| ==> s[1..][k] == s[k + 1]; }
      SplitWithout(s[1..], c);
      assert [s[0]] + s[1..] == s;
    }
  }

  lemma {:induction false} SplitAtFirst(a: string, c: char, b: string)
    requires c !in a
    ensures Split(a + [c] + b, c) == [a] + Split(b, c)
  {
    if |a| == 0 {
      assert a + [c] + b == [c] + b;
      assert ([c] + b)[1..] == b;
    } else {
      assert (a + [c] + b)[0] == a[0];
      assert (a + [c] + b)[1..] == a[1..] + [c] + b;
      assert c !in a[1..] by { assert forall k :: 0 <= k < |a[1..]| ==> a[1..][k] == a[k + 1]; }
      SplitAtFirst(a[1..], c, b);
      assert [a[0]] + a[1..] == a;
    }
  }

  /** Splitting a join on a character none of the parts contains gives the parts back. */
  lemma {:induction false} SplitJoin(xs: seq<string>, c: char)
    requires |xs| >= 1
    requires forall k :: 0 <= k < |xs| ==> c !in xs[k]
    ensures Split(Join(xs, [c]), c) == xs
  {
    if |xs| == 1 {
      SplitWithout(xs[0], c);
    } else {
      SplitJoin(xs[1..], c);
      assert Join(xs, [c]) == xs[0] + [c] + Join(xs[1..], [c]);
      SplitAtFirst(xs[0], c, Join(xs[1..], [c]));
      assert [xs[0]] + xs[1..] == xs;
    }
  }

  predicate StartsWith(s: string, prefix: string)
  {
    |prefix| <= |s| && s[..|prefix|] == prefix
  }

  /** Python's `k in s` on two strings: `k` occurs somewhere in `s`. */
  predicate IsSubstring(k: string, s: string)
  {
    exists i :: 0 <= i <= |s| - |k| && OccursAt(k, s, i)
  }

  predicate OccursAt(k: string, s: string, i: int)
    requires 0 <= i <= |s| - |k|
  {
    s[i..i + |k|] == k
  }

  function LowerChar(c: char): char
  {
    if 'A' <= c <= 'Z' then (c as int + 32) as char else c
  }

  /** `s.lower()` restricted to ASCII letters; every other character is kept. */
  function Lower(s: string): (r: string)
    ensures |r| == |s|
    ensures forall k :: 0 <= k < |s| ==> r[k] == LowerChar(s[k])
  {
    if |s| == 0 then "" else [LowerChar(s[0])] + Lower(s[1..])
  }

  /** The only answers that lower-case to "y" are "y" and "Y". */
  lemma LowerIsY(s: string)
    ensures Lower(s) == "y" <==> s == "y" || s == "Y"
  {
    if Lower(s) == "y" {
      assert |s| == 1 && LowerChar(s[0]) == 'y';
      assert s == [s[0]];
    }
  }

  /** The characters for which Python's `str.isspace()` holds. */
  predicate IsSpace(c: char)
  {
    c == ' ' || ('\t' <= c <= '\r') || ('\U{1C}' <= c <= '\U{1F}')
    || c == '\U{85}' || c == '\U{A0}' || c == '\U{1680}'
    || ('\U{2000}' <= c <= '\U{200A}') || c == '\U{2028}' || c == '\U{2029}'
    || c == '\U{202F}' || c == '\U{205F}' || c == '\U{3000}'
  }

  /** `not s.strip()`: the string is empty or all whitespace. */
  predicate IsBlank(s: string)
  {
    forall k :: 0 <= k < |s| ==> IsSpace(s[k])
  }

  function DigitChar(d: nat): char
    requires d < 10
  {
    "0123456789"[d]
  }

  /** `str(n)` for a natural number. */
  function Digits(n: nat): (r: string)
    ensures |r| >= 1
  {
    if n < 10 then [DigitChar(n)] else Digits(n / 10) + [DigitChar(n % 10)]
  }

  /** The three digits of `k`, with leading zeros. */
  function Pad3(k: nat): string
    requires k < 1000
  {
    [DigitChar(k / 100), DigitChar(k / 10 % 10), DigitChar(k % 10)]
  }

  /** `f"{n:,}"`: the decimal digits of `n` with a comma between groups of three. */
  function GroupThousands(n: nat): string
  {
    if n < 1000 then Digits(n) else GroupThousands(n / 1000) + "," + Pad3(n % 1000)
  }

  function RemoveCommas(s: string): (r: string)
  {
    if |s| == 0 then ""
    else (if s[0] == ',' then "" else [s[0]]) + RemoveCommas(s[1..])
  }

  lemma {:induction false} RemoveCommasConcat(a: string, b: string)
    ensures RemoveCommas(a + b) == RemoveCommas(a) + RemoveCommas(b)
  {
    if |a| > 0 {
      assert (a + b)[0] == a[0];
      assert (a + b)[1..] == a[1..] + b;
      RemoveCommasConcat(a[1..], b);
    } else {
      assert a + b == b;
    }
  }

  lemma {:induction false} RemoveCommasDigits(n: nat)
    ensures RemoveCommas(Digits(n)) == Digits(n)
  {
    if n < 10 {
      assert RemoveCommas([DigitChar(n)]) == [DigitChar(n)] + RemoveCommas([]);
    } else {
      RemoveCommasDigits(n / 10);
      RemoveCommasConcat(Digits(n / 10), [DigitChar(n % 10)]);
      assert RemoveCommas([DigitChar(n % 10)]) == [DigitChar(n % 10)] + RemoveCommas([]);
    }
  }

  lemma DivMod10(x: nat, y: nat)
    requires y < 10
    ensures (10 * x + y) / 10 == x && (10 * x + y) % 10 == y
  {
  }

  /** Dropping the last three decimal digits of `n` leaves `n / 1000`, and
      those three are the digits of `n % 1000`. */
  lemma ThousandsArith(n: nat)
    ensures n / 10 / 10 / 10 == n / 1000
    ensures n / 10 / 10 % 10 == n % 1000 / 100
    ensures n / 10 % 10 == n % 1000 / 10 % 10
    ensures n % 10 == n % 1000 % 10
  {
    var q, r := n / 1000, n % 1000;
    var a, b, c := r / 100, r / 10 % 10, r % 10;
    assert r == 100 * a + 10 * b + c;
    assert n == 10 * (100 * q + 10 * a + b) + c;
    DivMod10(100 * q + 10 * a + b, c);
    assert 100 * q + 10 * a + b == 10 * (10 * q + a) + b;
    DivMod10(10 * q + a, b);
    DivMod10(q, a);
  }

  lemma DigitsOfThousands(n: nat)
    requires n >= 1000
    ensures Digits(n) == Digits(n / 1000) + Pad3(n % 1000)
  {
    ThousandsArith(n);
    var n1, n2 := n / 10, n / 10 / 10;
    assert Digits(n) == Digits(n1) + [DigitChar(n % 10)];
    assert Digits(n1) == Digits(n2) + [DigitChar(n1 % 10)];
    assert Digits(n2) == Digits(n2 / 10) + [DigitChar(n2 % 10)];
  }

  lemma RemoveCommasPad3(k: nat)
    requires k < 1000
    ensures RemoveCommas(Pad3(k)) == Pad3(k)
  {
    var p := Pad3(k);
    assert RemoveCommas(p) == [p[0]] + RemoveCommas(p[1..]);
    assert RemoveCommas(p[1..]) == [p[1]] + RemoveCommas(p[2..]);
    assert RemoveCommas(p[2..]) == [p[2]] + RemoveCommas(p[3..]);
  }

  /** Grouping only inserts commas: removing them gives back `str(n)`. */
  lemma {:induction false} GroupThousandsDigits(n: nat)
    ensures RemoveCommas(GroupThousands(n)) == Digits(n)
  {
    if n < 1000 {
      RemoveCommasDigits(n);
    } else {
      var g := GroupThousands(n / 1000);
      GroupThousandsDigits(n / 1000);
      RemoveCommasConcat(g + ",", Pad3(n % 1000));
      RemoveCommasConcat(g, ",");
      assert RemoveCommas(",") == "" + RemoveCommas("");
      RemoveCommasPad3(n % 1000);
      DigitsOfThousands(n);
    }
  }
}
