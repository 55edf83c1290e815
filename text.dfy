/** The string operations of the Go standard library the core relies on:
    `strconv.Itoa` and `fmt`'s `%d`, `strconv.ParseInt(s, 10, 64)`,
    `strings.Join`; and, as their partners, a splitter and a form-body reader. */
module Text {
  import opened Common

  function DigitChar(d: nat): char
    requires d < 10
  {
    ('0' as int + d) as char
  }

  function DigitValue(c: char): Option<nat> {
    if '0' <= c <= '9' then Some(c as int - '0' as int) else None
  }

  /** The decimal digits of a non-negative number, most significant first. */
  function NatDecimal(n: nat): (s: string)
    ensures |s| > 0
    ensures forall i :: 0 <= i < |s| ==> '0' <= s[i] <= '9'
    decreases n
  {
    if n < 10 then [DigitChar(n)] else NatDecimal(n / 10) + [DigitChar(n % 10)]
  }

  /** `strconv.Itoa(n)`, which is also what `fmt` prints for `%d`. */
  function Decimal(n: int): string {
    if n < 0 then "-" + NatDecimal(-n) else NatDecimal(n)
  }

  /** The value of a non-empty string of decimal digits. */
  function DigitsValue(s: string): Option<nat>
    decreases |s|
  {
    if |s| == 0 then None
    else
      var d := DigitValue(s[|s| - 1]);
      if d.None? then None
      else if |s| == 1 then Some(d.value)
      else
        var p := DigitsValue(s[..|s| - 1]);
        if p.None? then None else Some(p.value * 10 + d.value)
  }

  /** `strconv.ParseInt(s, 10, 64)`: an optional sign, then at least one
      decimal digit, and the value must fit in 64 bits. */
  function ParseInt(s: string): Option<GoInt> {
    if |s| > 0 && (s[0] == '-' || s[0] == '+') then
      var v := DigitsValue(s[1..]);
      if v.None? then None
      else
        var n: int := if s[0] == '-' then 0 - v.value else v.value;
        if MinInt <= n <= MaxInt then Some(n) else None
    else
      var v := DigitsValue(s);
      if v.Some? && v.value <= MaxInt then Some(v.value) else None
  }

  lemma {:induction false} DigitsOfNatDecimal(n: nat)
    ensures DigitsValue(NatDecimal(n)) == Some(n)
    decreases n
  {
    if n >= 10 {
      var s := NatDecimal(n);
      assert s[..|s| - 1] == NatDecimal(n / 10);
      DigitsOfNatDecimal(n / 10);
    }
  }

  lemma ParseSigned(s: string, v: nat)
    requires |s| > 0 && s[0] == '-' && DigitsValue(s[1..]) == Some(v)
    requires v <= -MinInt
    ensures ParseInt(s) == Some(0 - v)
  {
  }

  lemma ParseUnsigned(s: string, v: nat)
    requires |s| > 0 && '0' <= s[0] <= '9' && DigitsValue(s) == Some(v)
    requires v <= MaxInt
    ensures ParseInt(s) == Some(v)
  {
  }

  /** Reading back what `strconv.Itoa` printed gives the number again. */
  lemma DecimalRoundTrip(n: GoInt)
    ensures ParseInt(Decimal(n)) == Some(n)
  {
    if n < 0 {
      var digits := NatDecimal(0 - n);
      var s := "-" + digits;
      assert s[1..] == digits;
      DigitsOfNatDecimal(0 - n);
      ParseSigned(s, 0 - n);
    } else {
      DigitsOfNatDecimal(n);
      ParseUnsigned(NatDecimal(n), n);
    }
  }

  /** `strings.Join(xs, sep)`. */
  function Join(xs: seq<string>, sep: string): string {
    if |xs| == 0 then ""
    else if |xs| == 1 then xs[0]
    else xs[0] + sep + Join(xs[1..], sep)
  }

  /** `strings.Split(s, string(c))`: the pieces between the occurrences of `c`. */
  function Split(s: string, c: char): (r: seq<string>)
    ensures |r| > 0
    decreases |s|
  {
    if |s| == 0 then [""]
    else
      var rest := Split(s[1..], c);
      if s[0] == c then [""] + rest else [[s[0]] + rest[0]] + rest[1..]
  }

  lemma {:induction false} SplitWithout(a: string, c: char)
    requires c !in a
    ensures Split(a, c) == [a]
  {
    if |a| > 0 {
      SplitWithout(a[1..], c);
      assert [a[0]] + a[1..] == a;
    }
  }

  lemma {:induction false} SplitAt(a: string, b: string, c: char)
    requires c !in a
    ensures Split(a + [c] + b, c) == [a] + Split(b, c)
  {
    var s := a + [c] + b;
    if |a| == 0 {
      assert s[1..] == b;
    } else {
      assert s[1..] == a[1..] + [c] + b;
      SplitAt(a[1..], b, c);
      assert [a[0]] + a[1..] == a;
    }
  }

  /** Joining pieces that do not contain the separator can be undone by
      splitting: the joined string determines the list it was made from. */
  lemma {:induction false} SplitJoin(xs: seq<string>, c: char)
    requires |xs| > 0
    requires forall i :: 0 <= i < |xs| ==> c !in xs[i]
    ensures Split(Join(xs, [c]), c) == xs
    decreases |xs|
  {
    if |xs| == 1 {
      SplitWithout(xs[0], c);
    } else {
      SplitJoin(xs[1..], c);
      SplitAt(xs[0], Join(xs[1..], [c]), c);
      assert [xs[0]] + xs[1..] == xs;
    }
  }

  /** The part of `s` before the first `c` and the part after it (all of `s`
      and "" when there is none), as `strings.Cut` gives them. */
  function Cut(s: string, c: char): (r: (string, string))
    decreases |s|
  {
    if |s| == 0 then ("", "")
    else if s[0] == c then ("", s[1..])
    else var r := Cut(s[1..], c); ([s[0]] + r.0, r.1)
  }

  lemma {:induction false} CutAt(k: string, v: string, c: char)
    requires c !in k
    ensures Cut(k + [c] + v, c) == (k, v)
    decreases |k|
  {
    var s := k + [c] + v;
    if |k| == 0 {
      assert s[1..] == v;
    } else {
      assert s[1..] == k[1..] + [c] + v;
      CutAt(k[1..], v, c);
      assert [k[0]] + k[1..] == k;
    }
  }

  /** The name/value pairs of an `application/x-www-form-urlencoded` body,
      in order, without percent-decoding. */
  function FormPairs(body: string): seq<(string, string)> {
    var pieces := Split(body, '&');
    seq(|pieces|, i requires 0 <= i < |pieces| => Cut(pieces[i], '='))
  }

  /** The form body made of `pairs`, written `name=value&name=value...`. */
  function FormBody(pairs: seq<(string, string)>): string {
    Join(seq(|pairs|, i requires 0 <= i < |pairs| => pairs[i].0 + "=" + pairs[i].1), "&")
  }

  /** A form body whose names contain neither '=' nor '&' and whose values
      contain no '&' reads back as the pairs it was written from. */
  lemma FormRoundTrip(pairs: seq<(string, string)>)
    requires |pairs| > 0
    requires forall i :: 0 <= i < |pairs| ==> '=' !in pairs[i].0 && '&' !in pairs[i].0 && '&' !in pairs[i].1
    ensures FormPairs(FormBody(pairs)) == pairs
  {
    var pieces := seq(|pairs|, i requires 0 <= i < |pairs| => pairs[i].0 + "=" + pairs[i].1);
    SplitJoin(pieces, '&');
    forall i | 0 <= i < |pairs|
      ensures Cut(pieces[i], '=') == pairs[i]
    {
      CutAt(pairs[i].0, pairs[i].1, '=');
    }
  }
}
