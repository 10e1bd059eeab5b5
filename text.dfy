/** The string operations the engine borrows from JavaScript: `split` on a
    single character, joining fields, decimal printing of numbers,
    `parseInt` and `toLowerCase` on letters. */
module Text {
  import opened Wrappers

  // ---------------------------------------------------------------------
  // split / join

  /** `s.split(c)`: the pieces between occurrences of c, in order; an empty
      string splits into one empty piece. */
  function Split(s: string, c: char): (r: seq<string>)
    ensures |r| >= 1
    ensures forall k :: 0 <= k < |r| ==> c !in r[k]
    decreases |s|
  {
    if |s| == 0 then [""]
    else
      var rest := Split(s[1..], c);
      if s[0] == c then [""] + rest
      else [[s[0]] + rest[0]] + rest[1..]
  }

  /** The fields joined with a separator between neighbours. */
  function Join(fs: seq<string>, c: char): string
    requires |fs| >= 1
    decreases |fs|
  {
    if |fs| == 1 then fs[0] else fs[0] + [c] + Join(fs[1..], c)
  }

  /** Joining one more field appends the separator and the field. */
  lemma {:induction false} JoinSnoc(fs: seq<string>, x: string, sep: char)
    requires |fs| >= 1
    ensures Join(fs + [x], sep) == Join(fs, sep) + [sep] + x
    decreases |fs|
  {
    if |fs| == 1 {
      assert (fs + [x])[1..] == [x];
    } else {
      assert (fs + [x])[1..] == fs[1..] + [x];
      JoinSnoc(fs[1..], x, sep);
    }
  }

  /** A character other than the separator that no field contains is not
      in the joined string. */
  lemma {:induction false} JoinAvoids(fs: seq<string>, sep: char, c: char)
    requires |fs| >= 1 && c != sep
    requires forall k :: 0 <= k < |fs| ==> c !in fs[k]
    ensures c !in Join(fs, sep)
    decreases |fs|
  {
    if |fs| > 1 {
      JoinAvoids(fs[1..], sep, c);
    }
  }

  /** Joining the pieces of a split gives back the string. */
  lemma {:induction false} JoinSplit(s: string, c: char)
    ensures Join(Split(s, c), c) == s
    decreases |s|
  {
    if |s| > 0 {
      var rest := Split(s[1..], c);
      JoinSplit(s[1..], c);
      if s[0] == c {
        assert Split(s, c) == [""] + rest;
        assert Split(s, c)[1..] == rest;
        assert s == [c] + s[1..];
      } else if |rest| == 1 {
        assert Split(s, c) == [[s[0]] + rest[0]];
        assert s == [s[0]] + s[1..];
      } else {
        var r := Split(s, c);
        assert r == [[s[0]] + rest[0]] + rest[1..];
        assert r[1..] == rest[1..];
        assert Join(rest, c) == rest[0] + [c] + Join(rest[1..], c);
        assert s == [s[0]] + s[1..];
      }
    }
  }

  /** Splitting fields that do not contain the separator gives back the
      fields. */
  lemma {:induction false} SplitJoin(fs: seq<string>, c: char)
    requires |fs| >= 1
    requires forall k :: 0 <= k < |fs| ==> c !in fs[k]
    ensures Split(Join(fs, c), c) == fs
    decreases |fs|
  {
    if |fs| == 1 {
      SplitPlain(fs[0], c);
    } else {
      SplitJoin(fs[1..], c);
      SplitFront(fs[0], Join(fs[1..], c), c);
      assert fs == [fs[0]] + fs[1..];
    }
  }

  lemma {:induction false} SplitPlain(f: string, c: char)
    requires c !in f
    ensures Split(f, c) == [f]
    decreases |f|
  {
    if |f| > 0 {
      SplitPlain(f[1..], c);
      assert f == [f[0]] + f[1..];
    }
  }

  lemma {:induction false} SplitFront(f: string, t: string, c: char)
    requires c !in f
    ensures Split(f + [c] + t, c) == [f] + Split(t, c)
    decreases |f|
  {
    var s := f + [c] + t;
    if |f| == 0 {
      assert s[0] == c && s[1..] == t;
    } else {
      assert s[0] == f[0] && s[1..] == f[1..] + [c] + t;
      SplitFront(f[1..], t, c);
      assert f == [f[0]] + f[1..];
    }
  }

  // ---------------------------------------------------------------------
  // numbers

  predicate IsDigit(c: char)
  {
    '0' <= c <= '9'
  }

  function DigitChar(d: int): (c: char)
    requires 0 <= d < 10
    ensures IsDigit(c) && c as int - '0' as int == d
  {
    ('0' as int + d) as char
  }

  /** The decimal digits of n, without leading zeros. */
  function NatDigits(n: nat): (s: string)
    ensures |s| >= 1 && forall k :: 0 <= k < |s| ==> IsDigit(s[k])
  {
    if n < 10 then [DigitChar(n)] else NatDigits(n / 10) + [DigitChar(n % 10)]
  }

  /** A number as JavaScript prints an integer into a string. */
  function IntToString(n: int): (s: string)
    ensures |s| >= 1
    ensures ' ' !in s && '/' !in s
  {
    if n < 0 then "-" + NatDigits(-n) else NatDigits(n)
  }

  /** The value of a string of decimal digits, read left to right. */
  function DigitsValue(s: string): (v: nat)
    requires forall k :: 0 <= k < |s| ==> IsDigit(s[k])
  {
    if |s| == 0 then 0
    else
      assert IsDigit(s[|s| - 1]);
      DigitsValue(s[..|s| - 1]) * 10 + (s[|s| - 1] as int - '0' as int)
  }

  /** The number of leading decimal digits of s. */
  function LeadingDigits(s: string): (k: nat)
    ensures k <= |s| && forall j :: 0 <= j < k ==> IsDigit(s[j])
    ensures k < |s| ==> !IsDigit(s[k])
  {
    if |s| == 0 || !IsDigit(s[0]) then 0 else 1 + LeadingDigits(s[1..])
  }

  /** `parseInt(s)` for a field without white space: an optional sign and
      the value of the digits that follow, up to the first other character.
      No digits at all (JavaScript's NaN) and a "0x" prefix, which
      JavaScript would read as hexadecimal, give None. */
  function ParseInt(s: string): (r: Option<int>)
  {
    var neg := |s| > 0 && s[0] == '-';
    var body := if |s| > 0 && (s[0] == '-' || s[0] == '+') then s[1..] else s;
    var k := LeadingDigits(body);
    if k == 0 || (|body| >= 2 && body[0] == '0' && (body[1] == 'x' || body[1] == 'X')) then None
    else
      var v: int := DigitsValue(body[..k]);
      Some(if neg then -v else v)
  }

  lemma {:induction false} DigitsOfNat(n: nat)
    ensures DigitsValue(NatDigits(n)) == n
  {
    var s := NatDigits(n);
    if n >= 10 {
      DigitsOfNat(n / 10);
      assert s[..|s| - 1] == NatDigits(n / 10);
    }
  }

  lemma {:induction false} AllDigitsLead(s: string)
    requires forall k :: 0 <= k < |s| ==> IsDigit(s[k])
    ensures LeadingDigits(s) == |s|
    decreases |s|
  {
    if |s| > 0 {
      AllDigitsLead(s[1..]);
    }
  }

  /** Reading back a printed number gives the number. */
  lemma ParseIntToString(n: int)
    ensures ParseInt(IntToString(n)) == Some(n)
  {
    var ds := NatDigits(if n < 0 then -n else n);
    AllDigitsLead(ds);
    DigitsOfNat(if n < 0 then -n else n);
    if n < 0 {
      assert IntToString(n)[1..] == ds;
    }
    assert ds[..|ds|] == ds;
  }

  // ---------------------------------------------------------------------
  // letters

  /** `toLowerCase` on one character; only ASCII letters change. */
  function LowerCase(c: char): (l: char)
    ensures 'A' <= c <= 'Z' ==> 'a' <= l <= 'z' && l as int - 'a' as int == c as int - 'A' as int
    ensures !('A' <= c <= 'Z') ==> l == c
  {
    if 'A' <= c <= 'Z' then (c as int - 'A' as int + 'a' as int) as char else c
  }
}
