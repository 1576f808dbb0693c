/**
 * The few Go string and number helpers the service's decisions depend on:
 * strings.HasPrefix, strings.HasSuffix, slices.Contains, strings.Split on a
 * one-character separator and strconv.ParseInt in base 10 with 64 bits,
 * each with a partner that pins it down (its inverse or what it means).
 */
module GoStrings {
  import opened AccessControl

  const MinInt64: int := -0x8000_0000_0000_0000
  const MaxInt64: int := 0x7FFF_FFFF_FFFF_FFFF

  /** strings.HasPrefix */
  predicate HasPrefix(s: string, prefix: string)
  {
    |prefix| <= |s| && s[..|prefix|] == prefix
  }

  /** strings.HasSuffix */
  predicate HasSuffix(s: string, suffix: string)
  {
    |suffix| <= |s| && s[|s| - |suffix|..] == suffix
  }

  /** slices.Contains, scanning from the front. */
  function Contains(xs: seq<string>, x: string): (r: bool)
    ensures r <==> x in xs
  {
    if xs == [] then false
    else xs[0] == x || Contains(xs[1..], x)
  }

  /** strings.Split(s, [sep]): the pieces between the separators, at least one. */
  function Split(s: string, sep: char): (parts: seq<string>)
    ensures |parts| >= 1
    ensures forall i :: 0 <= i < |parts| ==> sep !in parts[i]
    decreases |s|
  {
    if s == [] then [""]
    else
      var init := Split(s[..|s| - 1], sep);
      var c := s[|s| - 1];
      if c == sep then init + [""]
      else init[..|init| - 1] + [init[|init| - 1] + [c]]
  }

  /** strings.Join(parts, [sep]) */
  function Join(parts: seq<string>, sep: char): string
    requires |parts| >= 1
    decreases |parts|
  {
    if |parts| == 1 then parts[0]
    else Join(parts[..|parts| - 1], sep) + [sep] + parts[|parts| - 1]
  }

  lemma {:induction false} JoinSplit(s: string, sep: char)
    ensures Join(Split(s, sep), sep) == s
    decreases |s|
  {
    if s != [] {
      var init := Split(s[..|s| - 1], sep);
      var c := s[|s| - 1];
      JoinSplit(s[..|s| - 1], sep);
      assert s == s[..|s| - 1] + [c];
      if c == sep {
        assert Split(s, sep) == init + [""];
        assert (init + [""])[..|init|] == init;
        assert Join(init + [""], sep) == Join(init, sep) + [sep] + "";
      } else {
        assert Split(s, sep) == init[..|init| - 1] + [init[|init| - 1] + [c]];
        JoinExtendLast(init, sep, c);
      }
    }
  }

  /** Extending the last part by one character extends the join by it. */
  lemma JoinExtendLast(parts: seq<string>, sep: char, c: char)
    requires |parts| >= 1
    ensures Join(parts[..|parts| - 1] + [parts[|parts| - 1] + [c]], sep) == Join(parts, sep) + [c]
  {
    var n := |parts|;
    var q := parts[..n - 1] + [parts[n - 1] + [c]];
    if n > 1 {
      assert q[..n - 1] == parts[..n - 1];
      assert Join(q, sep) == Join(parts[..n - 1], sep) + [sep] + (parts[n - 1] + [c]);
    }
  }

  /** Splitting a join of separator-free parts gives the parts back. */
  lemma {:induction false} SplitJoin(parts: seq<string>, sep: char)
    requires |parts| >= 1
    requires forall i :: 0 <= i < |parts| ==> sep !in parts[i]
    ensures Split(Join(parts, sep), sep) == parts
    decreases |parts|, |parts[|parts| - 1]|
  {
    var last := parts[|parts| - 1];
    if |parts| == 1 {
      SplitNoSep(last, sep);
    } else {
      var front := Join(parts[..|parts| - 1], sep);
      SplitJoin(parts[..|parts| - 1], sep);
      SplitAfterSep(front, last, sep);
      assert parts[..|parts| - 1] + [last] == parts;
    }
  }

  lemma {:induction false} SplitNoSep(s: string, sep: char)
    requires sep !in s
    ensures Split(s, sep) == [s]
    decreases |s|
  {
    if s != [] {
      assert sep !in s[..|s| - 1];
      SplitNoSep(s[..|s| - 1], sep);
      assert s[..|s| - 1] + [s[|s| - 1]] == s;
    }
  }

  /** Appending a separator and a separator-free piece adds exactly that piece. */
  lemma {:induction false} SplitAfterSep(front: string, piece: string, sep: char)
    requires sep !in piece
    ensures Split(front + [sep] + piece, sep) == Split(front, sep) + [piece]
    decreases |piece|
  {
    var s := front + [sep] + piece;
    if piece == [] {
      assert s[..|s| - 1] == front;
    } else {
      var shorter := piece[..|piece| - 1];
      assert sep !in shorter;
      SplitAfterSep(front, shorter, sep);
      assert s[..|s| - 1] == front + [sep] + shorter;
      assert shorter + [piece[|piece| - 1]] == piece;
    }
  }

  predicate IsDigit(c: char) { '0' <= c <= '9' }

  predicate AllDigits(s: string) { forall i :: 0 <= i < |s| ==> IsDigit(s[i]) }

  /** The value of a string of decimal digits, most significant first. */
  function DigitsValue(s: string): (v: nat)
    requires AllDigits(s)
    decreases |s|
  {
    if s == [] then 0
    else DigitsValue(s[..|s| - 1]) * 10 + ((s[|s| - 1] as int) - ('0' as int))
  }

  /** The value of a non-empty string of decimal digits, or None. */
  function ParseDecimal(s: string): Option<nat>
    decreases |s|
  {
    if s == [] || !IsDigit(s[|s| - 1]) then None
    else
      var d := (s[|s| - 1] as int) - ('0' as int);
      if |s| == 1 then Some(d)
      else
        match ParseDecimal(s[..|s| - 1])
        case None => None
        case Some(v) => Some(v * 10 + d)
  }

  /** ParseDecimal accepts exactly the non-empty digit strings, with their value. */
  lemma {:induction false} ParseDecimalMeaning(s: string)
    ensures ParseDecimal(s).Some? <==> s != [] && AllDigits(s)
    ensures ParseDecimal(s).Some? ==> ParseDecimal(s).value == DigitsValue(s)
    decreases |s|
  {
    if |s| > 1 {
      ParseDecimalMeaning(s[..|s| - 1]);
      if IsDigit(s[|s| - 1]) && AllDigits(s[..|s| - 1]) {
        assert AllDigits(s);
      }
    }
  }

  /**
   * strconv.ParseInt(s, 10, 64): an optional sign, at least one decimal
   * digit, and a value that fits in 64 bits; anything else is an error.
   */
  function ParseInt64(s: string): (r: Option<int>)
    ensures r.Some? ==> MinInt64 <= r.value <= MaxInt64
  {
    if s == [] then None
    else
      var digits := if s[0] == '+' || s[0] == '-' then s[1..] else s;
      match ParseDecimal(digits)
      case None => None
      case Some(magnitude) =>
        var v: int := if s[0] == '-' then -(magnitude as int) else magnitude;
        if MinInt64 <= v <= MaxInt64 then Some(v) else None
  }

  /** The shortest decimal digits of a natural number. */
  function Decimal(n: nat): (s: string)
    ensures |s| >= 1 && AllDigits(s)
    decreases n
  {
    var d := [('0' as int + n % 10) as char];
    if n < 10 then d else Decimal(n / 10) + d
  }

  /** strconv.FormatInt(n, 10) */
  function FormatInt(n: int): string
  {
    if n < 0 then "-" + Decimal(-n) else Decimal(n)
  }

  /** A formatted integer is a sign and digits, so it never holds a scope separator. */
  lemma FormatIntNoColon(n: int)
    ensures ':' !in FormatInt(n)
  {
    var s := FormatInt(n);
    if n < 0 {
      assert forall i :: 1 <= i < |s| ==> s[i] == Decimal(-n)[i - 1];
    }
  }

  lemma {:induction false} DecimalValue(n: nat)
    ensures DigitsValue(Decimal(n)) == n
    decreases n
  {
    var s := Decimal(n);
    if n >= 10 {
      DecimalValue(n / 10);
      assert s[..|s| - 1] == Decimal(n / 10);
    }
  }

  /** The digits of a number parse back to it. */
  lemma ParseDecimalOfDecimal(n: nat)
    ensures ParseDecimal(Decimal(n)) == Some(n)
  {
    DecimalValue(n);
    ParseDecimalMeaning(Decimal(n));
  }

  /** Parsing a formatted 64-bit integer gives it back. */
  lemma ParseFormatInt(n: int)
    requires MinInt64 <= n <= MaxInt64
    ensures ParseInt64(FormatInt(n)) == Some(n)
  {
    var s := FormatInt(n);
    if n < 0 {
      ParseDecimalOfDecimal(-n);
      assert s[0] == '-' && s[1..] == Decimal(-n);
    } else {
      ParseDecimalOfDecimal(n);
      assert s == Decimal(n) && IsDigit(s[0]);
    }
  }
}
