/** Decimal text of unsigned 64-bit integers: Go's strconv.FormatUint(n, 10) and
    strconv.ParseUint(s, 10, 64), which the checkpoint bag stores block numbers with. */
module Decimal {
  import opened Types

  /** ParseUint's error: nil, ErrSyntax or ErrRange. */
  datatype NumError = NoError | ErrSyntax | ErrRange

  /** ParseUint's two results: the value is returned even when the error is not nil. */
  datatype Parsed = Parsed(value: nat, err: NumError)

  /** ParseUint stops with ErrRange once the accumulator reaches this (maxUint64 / 10 + 1). */
  const CUTOFF: nat := MAX_UINT64 / 10 + 1

  predicate IsDigit(c: char) { '0' <= c <= '9' }

  predicate AllDigits(s: string) { forall i :: 0 <= i < |s| ==> IsDigit(s[i]) }

  function DigitChar(d: nat): (c: char)
    requires d < 10
    ensures IsDigit(c) && DigitValue(c) == d
  {
    ('0' as int + d) as char
  }

  function DigitValue(c: char): nat
    requires IsDigit(c)
  {
    c as int - '0' as int
  }

  /** The number a string of digits denotes, read from its last digit (leading zeros allowed). */
  function Value(s: string): nat
    requires AllDigits(s)
  {
    if |s| == 0 then 0 else Value(s[..|s| - 1]) * 10 + DigitValue(s[|s| - 1])
  }

  /** strconv.FormatUint(n, 10): the shortest decimal text of n. */
  function FormatUint(n: nat): (s: string)
    ensures |s| > 0 && AllDigits(s)
    ensures |s| > 1 ==> s[0] != '0'
  {
    if n < 10 then [DigitChar(n)] else FormatUint(n / 10) + [DigitChar(n % 10)]
  }

  /** strconv.ParseUint(s, 10, 64): the empty string and any character that is not a decimal
      digit give (0, ErrSyntax); a value above maxUint64 gives (maxUint64, ErrRange), whichever
      comes first from the left. */
  function ParseUint(s: string): (r: Parsed)
    ensures r.value <= MAX_UINT64
    ensures r.err == ErrSyntax ==> r.value == 0
    ensures r.err == ErrRange ==> r.value == MAX_UINT64
  {
    if |s| == 0 then Parsed(0, ErrSyntax) else ParseFrom(s, 0)
  }

  /** The digit loop of ParseUint, with accumulator n. */
  function ParseFrom(s: string, n: nat): (r: Parsed)
    requires n <= MAX_UINT64
    ensures r.value <= MAX_UINT64
    ensures r.err == ErrSyntax ==> r.value == 0
    ensures r.err == ErrRange ==> r.value == MAX_UINT64
    decreases |s|
  {
    if |s| == 0 then Parsed(n, NoError)
    else if !IsDigit(s[0]) then Parsed(0, ErrSyntax)
    else if n >= CUTOFF then Parsed(MAX_UINT64, ErrRange)
    else
      var n1 := n * 10 + DigitValue(s[0]);
      if n1 > MAX_UINT64 then Parsed(MAX_UINT64, ErrRange) else ParseFrom(s[1..], n1)
  }

  /** Parsing a string one more digit long takes one more step of the loop. */
  lemma {:induction false} ParseFromSnoc(p: string, c: char, n: nat)
    requires n <= MAX_UINT64
    requires ParseFrom(p, n).err == NoError
    ensures ParseFrom(p + [c], n) ==
      if !IsDigit(c) then Parsed(0, ErrSyntax)
      else if ParseFrom(p, n).value >= CUTOFF then Parsed(MAX_UINT64, ErrRange)
      else if ParseFrom(p, n).value * 10 + DigitValue(c) > MAX_UINT64 then Parsed(MAX_UINT64, ErrRange)
      else Parsed(ParseFrom(p, n).value * 10 + DigitValue(c), NoError)
    decreases |p|
  {
    if |p| == 0 {
      assert p + [c] == [c];
      assert [c][1..] == [];
    } else {
      assert (p + [c])[0] == p[0];
      assert (p + [c])[1..] == p[1..] + [c];
      ParseFromSnoc(p[1..], c, n * 10 + DigitValue(p[0]));
    }
  }

  /** ParseUint succeeds exactly on non-empty digit strings whose value fits in 64 bits,
      and then returns that value. */
  lemma {:induction false} ParseUintAccepts(s: string)
    ensures ParseUint(s).err == NoError <==> |s| > 0 && AllDigits(s) && Value(s) <= MAX_UINT64
    ensures ParseUint(s).err == NoError ==> ParseUint(s).value == Value(s)
    decreases |s|
  {
    if |s| == 0 {
    } else if |s| == 1 {
      assert s == [] + [s[0]];
      ParseFromSnoc([], s[0], 0);
      if IsDigit(s[0]) { assert Value(s) == Value(s[..0]) * 10 + DigitValue(s[0]); }
    } else {
      var p, c := s[..|s| - 1], s[|s| - 1];
      assert s == p + [c];
      ParseUintAccepts(p);
      if ParseUint(p).err == NoError {
        ParseFromSnoc(p, c, 0);
      } else {
        NotAcceptedPrefix(p, c);
      }
    }
  }

  /** A failing prefix makes the whole string fail (the loop never resumes after an error). */
  lemma {:induction false} NotAcceptedPrefix(p: string, c: char)
    requires |p| > 0
    requires ParseUint(p).err != NoError
    requires ParseUint(p).err == NoError <==> AllDigits(p) && Value(p) <= MAX_UINT64
    ensures ParseUint(p + [c]).err != NoError
    ensures !(AllDigits(p + [c]) && Value(p + [c]) <= MAX_UINT64)
  {
    ParseFromFails(p, c, 0);
    if AllDigits(p + [c]) {
      assert (p + [c])[..|p|] == p;
      assert AllDigits(p) by {
        forall i | 0 <= i < |p| ensures IsDigit(p[i]) { assert p[i] == (p + [c])[i]; }
      }
    }
  }

  lemma {:induction false} ParseFromFails(p: string, c: char, n: nat)
    requires n <= MAX_UINT64
    requires ParseFrom(p, n).err != NoError
    ensures ParseFrom(p + [c], n).err != NoError
    decreases |p|
  {
    assert |p| > 0;
    assert (p + [c])[0] == p[0];
    assert (p + [c])[1..] == p[1..] + [c];
    if IsDigit(p[0]) && n < CUTOFF && n * 10 + DigitValue(p[0]) <= MAX_UINT64 {
      ParseFromFails(p[1..], c, n * 10 + DigitValue(p[0]));
    }
  }

  /** FormatUint writes the digits of n. */
  lemma {:induction false} ValueOfFormat(n: nat)
    ensures Value(FormatUint(n)) == n
    decreases n
  {
    var s := FormatUint(n);
    if n >= 10 {
      ValueOfFormat(n / 10);
      assert s[..|s| - 1] == FormatUint(n / 10);
    }
  }

  /** A checkpoint written with FormatUint(n, 10) is read back by ParseUint(_, 10, 64) as n. */
  lemma FormatParseRoundTrip(n: uint64)
    ensures ParseUint(FormatUint(n)) == Parsed(n, NoError)
  {
    ValueOfFormat(n);
    ParseUintAccepts(FormatUint(n));
  }

  /** Distinct numbers have distinct decimal texts. */
  lemma FormatUintInjective(m: nat, n: nat)
    requires FormatUint(m) == FormatUint(n)
    ensures m == n
  {
    ValueOfFormat(m);
    ValueOfFormat(n);
  }

  /** On a string of digits ParseUint never reports ErrSyntax. */
  lemma {:induction false} DigitsNeverSyntaxError(s: string, n: nat)
    requires n <= MAX_UINT64
    requires AllDigits(s)
    ensures ParseFrom(s, n).err != ErrSyntax
    decreases |s|
  {
    if |s| > 0 && n < CUTOFF && n * 10 + DigitValue(s[0]) <= MAX_UINT64 {
      DigitsNeverSyntaxError(s[1..], n * 10 + DigitValue(s[0]));
    }
  }

  /** A stored checkpoint too large for uint64 is read back as maxUint64, not as 0. */
  lemma ParseOverflow(s: string)
    requires |s| > 0 && AllDigits(s) && Value(s) > MAX_UINT64
    ensures ParseUint(s) == Parsed(MAX_UINT64, ErrRange)
  {
    ParseUintAccepts(s);
    DigitsNeverSyntaxError(s, 0);
  }

  /** Leading zeros are accepted; a sign or an empty string is a syntax error read as 0. */
  lemma ParseOfNonCanonical()
    ensures ParseUint("007") == Parsed(7, NoError)
    ensures ParseUint("+7") == Parsed(0, ErrSyntax)
    ensures ParseUint("") == Parsed(0, ErrSyntax)
  {
  }
}
