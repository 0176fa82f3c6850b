/**
 The ASCII encodings of the database files: decimal numbers as snprintf writes
 them and atol reads them back, and index records
 `ptr|len|key:datoff:datlen\n` as the writer lays them out and the reader takes
 them apart again. A C string is a string without the null character.
 */
module Codec {
  const NUL := '\0'
  const SEP := ':'
  const SPACE := ' '
  const NEWLINE := '\n'

  const PTR_SZ := 7
  const IDXLEN_SZ := 4
  const PTR_MAX := 9999999
  const IDXLEN_MIN := 6
  const IDXLEN_MAX := 1024
  const DATLEN_MIN := 2
  const DATLEN_MAX := 1024

  // ---- C string library ----

  /** strchr as an index: the first c in s, or |s| when there is none. */
  function Index(s: string, c: char): (r: nat)
    ensures r <= |s| && (r < |s| ==> s[r] == c)
    ensures forall i | 0 <= i < |s| && s[i] == c :: r <= i
    ensures c in s <==> r < |s|
  {
    if s == [] || s[0] == c then 0 else
      assert s == [s[0]] + s[1..];
      1 + Index(s[1..], c)
  }

  /** The C string that starts a buffer: everything before the first null character. */
  function CView(buf: string): string {
    buf[..Index(buf, NUL)]
  }

  function Blanks(n: nat): (s: string)
    ensures |s| == n && forall i | 0 <= i < n :: s[i] == SPACE
  {
    seq(n, i => SPACE)
  }

  predicate IsSpace(c: char) { c == SPACE || '\t' <= c <= '\r' }

  predicate IsDigit(c: char) { '0' <= c <= '9' }

  function DigitOf(c: char): nat
    requires IsDigit(c)
  {
    c as int - '0' as int
  }

  function DigitChar(d: nat): (c: char)
    requires d < 10
    ensures IsDigit(c) && DigitOf(c) == d
  {
    '0' + d as char
  }

  /** The value of the digits s starts with, read on from acc. */
  function DigitsValue(s: string, acc: nat): nat {
    if s == [] || !IsDigit(s[0]) then acc
    else DigitsValue(s[1..], 10 * acc + DigitOf(s[0]))
  }

  function SkipSpace(s: string): string {
    if s != [] && IsSpace(s[0]) then SkipSpace(s[1..]) else s
  }

  /** atol, on values that fit a long. */
  function Atol(s: string): int {
    var t := SkipSpace(s);
    if t != [] && t[0] == '-' then 0 - DigitsValue(t[1..], 0)
    else if t != [] && t[0] == '+' then DigitsValue(t[1..], 0)
    else DigitsValue(t, 0)
  }

  /** The "%lld" conversion of a number that is not negative. */
  function Digits(n: nat): (s: string)
    ensures |s| > 0
  {
    if n < 10 then [DigitChar(n)] else Digits(n / 10) + [DigitChar(n % 10)]
  }

  /** The "%*lld" conversion: blanks on the left up to the field width. */
  function Padded(width: nat, n: nat): string {
    var d := Digits(n);
    if |d| >= width then d else Blanks(width - |d|) + d
  }

  // ---- Numbers round-trip ----

  lemma {:induction false} DigitsAreDigits(n: nat)
    ensures forall i | 0 <= i < |Digits(n)| :: IsDigit(Digits(n)[i])
  {
    if n >= 10 {
      DigitsAreDigits(n / 10);
    }
  }

  lemma {:induction false} DigitsValueSnoc(s: string, c: char, acc: nat)
    requires forall i | 0 <= i < |s| :: IsDigit(s[i])
    requires IsDigit(c)
    ensures DigitsValue(s + [c], acc) == 10 * DigitsValue(s, acc) + DigitOf(c)
  {
    if s == [] {
      assert (s + [c])[1..] == [];
    } else {
      assert (s + [c])[1..] == s[1..] + [c];
      DigitsValueSnoc(s[1..], c, 10 * acc + DigitOf(s[0]));
    }
  }

  lemma {:induction false} DigitsRoundTrip(n: nat)
    ensures DigitsValue(Digits(n), 0) == n
  {
    if n < 10 {
      assert Digits(n)[1..] == [];
    } else {
      DigitsRoundTrip(n / 10);
      DigitsAreDigits(n / 10);
      DigitsValueSnoc(Digits(n / 10), DigitChar(n % 10), 0);
    }
  }

  lemma {:induction false} SkipBlanks(k: nat, d: string)
    requires d == [] || !IsSpace(d[0])
    ensures SkipSpace(Blanks(k) + d) == d
  {
    if k == 0 {
      assert Blanks(k) + d == d;
    } else {
      assert (Blanks(k) + d)[1..] == Blanks(k - 1) + d;
      SkipBlanks(k - 1, d);
    }
  }

  /** Whatever the field width, atol reads a printed number back. */
  lemma AtolPadded(width: nat, n: nat)
    ensures Atol(Padded(width, n)) == n
  {
    var d := Digits(n);
    DigitsAreDigits(n);
    DigitsRoundTrip(n);
    assert Blanks(0) + d == d;
    SkipBlanks(if |d| >= width then 0 else width - |d|, d);
  }

  function Pow10(k: nat): (p: nat)
    ensures p > 0
  {
    if k == 0 then 1 else 10 * Pow10(k - 1)
  }

  lemma {:induction false} DigitsLength(n: nat, k: nat)
    requires k > 0 && n < Pow10(k)
    ensures |Digits(n)| <= k
  {
    if n >= 10 {
      assert Pow10(1) == 10 * Pow10(0);
      DigitsLength(n / 10, k - 1);
    }
  }

  /** A pointer that passes the PTR_MAX check fills its field exactly. */
  lemma PtrFieldLength(v: nat)
    requires v <= PTR_MAX
    ensures |Padded(PTR_SZ, v)| == PTR_SZ
  {
    assert Pow10(3) == 1000;
    assert Pow10(7) == 10 * Pow10(6) == 100 * Pow10(5) == 1000 * Pow10(4) == 10000 * Pow10(3);
    DigitsLength(v, PTR_SZ);
  }

  lemma LenFieldLength(v: nat)
    requires v <= IDXLEN_MAX
    ensures |Padded(IDXLEN_SZ, v)| == IDXLEN_SZ
  {
    assert Pow10(4) == 10 * Pow10(3) == 100 * Pow10(2);
    DigitsLength(v, IDXLEN_SZ);
  }

  // ---- Index records ----

  /** The variable part of an index record, as _db_writeidx formats it. */
  function Tail(key: string, datoff: nat, datlen: nat): string {
    key + [SEP] + Digits(datoff) + [SEP] + Digits(datlen) + [NEWLINE]
  }

  /** What follows the chain pointer: the length of the variable part, and that part. */
  function Body(key: string, datoff: nat, datlen: nat): string {
    var t := Tail(key, datoff, datlen);
    Padded(IDXLEN_SZ, |t|) + t
  }

  predicate TailFits(key: string, datoff: nat, datlen: nat) {
    IDXLEN_MIN <= |Tail(key, datoff, datlen)| <= IDXLEN_MAX
  }

  datatype Reason =
    | MissingNewline
    | MissingFirstSeparator
    | MissingSecondSeparator
    | TooManySeparators
    | NegativeOffset
    | InvalidDataLength

  datatype Parsed =
    | Fields(key: string, datoff: nat, datlen: nat)
    | Corrupt(reason: Reason)

  /** What _db_readidx makes of the variable part of a record, check by check. */
  function ParseTail(buf: string): Parsed {
    if buf == [] || buf[|buf| - 1] != NEWLINE then Corrupt(MissingNewline)
    else ParseFields(CView(buf[..|buf| - 1]))
  }

  function ParseFields(s: string): Parsed {
    var i := Index(s, SEP);
    if i == |s| then Corrupt(MissingFirstSeparator) else
    var rest := s[i + 1..];
    var j := Index(rest, SEP);
    if j == |rest| then Corrupt(MissingSecondSeparator) else
    if SEP in rest[j + 1..] then Corrupt(TooManySeparators)
    else Numbers(s[..i], rest[..j], rest[j + 1..])
  }

  function Numbers(key: string, off: string, len: string): Parsed {
    var datoff := Atol(off);
    if datoff < 0 then Corrupt(NegativeOffset) else
    var datlen := Atol(len);
    if datlen <= 0 || datlen > DATLEN_MAX then Corrupt(InvalidDataLength)
    else Fields(key, datoff, datlen)
  }

  lemma IndexAt(s: string, c: char, t: string)
    requires c !in s
    ensures Index(s + [c] + t, c) == |s|
  {
    var u := s + [c] + t;
    assert u[|s|] == c;
    assert forall i | 0 <= i < |s| :: u[i] == s[i];
  }

  lemma LegalFields(key: string, d: string, e: string)
    requires SEP !in key && SEP !in d && SEP !in e
    ensures ParseFields(key + [SEP] + d + [SEP] + e) == Numbers(key, d, e)
  {
    var s := key + [SEP] + d + [SEP] + e;
    var rest := d + [SEP] + e;
    assert s == key + [SEP] + rest;
    IndexAt(key, SEP, rest);
    assert s[|key| + 1..] == rest && s[..|key|] == key;
    IndexAt(d, SEP, e);
    assert rest[|d| + 1..] == e && rest[..|d|] == d;
  }

  lemma IllegalFields(key: string, d: string, e: string)
    requires SEP in key
    ensures ParseFields(key + [SEP] + d + [SEP] + e) == Corrupt(TooManySeparators)
  {
    var s := key + [SEP] + d + [SEP] + e;
    var i := Index(s, SEP);
    var a :| 0 <= a < |key| && key[a] == SEP;
    assert s[a] == SEP;
    var rest := s[i + 1..];
    var b := |key| - i - 1;
    assert rest[b] == s[|key|] == SEP;
    var j := Index(rest, SEP);
    assert rest[j + 1..][b + 1 + |d| - (j + 1)] == s[|key| + 1 + |d|] == SEP;
  }

  lemma TailView(s: string)
    requires NUL !in s
    ensures ParseTail(s + [NEWLINE]) == ParseFields(s)
  {
    assert (s + [NEWLINE])[..|s|] == s && s[..|s|] == s;
  }

  lemma PlainDigits(n: nat)
    ensures SEP !in Digits(n) && NUL !in Digits(n)
  {
    DigitsAreDigits(n);
  }

  /** A record reads back as written exactly when its key holds no separator. */
  lemma RecordRoundTrip(key: string, datoff: nat, datlen: nat)
    requires 0 < datlen <= DATLEN_MAX && NUL !in key
    ensures ParseTail(Tail(key, datoff, datlen)) == Fields(key, datoff, datlen) <==> SEP !in key
    ensures SEP in key ==> ParseTail(Tail(key, datoff, datlen)) == Corrupt(TooManySeparators)
  {
    var d, e := Digits(datoff), Digits(datlen);
    PlainDigits(datoff);
    PlainDigits(datlen);
    TailView(key + [SEP] + d + [SEP] + e);
    if SEP in key {
      IllegalFields(key, d, e);
    } else {
      LegalFields(key, d, e);
      AtolPadded(0, datoff);
      AtolPadded(0, datlen);
    }
  }

  /** The length field says how long the variable part is, and the part follows it. */
  lemma BodyFields(key: string, datoff: nat, datlen: nat)
    requires TailFits(key, datoff, datlen)
    ensures var b, t := Body(key, datoff, datlen), Tail(key, datoff, datlen);
            && |b| == IDXLEN_SZ + |t|
            && Atol(b[..IDXLEN_SZ]) == |t|
            && b[IDXLEN_SZ..] == t
  {
    var b, t := Body(key, datoff, datlen), Tail(key, datoff, datlen);
    LenFieldLength(|t|);
    AtolPadded(IDXLEN_SZ, |t|);
    assert b[..IDXLEN_SZ] == Padded(IDXLEN_SZ, |t|);
  }

  /** A rewritten record takes the same bytes when key length, data offset and data length stay. */
  lemma RewriteKeepsLength(key: string, key': string, datoff: nat, datlen: nat)
    requires |key| == |key'|
    ensures TailFits(key', datoff, datlen) == TailFits(key, datoff, datlen)
    ensures TailFits(key, datoff, datlen) ==> |Body(key, datoff, datlen)| == |Body(key', datoff, datlen)|
  {
    if TailFits(key, datoff, datlen) {
      BodyFields(key, datoff, datlen);
      BodyFields(key', datoff, datlen);
    }
  }
}
