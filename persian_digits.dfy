/** `toPersianDigits`: every ASCII digit becomes the Extended Arabic-Indic
    (Persian) digit of the same value, every other character is kept. The
    regular expression `/\d/g` has no `u` flag, so it matches `0`-`9` only. */
module PersianDigits {
  import opened Strings

  /** The table `['۰', '۱', ..., '۹']`, U+06F0 to U+06F9. */
  const Table: string := "۰۱۲۳۴۵۶۷۸۹"

  predicate IsAsciiDigit(c: char) { '0' <= c <= '9' }

  predicate IsPersianDigit(c: char) { '۰' <= c <= '۹' }

  /** The replacement applied to one character. */
  function Convert(c: char): (r: char)
    ensures IsAsciiDigit(c) ==> r == Table[c as int - '0' as int]
    ensures !IsAsciiDigit(c) ==> r == c
    ensures !IsAsciiDigit(r)
  {
    if IsAsciiDigit(c) then Table[c as int - '0' as int] else c
  }

  /** `toPersianDigits(str)` on a string argument. */
  function ToPersianDigits(s: string): (r: string)
    ensures |r| == |s|
    ensures forall i :: 0 <= i < |s| ==> r[i] == Convert(s[i])
    decreases |s|
  {
    if |s| == 0 then "" else [Convert(s[0])] + ToPersianDigits(s[1..])
  }

  predicate NoAsciiDigit(s: string) { forall i :: 0 <= i < |s| ==> !IsAsciiDigit(s[i]) }

  predicate NoPersianDigit(s: string) { forall i :: 0 <= i < |s| ==> !IsPersianDigit(s[i]) }

  /** No ASCII digit survives the conversion. */
  lemma ConvertedHasNoAsciiDigit(s: string)
    ensures NoAsciiDigit(ToPersianDigits(s))
  {
  }

  /** Converting twice is converting once: Persian digits are not matched by `\d`. */
  lemma {:induction false} Idempotent(s: string)
    ensures ToPersianDigits(ToPersianDigits(s)) == ToPersianDigits(s)
  {
    var once := ToPersianDigits(s);
    forall i | 0 <= i < |once| ensures ToPersianDigits(once)[i] == once[i] {
      assert !IsAsciiDigit(once[i]);
    }
  }

  /** Text without ASCII digits is left as it is. */
  lemma DigitFree(s: string)
    requires NoAsciiDigit(s)
    ensures ToPersianDigits(s) == s
  {
  }

  /** The conversion works character by character, so it distributes over concatenation. */
  lemma {:induction false} Distributes(a: string, b: string)
    ensures ToPersianDigits(a + b) == ToPersianDigits(a) + ToPersianDigits(b)
  {
    var l, r := ToPersianDigits(a + b), ToPersianDigits(a) + ToPersianDigits(b);
    forall i | 0 <= i < |a + b| ensures l[i] == r[i] {
      if i < |a| { assert (a + b)[i] == a[i]; } else { assert (a + b)[i] == b[i - |a|]; }
    }
  }

  /** The inverse replacement, Persian digits back to ASCII. */
  function Restore(c: char): (r: char)
  {
    if IsPersianDigit(c) then ('0' as int + (c as int - '۰' as int)) as char else c
  }

  function FromPersianDigits(s: string): (r: string)
    ensures |r| == |s|
    ensures forall i :: 0 <= i < |s| ==> r[i] == Restore(s[i])
    decreases |s|
  {
    if |s| == 0 then "" else [Restore(s[0])] + FromPersianDigits(s[1..])
  }

  /** On text that holds no Persian digit the conversion loses nothing: the
      inverse gives the original back. */
  lemma {:induction false} RoundTrip(s: string)
    requires NoPersianDigit(s)
    ensures FromPersianDigits(ToPersianDigits(s)) == s
  {
    var back := FromPersianDigits(ToPersianDigits(s));
    forall i | 0 <= i < |s| ensures back[i] == s[i] {
      RestoreConvert(s[i]);
    }
  }

  /** Table entry `k` is the Persian digit of value `k`. */
  lemma TableDigit(k: int)
    requires 0 <= k < 10
    ensures Table[k] as int == '۰' as int + k
  {
    assert Table == ['۰', '۱', '۲', '۳', '۴', '۵', '۶', '۷', '۸', '۹'];
  }

  /** One character that is not a Persian digit survives the round trip. */
  lemma RestoreConvert(c: char)
    requires !IsPersianDigit(c)
    ensures Restore(Convert(c)) == c
  {
    if IsAsciiDigit(c) {
      TableDigit(c as int - '0' as int);
    }
  }

  /** `toPersianDigits(n)` for a natural number: its decimal numeral written
      with Persian digits. */
  function PersianNumeral(n: nat): (s: string)
    ensures |s| >= 1
    ensures forall i :: 0 <= i < |s| ==> IsPersianDigit(s[i])
  {
    ToPersianDigits(NatToString(n))
  }

  /** A Persian numeral reads back, digit for digit, as the decimal numeral of
      `n`, whose value is `n`: distinct numbers get distinct numerals. */
  lemma PersianNumeralValue(n: nat)
    ensures FromPersianDigits(PersianNumeral(n)) == NatToString(n)
    ensures NumeralValue(FromPersianDigits(PersianNumeral(n))) == n
  {
    RoundTrip(NatToString(n));
    NatToStringValue(n);
  }
}
