/** Decimal printing and parsing as strconv does them, and the driver's size parser ConvertToBytes. */
module Numbers {
  import opened Strings

  const UINT64 := 0x1_0000_0000_0000_0000
  const INT63 := 0x8000_0000_0000_0000

  type UInt64 = n: nat | n < UINT64

  datatype SizeError = InvalidNumber | ParseFailed | InvalidUnit

  datatype Size = Bytes(value: nat) | BadSize(error: SizeError)

  // ---------- decimal digits ----------

  predicate IsDigit(c: char) {
    '0' <= c <= '9'
  }

  predicate AllDigits(s: string) {
    forall i :: 0 <= i < |s| ==> IsDigit(s[i])
  }

  function DigitValue(c: char): nat
    requires IsDigit(c)
  {
    (c - '0') as nat
  }

  /** strconv.FormatUint(n, 10) */
  function FormatUint(n: nat): string {
    if n < 10 then [(n as char) + '0'] else FormatUint(n / 10) + [((n % 10) as char) + '0']
  }

  /** fmt "%d" of a signed number */
  function FormatInt(n: int): string {
    if n < 0 then "-" + FormatUint(-n) else FormatUint(n)
  }

  /** The number a digit string denotes. */
  function Decimal(s: string): nat
    requires AllDigits(s)
  {
    if s == "" then 0 else Decimal(s[..|s| - 1]) * 10 + DigitValue(s[|s| - 1])
  }

  lemma {:induction false} DecimalOfFormat(n: nat)
    ensures AllDigits(FormatUint(n)) && FormatUint(n) != ""
    ensures Decimal(FormatUint(n)) == n
  {
    if n < 10 {
      var s := FormatUint(n);
      assert s[..0] == "" && Decimal("") == 0;
    } else {
      DecimalOfFormat(n / 10);
      var s := FormatUint(n);
      assert s[..|s| - 1] == FormatUint(n / 10);
    }
  }

  function PowerOfTen(n: nat): nat {
    if n == 0 then 1 else 10 * PowerOfTen(n - 1)
  }

  /** Digits in front count for the power of ten of the digits behind them, and one digit for itself. */
  lemma {:induction false} DecimalByTens(front: string, back: string)
    requires AllDigits(front) && AllDigits(back)
    ensures Decimal(front + back) == Decimal(front) * PowerOfTen(|back|) + Decimal(back)
    ensures |back| == 1 ==> Decimal(back) == (back[0] - '0') as nat
  {
    if back == "" {
      assert front + back == front;
    } else {
      var s, less := front + back, back[..|back| - 1];
      DecimalByTens(front, less);
      assert s[..|s| - 1] == front + less && s[|s| - 1] == back[|back| - 1];
      TimesTen(Decimal(front), PowerOfTen(|less|), Decimal(less));
      assert |back| == 1 ==> less == "";
    }
  }

  lemma TimesTen(a: nat, p: nat, b: nat)
    ensures (a * p + b) * 10 == a * (10 * p) + b * 10
  {
  }

  // ---------- the unit part ----------

  /** unicode.IsSpace */
  predicate IsSpace(c: char) {
    c == '\t' || c == '\n' || c == '\U{B}' || c == '\U{C}' || c == '\r' || c == ' ' || c == '\U{85}' || c == '\U{A0}' ||
    c == '\U{1680}' || '\U{2000}' <= c <= '\U{200A}' || c == '\U{2028}' || c == '\U{2029}' || c == '\U{202F}' ||
    c == '\U{205F}' || c == '\U{3000}'
  }

  function TrimSpace(s: string): string {
    if s == "" then s
    else if IsSpace(s[0]) then TrimSpace(s[1..])
    else if IsSpace(s[|s| - 1]) then TrimSpace(s[..|s| - 1])
    else s
  }

  /** unicode.ToLower on ASCII and on the only two other letters whose lower case is ASCII. */
  function LowerChar(c: char): char {
    if 'A' <= c <= 'Z' then c - 'A' + 'a'
    else if c == '\U{212A}' then 'k'
    else if c == '\U{130}' then 'i'
    else c
  }

  function Lower(s: string): string {
    seq(|s|, i requires 0 <= i < |s| => LowerChar(s[i]))
  }

  const KIB := 1024

  /** The factor a lower-case unit stands for; 0 for a word that is not a unit. */
  function UnitFactor(unit: string): nat {
    if unit in {"b", "bytes"} then 1
    else if unit in {"k", "kb", "kilobytes", "kilobyte"} then KIB
    else if unit in {"m", "mb", "megabytes", "megabyte"} then KIB * KIB
    else if unit in {"g", "gb", "gigabytes", "gigabyte"} then KIB * KIB * KIB
    else if unit in {"t", "tb", "terabytes", "terabyte"} then KIB * KIB * KIB * KIB
    else 0
  }

  // ---------- ConvertToBytes ----------

  /** The length of the longest prefix made of digits. */
  function DigitRun(s: string): (n: nat)
    ensures n <= |s| && AllDigits(s[..n])
    ensures n < |s| ==> !IsDigit(s[n])
  {
    if s == "" || !IsDigit(s[0]) then 0
    else
      var n := DigitRun(s[1..]);
      assert s[..n + 1] == [s[0]] + s[1..][..n];
      n + 1
  }

  /** What a size string means: a number below 2^64 times its unit, wrapped to 64 bits. */
  function ParseSize(s: string): Size {
    var n := DigitRun(s);
    if n == 0 then BadSize(InvalidNumber)
    else if Decimal(s[..n]) >= UINT64 then BadSize(ParseFailed)
    else if n == |s| then Bytes(Decimal(s))
    else
      var factor := UnitFactor(Lower(TrimSpace(s[n..])));
      if factor == 0 then BadSize(InvalidUnit) else Bytes(Decimal(s[..n]) * factor % UINT64)
  }

  const NO_NUMBER := "Invalid number specified"

  /** The text of ConvertToBytes' error. */
  function ErrorText(s: string, error: SizeError): string {
    var n := DigitRun(s);
    match error
    case InvalidNumber => NO_NUMBER + " " + s
    case ParseFailed => "ParseUint Failed for " + s[..n]
    case InvalidUnit => "Invalid Unit " + Lower(TrimSpace(s[n..])) + " supplied with " + s
  }

  /** What setQuota asks of an error: whether its text contains the words for a missing number. */
  predicate SaysNoNumber(s: string, error: SizeError) {
    IndexOf(ErrorText(s, error), NO_NUMBER) >= 0
  }

  /** The error for a missing number has the words, the one for a number that is too big has not. */
  lemma MissingNumberSaysSo(s: string)
    ensures SaysNoNumber(s, InvalidNumber) && "Invalid number specified" <= ErrorText(s, InvalidNumber)
    ensures !SaysNoNumber(s, ParseFailed)
  {
    assert NO_NUMBER <= ErrorText(s, InvalidNumber);
    TooBigSaysOther("ParseUint Failed for ", s[..DigitRun(s)]);
  }

  lemma TooBigSaysOther(words: string, digits: string)
    requires 'I' !in words && AllDigits(digits)
    ensures IndexOf(words + digits, NO_NUMBER) < 0
  {
    var text := words + digits;
    IndexOfExactly(text, NO_NUMBER);
    assert 'I' !in text;
    forall i | 0 <= i <= |text| ensures !(NO_NUMBER <= text[i..]) {
      assert i < |text| ==> text[i..][0] == text[i] && text[i] in text;
      assert NO_NUMBER[0] == 'I';
    }
  }

  lemma {:induction false} DigitRunAt(s: string, n: nat)
    requires n <= |s| && AllDigits(s[..n]) && (n < |s| ==> !IsDigit(s[n]))
    ensures DigitRun(s) == n
  {
    if n > 0 {
      assert IsDigit(s[..n][0]);
      assert s[..n] == [s[0]] + s[1..][..n - 1];
      DigitRunAt(s[1..], n - 1);
    }
  }

  method ConvertToBytes(inputStr: string) returns (r: Size)
    ensures r == ParseSize(inputStr)
    ensures r.Bytes? ==> r.value < UINT64
  {
    var iter := 0;
    while iter < |inputStr|
      invariant 0 <= iter <= |inputStr|
      invariant AllDigits(inputStr[..iter])
    {
      if IsDigit(inputStr[iter]) {
        iter := iter + 1;
      } else {
        break;
      }
    }
    DigitRunAt(inputStr, iter);
    if iter == 0 {
      return BadSize(InvalidNumber);
    }
    var value := Decimal(inputStr[..iter]);
    if value >= UINT64 {
      return BadSize(ParseFailed);
    }
    if iter == |inputStr| {
      assert inputStr[..iter] == inputStr;
      return Bytes(value);
    }
    var unit := Lower(TrimSpace(inputStr[iter..]));
    match unit {
      case "b" | "bytes" =>
      case "k" | "kb" | "kilobytes" | "kilobyte" => value := value * 1024 % UINT64;
      case "m" | "mb" | "megabytes" | "megabyte" => value := value * (1024 * 1024) % UINT64;
      case "g" | "gb" | "gigabytes" | "gigabyte" => value := value * (1024 * 1024 * 1024) % UINT64;
      case "t" | "tb" | "terabytes" | "terabyte" => value := value * (1024 * 1024 * 1024 * 1024) % UINT64;
      case _ => return BadSize(InvalidUnit);
    }
    if value > UINT64 - 1 {
      // the overflow test of the source: a 64-bit product is never above the 64-bit maximum
      assert false;
    }
    return Bytes(value);
  }

  // ---------- sizes as they are written ----------

  /** The same letter, perhaps as a capital; the Kelvin sign is a capital k, and the dotted capital an i. */
  predicate SameLetter(c: char, lower: char) {
    'a' <= lower <= 'z' &&
    (c == lower || c == lower - 'a' + 'A' || (c == '\U{212A}' && lower == 'k') || (c == '\U{130}' && lower == 'i'))
  }

  predicate SameWord(s: string, lower: string) {
    |s| == |lower| && forall i :: 0 <= i < |s| ==> SameLetter(s[i], lower[i])
  }

  predicate Spaces(s: string) {
    forall i :: 0 <= i < |s| ==> s[i] == ' ' || s[i] == '\t' || s[i] == '\n'
  }

  lemma LowerOfWord(s: string, lower: string)
    requires SameWord(s, lower)
    ensures Lower(s) == lower
  {
  }

  lemma {:induction false} TrimSpaced(l: string, s: string, r: string)
    requires Spaces(l) && Spaces(r) && s != "" && !IsSpace(s[0]) && !IsSpace(s[|s| - 1])
    ensures TrimSpace(l + s + r) == s
    decreases |l| + |r|
  {
    var all := l + s + r;
    if l != "" {
      assert all[1..] == l[1..] + s + r;
      TrimSpaced(l[1..], s, r);
    } else if r != "" {
      assert all[0] == s[0] && all[|all| - 1] == r[|r| - 1];
      assert all[..|all| - 1] == l + s + r[..|r| - 1];
      TrimSpaced(l, s, r[..|r| - 1]);
    } else {
      assert all == s;
    }
  }

  const UNITS: set<string> :=
    {"b", "bytes", "k", "kb", "kilobyte", "kilobytes", "m", "mb", "megabyte", "megabytes",
     "g", "gb", "gigabyte", "gigabytes", "t", "tb", "terabyte", "terabytes"}

  /** Of the units each is told by its first letter. */
  function Factor(letter: char): nat {
    match letter
    case 'b' => 1 case 'k' => 1024 case 'm' => 1_048_576 case 'g' => 1_073_741_824 case _ => 1_099_511_627_776
  }

  /** A number and a unit, in capitals or not, with or without spaces, in the wrap-around of 64 bits. */
  lemma SizeAsWritten(digits: string, l: string, unit: string, lower: string, r: string)
    requires digits != "" && AllDigits(digits) && Spaces(l) && Spaces(r) && SameWord(unit, lower)
    requires Decimal(digits) < 0x1_0000_0000_0000_0000
    requires lower in UNITS
    ensures ParseSize(digits + l + unit + r) == Bytes(Decimal(digits) * Factor(lower[0]) % 0x1_0000_0000_0000_0000)
  {
    UnitFactors(lower);
    LowerOfWord(unit, lower);
    WordEnds(unit, lower);
    ParseSpaced(digits, l, unit, r);
  }

  lemma WordEnds(s: string, lower: string)
    requires SameWord(s, lower) && s != ""
    ensures !IsSpace(s[0]) && !IsSpace(s[|s| - 1]) && !IsDigit(s[0])
  {
    assert SameLetter(s[0], lower[0]) && SameLetter(s[|s| - 1], lower[|s| - 1]);
  }

  lemma ParseSpaced(digits: string, l: string, unit: string, r: string)
    requires digits != "" && AllDigits(digits) && Spaces(l) && Spaces(r) && Decimal(digits) < UINT64
    requires unit != "" && !IsSpace(unit[0]) && !IsSpace(unit[|unit| - 1]) && (l == "" ==> !IsDigit(unit[0]))
    ensures ParseSize(digits + l + unit + r) ==
      if UnitFactor(Lower(unit)) == 0 then BadSize(InvalidUnit)
      else Bytes(Decimal(digits) * UnitFactor(Lower(unit)) % UINT64)
  {
    var rest := l + unit + r;
    TrimSpaced(l, unit, r);
    assert digits + l + unit + r == digits + rest;
    assert rest[0] == if l == "" then unit[0] else l[0];
    ParseSizeMeaning(digits, rest);
  }

  lemma UnitFactors(lower: string)
    requires lower in UNITS
    ensures lower != "" && UnitFactor(lower) == Factor(lower[0])
  {
  }

  /** With any other word behind the number there is no size. */
  lemma OtherUnits(digits: string, l: string, unit: string, r: string)
    requires digits != "" && AllDigits(digits) && Spaces(l) && Spaces(r)
    requires Decimal(digits) < 0x1_0000_0000_0000_0000
    requires unit != "" && !IsSpace(unit[0]) && !IsSpace(unit[|unit| - 1]) && (l == "" ==> !IsDigit(unit[0]))
    requires forall word :: word in UNITS ==> !SameWord(unit, word)
    ensures ParseSize(digits + l + unit + r) == BadSize(InvalidUnit)
  {
    NoUnit(unit);
    ParseSpaced(digits, l, unit, r);
  }

  lemma NoUnit(s: string)
    requires forall word :: word in UNITS ==> !SameWord(s, word)
    ensures UnitFactor(Lower(s)) == 0
  {
    if Lower(s) in UNITS {
      UnitLetters(Lower(s));
      WordOfLower(s);
    }
  }

  lemma WordOfLower(s: string)
    ensures (forall i :: 0 <= i < |s| ==> 'a' <= Lower(s)[i] <= 'z') ==> SameWord(s, Lower(s))
  {
  }

  lemma UnitLetters(word: string)
    requires word in UNITS
    ensures forall i :: 0 <= i < |word| ==> 'a' <= word[i] <= 'z'
  {
  }

  // ---------- the block limit of a fileset, written in KiB and read back ----------

  /** ListFilesetQuota prints the limit the backend holds, in KiB. */
  function PrintQuota(limitKiB: int): string {
    FormatInt(limitKiB) + "K"
  }

  lemma UnitOfK()
    ensures UnitFactor(Lower(TrimSpace("K"))) == KIB
  {
    assert TrimSpace("K") == "K";
    assert Lower("K") == "k";
  }

  /** Reading a printed limit gives 1024 times it, modulo 2^64; a negative one reads as no number. */
  lemma ReadPrintedQuota(limitKiB: int)
    requires -INT63 <= limitKiB < INT63
    ensures limitKiB < 0 ==> ParseSize(PrintQuota(limitKiB)) == BadSize(InvalidNumber)
    ensures limitKiB >= 0 ==> ParseSize(PrintQuota(limitKiB)) == Bytes(limitKiB * KIB % UINT64)
    ensures 0 <= limitKiB < 0x40_0000_0000_0000 ==> ParseSize(PrintQuota(limitKiB)) == Bytes(limitKiB * KIB)
  {
    var s := PrintQuota(limitKiB);
    if limitKiB < 0 {
      assert s[0] == '-';
      DigitRunAt(s, 0);
    } else {
      var digits := FormatUint(limitKiB);
      DecimalOfFormat(limitKiB);
      assert s[..|digits|] == digits && s[|digits|..] == "K";
      DigitRunAt(s, |digits|);
      UnitOfK();
    }
  }

  /**
   What ConvertToBytes computes, on the decomposition every string has: a run of digits, then a rest that does
   not start with one. It fails exactly on no digits, a number of 2^64 or more, or a rest that is no unit.
   */
  lemma ParseSizeMeaning(digits: string, rest: string)
    requires AllDigits(digits) && (rest != "" ==> !IsDigit(rest[0]))
    ensures digits == "" <==> ParseSize(digits + rest) == BadSize(InvalidNumber)
    ensures digits != "" && Decimal(digits) >= UINT64 <==> ParseSize(digits + rest) == BadSize(ParseFailed)
    ensures digits != "" && Decimal(digits) < UINT64 && rest != "" && UnitFactor(Lower(TrimSpace(rest))) == 0
      <==> ParseSize(digits + rest) == BadSize(InvalidUnit)
    ensures digits != "" && Decimal(digits) < UINT64 && rest == ""
      ==> ParseSize(digits + rest) == Bytes(Decimal(digits))
    ensures digits != "" && Decimal(digits) < UINT64 && rest != "" && UnitFactor(Lower(TrimSpace(rest))) != 0
      ==> ParseSize(digits + rest) == Bytes(Decimal(digits) * UnitFactor(Lower(TrimSpace(rest))) % UINT64)
  {
    var s := digits + rest;
    assert s[..|digits|] == digits && s[|digits|..] == rest;
    DigitRunAt(s, |digits|);
    if rest == "" {
      assert s == digits;
    }
  }

  /** Printing any size and parsing it back, with any unit after it, is multiplication by the unit modulo 2^64. */
  lemma ParsePrintedSize(n: nat, unit: string)
    requires n < UINT64 && unit != "" && !IsDigit(unit[0]) && UnitFactor(Lower(TrimSpace(unit))) != 0
    ensures ParseSize(FormatUint(n) + unit) == Bytes(n * UnitFactor(Lower(TrimSpace(unit))) % UINT64)
  {
    var digits := FormatUint(n);
    var s := digits + unit;
    DecimalOfFormat(n);
    assert s[..|digits|] == digits && s[|digits|..] == unit;
    DigitRunAt(s, |digits|);
  }

  /**
   The overflow test of the source never fires: a number of units that makes 2^64 bytes, as 2^34 of any spelling of
   gigabytes do, reads as no bytes at all.
   */
  lemma OverflowWraps(n: nat, unit: string)
    requires n < UINT64 && unit != "" && !IsDigit(unit[0]) && n * UnitFactor(Lower(TrimSpace(unit))) == UINT64
    ensures ParseSize(FormatUint(n) + unit) == Bytes(0)
  {
    ParsePrintedSize(n, unit);
  }
}
