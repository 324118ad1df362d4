/** Amounts as an email prints them and as an import reads them back, on 64-bit
    integers that wrap. */
module Rupiah {
  import opened Base
  import opened Decimal

  const TWO_63: int := 0x8000_0000_0000_0000
  const TWO_64: int := 0x1_0000_0000_0000_0000

  predicate IsInt64(x: int) {
    -TWO_63 <= x < TWO_63
  }

  function Wrap64(x: int): (r: int)
    ensures IsInt64(r)
  {
    (x + TWO_63) % TWO_64 - TWO_63
  }

  /** Go's / and % on int64 truncate toward zero. */
  function Quo(a: int, b: nat): int
    requires b > 0
  {
    if a < 0 then -(-a / b) else a / b
  }

  function Rem(a: int, b: nat): int
    requires b > 0
  {
    a - b * Quo(a, b)
  }

  function FormatInt(n: int): (s: string)
    ensures |s| > 0
  {
    if n < 0 then "-" + Itoa(-n) else Itoa(n)
  }

  // ---------------------------------------------------------------- printing

  /** The first i characters of a number, a dot before every full group of three
      that is left. */
  function Grouped(whole: string, i: nat): string
    requires i <= |whole|
  {
    if i == 0 then ""
    else
      Grouped(whole, i - 1) +
      (if i - 1 > 0 && (|whole| - (i - 1)) % 3 == 0 then "." else "") +
      [whole[i - 1]]
  }

  /** The digits of the sen, or none. */
  function SenText(sen: int): string {
    if sen != 0 then FormatInt(100 + sen)[1..] else ""
  }

  /** Printing without the sign and the currency mark. */
  function Body(whole: string, sen: int): string {
    Grouped(whole, |whole|) + (if sen != 0 then "," + SenText(sen) else "")
  }

  function Text(minor: int): string {
    var abs := if minor < 0 then Wrap64(-minor) else minor;
    (if minor < 0 then "-" else "") + ("Rp " + Body(FormatInt(Quo(abs, 100)), Rem(abs, 100)))
  }

  /** The loop that groups the digits. */
  method Group(whole: string) returns (b: string)
    ensures b == Grouped(whole, |whole|)
  {
    b := "";
    for i := 0 to |whole|
      invariant b == Grouped(whole, i)
    {
      if i > 0 && (|whole| - i) % 3 == 0 {
        b := b + ".";
      }
      b := b + [whole[i]];
    }
  }

  method Rupiah(amount: int) returns (out: string)
    requires IsInt64(amount)
    ensures out == Text(amount)
  {
    var minor := amount;
    var neg := minor < 0;
    if neg {
      minor := Wrap64(-minor);
    }
    var whole, sen := FormatInt(Quo(minor, 100)), Rem(minor, 100);
    var b := Group(whole);
    hide Grouped, FormatInt, Quo, Rem, SenText, Wrap64;
    if sen != 0 {
      b := b + ("," + SenText(sen));
    }
    assert b == Body(whole, sen);
    out := "Rp " + b;
    if neg {
      out := "-" + out;
    }
    assert neg || "" + ("Rp " + b) == out;
  }

  // ----------------------------------------------------------------- reading

  predicate Separator(c: char) {
    c == '.' || c == ',' || c == ' '
  }

  /** The replacer: at each place the currency marks are tried first. */
  function Strip(s: string): string {
    if s == "" then ""
    else if "Rp" <= s || "rp" <= s then Strip(s[2..])
    else if "IDR" <= s then Strip(s[3..])
    else if Separator(s[0]) then Strip(s[1..])
    else [s[0]] + Strip(s[1..])
  }

  /** strconv.ParseInt(s, 10, 64). */
  function ParseInt(s: string): Option<int> {
    var signed := s != "" && (s[0] == '-' || s[0] == '+');
    var digits := if signed then s[1..] else s;
    if digits == "" || !AllDigits(digits) then None
    else
      var n: int := if signed && s[0] == '-' then 0 - Value(digits) else Value(digits);
      if IsInt64(n) then Some(n) else None
  }

  /** parseRupiah, with the product as the machine computes it. */
  function ParseRupiah(s: string): Option<int> {
    match ParseInt(Strip(s))
    case None => None
    case Some(n) => if n < 0 then None else Some(Wrap64(n * 100))
  }

  // -------------------------------------------------------------- round trip

  /** Text without currency marks. */
  predicate Plain(s: string) {
    forall i :: 0 <= i < |s| ==> IsDigit(s[i]) || s[i] == '-' || s[i] == '.' || s[i] == ','
  }

  function Keep(s: string): string {
    if s == "" then "" else if Separator(s[0]) then Keep(s[1..]) else [s[0]] + Keep(s[1..])
  }

  lemma {:induction false} StripPlain(s: string)
    requires Plain(s)
    ensures Strip(s) == Keep(s)
  {
    if s != "" {
      assert Plain(s[1..]);
      StripPlain(s[1..]);
      assert s[0] != 'R' && s[0] != 'r' && s[0] != 'I';
    }
  }

  lemma {:induction false} KeepConcat(a: string, b: string)
    ensures Keep(a + b) == Keep(a) + Keep(b)
  {
    if a == "" {
      assert a + b == b;
    } else {
      KeepConcat(a[1..], b);
      assert (a + b)[0] == a[0] && (a + b)[1..] == a[1..] + b;
      assert [a[0]] + (Keep(a[1..]) + Keep(b)) == [a[0]] + Keep(a[1..]) + Keep(b);
    }
  }

  lemma {:induction false} KeepUnseparated(s: string)
    requires forall i :: 0 <= i < |s| ==> !Separator(s[i])
    ensures Keep(s) == s
  {
    if s != "" {
      KeepUnseparated(s[1..]);
    }
  }

  /** The separators the printing loop puts in are what reading takes out. */
  lemma {:induction false} KeepGrouped(whole: string, i: nat)
    requires i <= |whole| && forall k :: 0 <= k < |whole| ==> IsDigit(whole[k]) || whole[k] == '-'
    ensures Keep(Grouped(whole, i)) == whole[..i] && Plain(Grouped(whole, i))
  {
    if i > 0 {
      KeepGrouped(whole, i - 1);
      var dot := if i - 1 > 0 && (|whole| - (i - 1)) % 3 == 0 then "." else "";
      KeepConcat(Grouped(whole, i - 1) + dot, [whole[i - 1]]);
      KeepConcat(Grouped(whole, i - 1), dot);
      KeepUnseparated([whole[i - 1]]);
      assert Keep(dot) == "";
      assert whole[..i] == whole[..i - 1] + [whole[i - 1]];
    }
  }

  lemma SenIsDigits(sen: int)
    requires -100 < sen < 100
    ensures AllDigits(SenText(sen))
  {
  }

  lemma NumberIsPlain(n: int)
    ensures forall k :: 0 <= k < |FormatInt(n)| ==> IsDigit(FormatInt(n)[k]) || FormatInt(n)[k] == '-'
  {
  }

  lemma StrippedBody(n: int, sen: int)
    requires -100 < sen < 100
    ensures Strip(Body(FormatInt(n), sen)) == FormatInt(n) + SenText(sen)
  {
    var whole := FormatInt(n);
    NumberIsPlain(n);
    SenIsDigits(sen);
    NoSen();
    hide FormatInt, Grouped, SenText;
    KeepGrouped(whole, |whole|);
    assert whole[..|whole|] == whole;
    var tail := if sen != 0 then "," + SenText(sen) else "";
    KeepConcat(Grouped(whole, |whole|), tail);
    KeepTail(SenText(sen));
    assert Keep(tail) == SenText(sen) && Plain(tail);
    hide Keep, Strip;
    StripPlain(Grouped(whole, |whole|) + tail);
  }

  lemma KeepTail(digits: string)
    requires AllDigits(digits)
    ensures Keep("," + digits) == digits
  {
    KeepUnseparated(digits);
    assert ("," + digits)[1..] == digits;
  }

  lemma NoSen()
    ensures SenText(0) == ""
  {
  }

  lemma RemBounds(a: int)
    ensures -100 < Rem(a, 100) < 100
  {
  }

  lemma SignKept(rest: string)
    ensures Strip("-" + rest) == "-" + Strip(rest)
  {
    assert ("-" + rest)[1..] == rest && ("-" + rest)[0] == '-';
  }

  /** What is left of a printed amount: its sign, whole rupiah, and sen if any. */
  lemma StrippedText(minor: int)
    requires IsInt64(minor)
    ensures var abs := if minor < 0 then Wrap64(-minor) else minor;
            Strip(Text(minor)) == (if minor < 0 then "-" else "") + FormatInt(Quo(abs, 100)) + SenText(Rem(abs, 100))
  {
    var abs := if minor < 0 then Wrap64(-minor) else minor;
    var body := Body(FormatInt(Quo(abs, 100)), Rem(abs, 100));
    RemBounds(abs);
    StrippedBody(Quo(abs, 100), Rem(abs, 100));
    hide Body, FormatInt, Quo, Rem, SenText, Wrap64;
    StripMark(body);
    var text := Text(minor);
    if minor < 0 {
      SignKept("Rp " + body);
    } else {
      assert text == "Rp " + body;
    }
  }

  lemma StripMark(body: string)
    ensures Strip("Rp " + body) == Strip(body)
  {
    var s := "Rp " + body;
    assert s[..2] == "Rp";
    assert s[2..] == " " + body;
    var t := " " + body;
    assert t[1..] == body && t[0] == ' ';
  }

  lemma ValueConcat2(s: string, t: string)
    requires AllDigits(s) && AllDigits(t) && |t| == 2
    ensures AllDigits(s + t) && Value(s + t) == Value(s) * 100 + DigitValue(t[0]) * 10 + DigitValue(t[1])
  {
    var u := s + t;
    assert u[..|u| - 1] == s + [t[0]];
    assert (s + [t[0]])[..|s|] == s;
    assert Value(s + [t[0]]) == Value(s) * 10 + DigitValue(t[0]);
  }

  /** The two digits after 100 + sen's leading one. */
  lemma SenDigits(sen: nat)
    requires 0 < sen < 100
    ensures var t := FormatInt(100 + sen)[1..];
            |t| == 2 && AllDigits(t) && DigitValue(t[0]) * 10 + DigitValue(t[1]) == sen
  {
    var n := 100 + sen;
    assert Itoa(n) == Itoa(n / 10) + [Digit(n % 100 % 10)];
    assert Itoa(n / 10) == Itoa(n / 100) + [Digit(n / 10 % 10)];
    assert n / 100 == 1;
    assert Itoa(1) == [Digit(1)];
    assert Itoa(n) == [Digit(1), Digit(n / 10 % 10), Digit(n % 100 % 10)];
  }

  /** 99 is odd, so no amount but zero is a hundred times itself modulo 2^64. */
  lemma HundredfoldDiffers(x: int)
    requires 0 < x < TWO_63
    ensures Wrap64(x * 100) != x
  {
  }

  /** An amount printed for an email reads back as itself exactly when it is a
      non-negative number of whole rupiah. */
  lemma PrintedReadsBack(x: int)
    requires IsInt64(x)
    ensures ParseRupiah(Text(x)) == Some(x) <==> x >= 0 && x % 100 == 0
  {
    StrippedText(x);
    if x >= 0 {
      ReadsBackPositive(x);
    } else if x == -TWO_63 {
      ReadsBackSmallest();
    } else {
      ReadsBackNegative(x);
    }
  }

  /** A rupiah and a half, and a rupiah owed. */
  lemma SenAndSignAreLost()
    ensures ParseRupiah(Text(150)) != Some(150) && ParseRupiah(Text(-100)) != Some(-100)
  {
    PrintedReadsBack(150);
    PrintedReadsBack(-100);
    hide ParseRupiah, Text;
  }

  /** Whole rupiah and sen, written together, are the amount in minor units. */
  lemma DigitsOf(x: nat)
    ensures var clean := Itoa(x / 100) + SenText(x % 100);
            AllDigits(clean) && Value(clean) == if x % 100 == 0 then x / 100 else x
  {
    var whole := Itoa(x / 100);
    ValueOfItoa(x / 100);
    if x % 100 == 0 {
      assert whole + SenText(x % 100) == whole;
    } else {
      SenDigits(x % 100);
      ValueConcat2(whole, SenText(x % 100));
    }
  }

  lemma ParseDigits(digits: string)
    requires digits != "" && AllDigits(digits) && Value(digits) < TWO_63
    ensures ParseInt(digits) == Some(Value(digits) as int)
    ensures ParseInt("-" + digits) == Some(0 - Value(digits))
  {
    assert IsDigit(digits[0]);
    assert ("-" + digits)[1..] == digits;
    hide Value;
  }

  lemma WrapsNothing(x: int)
    requires IsInt64(x)
    ensures Wrap64(x) == x
  {
  }

  /** What parseRupiah makes of digits, with and without a minus sign. */
  lemma ParsedDigits(s: string, digits: string)
    requires digits != "" && AllDigits(digits) && Value(digits) < TWO_63
    ensures Strip(s) == digits ==> ParseRupiah(s) == Some(Wrap64(Value(digits) * 100))
    ensures Strip(s) == "-" + digits && Value(digits) > 0 ==> ParseRupiah(s) == None
  {
    hide Strip, Value, ParseInt, Wrap64;
    ParseDigits(digits);
  }

  /** Digits read back as x when they write a hundredth of it, and as something
      else when they write x itself. */
  lemma ReadBack(s: string, digits: string, x: int, whole: bool)
    requires 0 <= x < TWO_63 && (whole || 0 < x)
    requires Strip(s) == digits && digits != "" && AllDigits(digits)
    requires if whole then Value(digits) * 100 == x else Value(digits) == x
    ensures ParseRupiah(s) == Some(x) <==> whole
  {
    hide Strip, Value, ParseInt, Wrap64, ParseRupiah;
    ParsedDigits(s, digits);
    if whole {
      WrapsNothing(x);
    } else {
      HundredfoldDiffers(x);
    }
  }

  lemma ReadsBackPositive(x: int)
    requires 0 <= x < TWO_63 && Strip(Text(x)) == FormatInt(x / 100) + SenText(x % 100)
    ensures ParseRupiah(Text(x)) == Some(x) <==> x % 100 == 0
  {
    hide Text, Strip, Itoa, SenText, Value, ParseRupiah;
    var clean := Strip(Text(x));
    DigitsOf(x);
    assert clean == Itoa(x / 100) + SenText(x % 100) && clean != "";
    ReadBack(Text(x), clean, x, x % 100 == 0);
  }

  lemma ReadsBackNegative(x: int)
    requires -TWO_63 < x < 0
    requires Strip(Text(x)) == "-" + FormatInt(Quo(Wrap64(-x), 100)) + SenText(Rem(Wrap64(-x), 100))
    ensures ParseRupiah(Text(x)) == None
  {
    hide Text, Strip, Itoa, SenText, Value, Quo, Rem, Wrap64, ParseInt, FormatInt, ParseRupiah;
    var a := -x;
    Negated(a);
    DigitsOf(a);
    NegativeRead(Text(x), Itoa(a / 100) + SenText(a % 100), a);
  }

  lemma NegativeRead(s: string, digits: string, a: nat)
    requires Strip(s) == "-" + digits && AllDigits(digits) && digits != "" && 0 < a < TWO_63
    requires Value(digits) == if a % 100 == 0 then a / 100 else a
    ensures ParseRupiah(s) == None
  {
    hide Strip, Value, ParseRupiah;
    ParsedDigits(s, digits);
  }

  /** The smallest amount has no positive counterpart: it prints with two signs. */
  lemma ReadsBackSmallest()
    requires Strip(Text(-TWO_63)) == "-" + FormatInt(Quo(Wrap64(TWO_63), 100)) + SenText(Rem(Wrap64(TWO_63), 100))
    ensures ParseRupiah(Text(-TWO_63)) == None
  {
    hide Text, Strip, SenText, Quo, Rem, Wrap64, FormatInt, ParseRupiah;
    SmallestHasTwoSigns();
    var rest := FormatInt(Quo(Wrap64(TWO_63), 100)) + SenText(Rem(Wrap64(TWO_63), 100));
    assert Strip(Text(-TWO_63)) == "-" + rest;
    SignedTwice(Text(-TWO_63), rest);
  }

  lemma SmallestHasTwoSigns()
    ensures FormatInt(Quo(Wrap64(TWO_63), 100))[0] == '-'
  {
  }

  lemma SignedTwice(s: string, rest: string)
    requires Strip(s) == "-" + rest && rest != "" && rest[0] == '-'
    ensures ParseRupiah(s) == None
  {
    TwoSigns(rest);
    hide Strip, ParseInt;
  }

  lemma TwoSigns(rest: string)
    requires rest != "" && rest[0] == '-'
    ensures ParseInt("-" + rest) == None
  {
    assert ("-" + rest)[1..] == rest;
  }

  lemma Negated(a: int)
    requires 0 < a < TWO_63
    ensures Wrap64(a) == a && FormatInt(Quo(a, 100)) == Itoa(a / 100) && Rem(a, 100) == a % 100
  {
    hide Itoa;
  }

  lemma OneDigit(c: char)
    requires IsDigit(c)
    ensures ParseRupiah([c]) == Some(DigitValue(c) * 100)
  {
    assert [c][1..] == "" && [c][..0] == "";
    assert Strip("") == "" && Strip([c]) == [c];
    assert Value("") == 0 && Value([c]) == DigitValue(c);
  }

  /** What is read is a hundred times the number written exactly up to the
      largest amount 64 bits hold; past it the product wraps and nothing says so. */
  lemma ReadExactly(s: string, n: int)
    requires ParseInt(Strip(s)) == Some(n) && n >= 0
    ensures ParseRupiah(s).Some?
    ensures ParseRupiah(s) == Some(n * 100) <==> n <= (TWO_63 - 1) / 100
  {
    hide Strip, ParseInt;
  }

  /** The least number of rupiah that is too many reads as a negative amount. */
  lemma TooManyWrap()
    ensures var n := (TWO_63 - 1) / 100 + 1; ParseRupiah(Itoa(n)) == Some(n * 100 - 2 * TWO_63)
  {
    var n := (TWO_63 - 1) / 100 + 1;
    hide Itoa, Value, Strip, ParseRupiah, Wrap64;
    ValueOfItoa(n);
    DigitsStay(Itoa(n));
    ParsedDigits(Itoa(n), Itoa(n));
    WrapsOnce(n * 100);
  }

  lemma DigitsStay(s: string)
    requires AllDigits(s)
    ensures Strip(s) == s
  {
    hide Strip, Keep;
    StripPlain(s);
    KeepUnseparated(s);
  }

  lemma WrapsOnce(x: int)
    requires TWO_63 <= x < 2 * TWO_63
    ensures Wrap64(x) == x - 2 * TWO_63
  {
  }

  // ------------------------------------------------------------- how it reads

  /** Digits in threes from the right, a dot between. */
  function Threes(s: string): string {
    if |s| <= 3 then s else Threes(s[..|s| - 3]) + "." + s[|s| - 3..]
  }

  lemma {:induction false} GroupedFront(whole: string, i: nat)
    requires |whole| > 3 && i <= |whole| - 3
    ensures Grouped(whole, i) == Grouped(whole[..|whole| - 3], i)
  {
    if i > 0 {
      GroupedFront(whole, i - 1);
    }
  }

  lemma LastThree(whole: string)
    requires |whole| > 3
    ensures var n := |whole| - 3; whole[n..] == [whole[n], whole[n + 1], whole[n + 2]]
  {
  }

  lemma GroupedTail(whole: string)
    requires |whole| > 3
    ensures var n := |whole| - 3;
            Grouped(whole, |whole|) == Grouped(whole, n) + "." + [whole[n], whole[n + 1], whole[n + 2]]
  {
    hide Grouped;
    var n := |whole| - 3;
    var s := Grouped(whole, n);
    GroupedStep(whole, n, s);
    GroupedStep(whole, n + 1, s + "." + [whole[n]]);
    GroupedStep(whole, n + 2, s + "." + [whole[n]] + [whole[n + 1]]);
    ThreeMore(s, whole[n], whole[n + 1], whole[n + 2]);
  }

  lemma ThreeMore(s: string, a: char, b: char, c: char)
    ensures s + "." + [a] + [b] + [c] == s + "." + [a, b, c]
  {
  }

  lemma GroupedStep(whole: string, i: nat, s: string)
    requires i < |whole| && s == Grouped(whole, i)
    ensures Grouped(whole, i + 1) == if i > 0 && (|whole| - i) % 3 == 0 then s + "." + [whole[i]] else s + [whole[i]]
  {
    assert s + "" == s;
  }

  lemma {:induction false} GroupedInThrees(whole: string)
    ensures Grouped(whole, |whole|) == Threes(whole)
  {
    if |whole| > 3 {
      GroupedTail(whole);
      LastThree(whole);
      GroupedFront(whole, |whole| - 3);
      GroupedInThrees(whole[..|whole| - 3]);
    } else {
      ShortIsWhole(whole, |whole|);
      assert whole[..|whole|] == whole;
    }
  }

  lemma {:induction false} ShortIsWhole(whole: string, i: nat)
    requires |whole| <= 3 && i <= |whole|
    ensures Grouped(whole, i) == whole[..i]
  {
    if i > 0 {
      ShortIsWhole(whole, i - 1);
    }
  }

  /** What an email shows of an amount: the sign, the mark, the rupiah in threes and, if
      there are any, the sen in two digits after a comma. */
  lemma TextShows(x: int)
    requires -TWO_63 < x < TWO_63
    ensures var n: nat := if x < 0 then 0 - x else x;
            Text(x) == (if x < 0 then "-" else "") + ("Rp " + (Threes(Itoa(n / 100)) + Sen(n % 100)))
  {
    var n: nat := if x < 0 then 0 - x else x;
    BodyShows(n);
    Magnitude(x, n);
    hide Itoa, Threes, Body, Quo, Rem, Wrap64;
  }

  /** The sen after a comma, or nothing. */
  function Sen(sen: nat): string
    requires sen < 100
  {
    if sen == 0 then "" else [',', Digit(sen / 10), Digit(sen % 10)]
  }

  lemma Magnitude(x: int, n: nat)
    requires -TWO_63 < x < TWO_63 && n == if x < 0 then 0 - x else x
    ensures (if x < 0 then Wrap64(-x) else x) == n && FormatInt(Quo(n, 100)) == Itoa(n / 100) && Rem(n, 100) == n % 100
  {
    if n > 0 {
      Negated(n);
    }
  }

  lemma BodyShows(n: nat)
    ensures Body(Itoa(n / 100), n % 100) ==
            Threes(Itoa(n / 100)) + Sen(n % 100)
  {
    GroupedInThrees(Itoa(n / 100));
    if n % 100 != 0 {
      SenShows(n % 100);
    }
    hide Itoa, Grouped, Threes, SenText;
  }

  lemma SenShows(sen: nat)
    requires 0 < sen < 100
    ensures "," + SenText(sen) == [',', Digit(sen / 10), Digit(sen % 10)]
  {
    SenDigits(sen);
    assert Itoa(100 + sen) == Itoa((100 + sen) / 10) + [Digit((100 + sen) % 10)];
    assert Itoa((100 + sen) / 10) == Itoa(1) + [Digit(sen / 10)];
    assert Itoa(1) == [Digit(1)];
  }
}
