/**
 * Java's integer parsing on ASCII digits: `Integer.parseInt` (decimal with an
 * optional sign) and `Integer.decode` (also `0x`, `0X`, `#` hexadecimal and
 * leading-zero octal), both rejecting values outside 32 bits.
 */
module JavaNumbers {
  import opened Wrappers

  const MinInt: int := -0x8000_0000
  const MaxInt: int := 0x7fff_ffff

  predicate InInt32(n: int) { MinInt <= n <= MaxInt }

  /** The digit value of `c` in radixes up to 16; 16 when `c` is no such digit. */
  function Digit(c: char): (d: nat)
    ensures d <= 16
    ensures d < 10 <==> '0' <= c <= '9'
  {
    if '0' <= c <= '9' then c as int - '0' as int
    else if 'a' <= c <= 'f' then c as int - 'a' as int + 10
    else if 'A' <= c <= 'F' then c as int - 'A' as int + 10
    else 16
  }

  predicate AllDigits(s: string, radix: nat)
  {
    forall i :: 0 <= i < |s| ==> Digit(s[i]) < radix
  }

  /** The value of a digit string, most significant digit first. */
  function Magnitude(s: string, radix: nat): nat
    requires AllDigits(s, radix)
  {
    if s == [] then 0 else Magnitude(s[..|s| - 1], radix) * radix + Digit(s[|s| - 1])
  }

  /** A non-empty digit string with a sign applied, if the result fits in 32 bits. */
  function Signed(negative: bool, digits: string, radix: nat): (r: Option<int>)
    ensures r.Some? ==> InInt32(r.value)
    ensures r.Some? <==> |digits| > 0 && AllDigits(digits, radix)
                         && InInt32(if negative then -(Magnitude(digits, radix) as int) else Magnitude(digits, radix))
  {
    if |digits| == 0 || !AllDigits(digits, radix) then None
    else
      var v := if negative then -(Magnitude(digits, radix) as int) else Magnitude(digits, radix);
      if InInt32(v) then Some(v) else None
  }

  predicate HasPrefix(s: string, p: string) { |p| <= |s| && s[..|p|] == p }

  /** `Integer.parseInt(s)`: `None` where Java throws NumberFormatException. */
  function ParseInt(s: string): (r: Option<int>)
    ensures r.Some? ==> InInt32(r.value)
  {
    if |s| > 0 && (s[0] == '-' || s[0] == '+') then Signed(s[0] == '-', s[1..], 10)
    else Signed(false, s, 10)
  }

  /** `Integer.decode(s)`: `None` where Java throws NumberFormatException. */
  function Decode(s: string): (r: Option<int>)
    ensures r.Some? ==> InInt32(r.value)
  {
    if |s| == 0 then None
    else
      var negative := s[0] == '-';
      var rest := if s[0] == '-' || s[0] == '+' then s[1..] else s;
      var (radix, digits) :=
        if HasPrefix(rest, "0x") || HasPrefix(rest, "0X") then (16, rest[2..])
        else if HasPrefix(rest, "#") then (16, rest[1..])
        else if HasPrefix(rest, "0") && |rest| > 1 then (8, rest[1..])
        else (10, rest);
      if |digits| > 0 && (digits[0] == '-' || digits[0] == '+') then None
      else Signed(negative, digits, radix)
  }

  function DigitChar(d: nat): (c: char)
    requires d < 10
    ensures Digit(c) == d
  {
    ('0' as int + d) as char
  }

  /** Decimal rendering of a natural number, without leading zeros. */
  function ShowNat(n: nat): string
  {
    if n < 10 then [DigitChar(n)] else ShowNat(n / 10) + [DigitChar(n % 10)]
  }

  /** Decimal rendering of an integer, as `Integer.toString` writes it. */
  function Show(n: int): string
  {
    if n < 0 then "-" + ShowNat(-n) else ShowNat(n)
  }

  lemma {:induction false} ShowNatDigits(n: nat)
    ensures |ShowNat(n)| > 0 && AllDigits(ShowNat(n), 10)
    ensures Magnitude(ShowNat(n), 10) == n
    ensures n > 0 ==> ShowNat(n)[0] != '0'
    ensures n == 0 ==> ShowNat(n) == "0"
  {
    if n >= 10 {
      ShowNatDigits(n / 10);
      var s := ShowNat(n);
      assert s[..|s| - 1] == ShowNat(n / 10);
    }
  }

  /** `Integer.parseInt` reads back every 32-bit value that `Integer.toString` writes. */
  lemma ParseIntShow(n: int)
    requires InInt32(n)
    ensures ParseInt(Show(n)) == Some(n)
  {
    var s := Show(n);
    if n < 0 {
      ShowNatDigits(-n);
      assert s[0] == '-' && s[1..] == ShowNat(-n);
      assert ParseInt(s) == Signed(true, ShowNat(-n), 10);
    } else {
      ShowNatDigits(n);
      assert s == ShowNat(n) && s[0] != '-' && s[0] != '+';
      assert ParseInt(s) == Signed(false, ShowNat(n), 10);
    }
  }

  /** Without a radix prefix or a leading zero, `Integer.decode` reads its digits as decimal. */
  lemma DecodeDecimal(negative: bool, digits: string)
    requires |digits| > 0 && AllDigits(digits, 10)
    requires |digits| > 1 ==> digits[0] != '0'
    ensures Decode((if negative then "-" else "") + digits) == Signed(negative, digits, 10)
  {
    var s := (if negative then "-" else "") + digits;
    assert Digit(digits[0]) < 10;
    var rest := if s[0] == '-' || s[0] == '+' then s[1..] else s;
    assert rest == digits;
    assert !HasPrefix(digits, "#") by { assert digits[0] != '#'; }
    if |digits| > 1 {
      assert digits[..1][0] == digits[..2][0] == digits[0];
    }
  }

  /** `Integer.decode` reads back every 32-bit value that `Integer.toString` writes. */
  lemma DecodeShow(n: int)
    requires InInt32(n)
    ensures Decode(Show(n)) == Some(n)
  {
    var m := if n < 0 then -n else n;
    ShowNatDigits(m);
    DecodeDecimal(n < 0, ShowNat(m));
    assert Show(n) == (if n < 0 then "-" else "") + ShowNat(m);
  }

  /** Appending a digit multiplies by the radix and adds the digit. */
  lemma MagnitudeStep(s: string, c: char, radix: nat)
    requires AllDigits(s, radix) && Digit(c) < radix
    ensures AllDigits(s + [c], radix)
    ensures Magnitude(s + [c], radix) == Magnitude(s, radix) * radix + Digit(c)
  {
    assert (s + [c])[..|s|] == s;
  }

  /** `Integer.decode` honours the `0x` prefix. */
  lemma DecodeHexExample()
    ensures Decode("0x1F") == Some(31)
  {
    assert Magnitude("1", 16) == 1;
    MagnitudeStep("1", 'F', 16);
    assert "1" + ['F'] == "1F";
    assert "0x1F"[..2] == "0x" && "0x1F"[2..] == "1F";
    assert Decode("0x1F") == Signed(false, "1F", 16);
  }

  /** `Integer.decode` honours the `#` prefix. */
  lemma DecodeHashExample()
    ensures Decode("#ff") == Some(255)
  {
    assert Magnitude("f", 16) == 15;
    MagnitudeStep("f", 'f', 16);
    assert "f" + ['f'] == "ff";
    assert "#ff"[..2] == "#f" && "#ff"[..1] == "#" && "#ff"[1..] == "ff";
    assert Decode("#ff") == Signed(false, "ff", 16);
  }

  /** A leading zero makes `Integer.decode` read octal. */
  lemma DecodeOctalExample()
    ensures Decode("010") == Some(8)
  {
    assert Magnitude("1", 8) == 1;
    MagnitudeStep("1", '0', 8);
    assert "1" + ['0'] == "10";
    assert "010"[..2] == "01" && "010"[..1] == "0" && "010"[1..] == "10";
    assert Decode("010") == Signed(false, "10", 8);
  }

  /** A non-octal digit after a leading zero, a bare sign and a doubled sign are all rejected. */
  lemma DecodeRejects()
    ensures Decode("08") == None && Decode("-") == None && Decode("+-1") == None
  {
    assert Decode("08") == Signed(false, "8", 8);
    assert !AllDigits("8", 8);
    assert "-"[1..] == "";
    assert "+-1"[1..] == "-1";
  }

  /** `Integer.parseInt` is decimal only, so a leading zero is not octal. */
  lemma ParseIntExamples()
    ensures ParseInt("010") == Some(10) && ParseInt("+7") == Some(7) && ParseInt("") == None
  {
    assert Magnitude("0", 10) == 0;
    MagnitudeStep("0", '1', 10);
    assert "0" + ['1'] == "01";
    MagnitudeStep("01", '0', 10);
    assert "01" + ['0'] == "010";
    assert "+7"[1..] == "7";
  }

  lemma ParseInt8080()
    ensures Magnitude("8080", 10) == 8080 && ParseInt("8080") == Some(8080)
  {
    assert Magnitude("8", 10) == 8;
    MagnitudeStep("8", '0', 10);
    assert "8" + ['0'] == "80";
    MagnitudeStep("80", '8', 10);
    assert "80" + ['8'] == "808";
    MagnitudeStep("808", '0', 10);
    assert "808" + ['0'] == "8080";
    assert ParseInt("8080") == Signed(false, "8080", 10);
  }

  lemma ParseInt8443()
    ensures Magnitude("8443", 10) == 8443 && ParseInt("8443") == Some(8443)
  {
    assert Magnitude("8", 10) == 8;
    MagnitudeStep("8", '4', 10);
    assert "8" + ['4'] == "84";
    MagnitudeStep("84", '4', 10);
    assert "84" + ['4'] == "844";
    MagnitudeStep("844", '3', 10);
    assert "844" + ['3'] == "8443";
    assert ParseInt("8443") == Signed(false, "8443", 10);
  }

  lemma ParseInt9090()
    ensures Magnitude("9090", 10) == 9090 && ParseInt("9090") == Some(9090)
  {
    assert Magnitude("9", 10) == 9;
    MagnitudeStep("9", '0', 10);
    assert "9" + ['0'] == "90";
    MagnitudeStep("90", '9', 10);
    assert "90" + ['9'] == "909";
    MagnitudeStep("909", '0', 10);
    assert "909" + ['0'] == "9090";
    assert ParseInt("9090") == Signed(false, "9090", 10);
  }

  lemma Decode9090()
    ensures Decode("9090") == Some(9090)
  {
    ParseInt9090();
  }
}
