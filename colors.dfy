/**
 * Display colours of payment events: channels rendered as `#rrggbb` strings
 * with lower-case hexadecimal digits, and the colour an event gets when its
 * payment names none.
 */
module Colors {
  import opened Wrappers
  import opened Payments

  /** A colour channel. */
  type Channel = x: int | 0 <= x <= 255

  datatype Rgb = Rgb(red: Channel, green: Channel, blue: Channel)

  predicate IsHexDigit(c: char) {
    '0' <= c <= '9' || 'a' <= c <= 'f'
  }

  predicate IsHexString(s: string) {
    forall i :: 0 <= i < |s| ==> IsHexDigit(s[i])
  }

  function DigitValue(c: char): (v: nat)
    requires IsHexDigit(c)
    ensures v < 16
  {
    if c <= '9' then c as int - '0' as int else c as int - 'a' as int + 10
  }

  /** The lower-case hexadecimal digit of `n`; it reads back as `n`. */
  function HexDigit(n: nat): (c: char)
    requires n < 16
    ensures IsHexDigit(c) && DigitValue(c) == n
  {
    if n < 10 then ('0' as int + n) as char else ('a' as int + n - 10) as char
  }

  /** The number a string of hexadecimal digits denotes, most significant first. */
  function HexValue(s: string): (v: nat)
    requires IsHexString(s)
    ensures |s| <= 1 ==> v < 16
    ensures |s| <= 2 ==> v < 256
    decreases |s|
  {
    if s == [] then 0 else HexValue(s[..|s| - 1]) * 16 + DigitValue(s[|s| - 1])
  }

  /**
   * Python's `hex(n)[2:]` for `n >= 0`: the digits of `n` in base 16 without
   * leading zeros ("0" for zero). One digit exactly below 16, at most two
   * exactly below 256.
   */
  function ToHex(n: nat): (s: string)
    ensures IsHexString(s) && HexValue(s) == n
    ensures |s| >= 1 && (s[0] == '0' ==> s == "0")
    ensures |s| == 1 <==> n < 16
    ensures |s| <= 2 <==> n < 256
    decreases n
  {
    if n < 16 then [HexDigit(n)]
    else
      var prefix := ToHex(n / 16);
      var s := prefix + [HexDigit(n % 16)];
      assert s[..|s| - 1] == prefix;
      s
  }

  /**
   * `pad_with_zero`: prepend a single "0" to strings shorter than two
   * characters and leave the others unchanged.
   */
  function PadWithZero(n: string): (r: string)
    ensures r == n || r == "0" + n
    ensures r == n <==> |n| >= 2
  {
    if |n| < 2 then "0" + n else n
  }

  /** A leading zero does not change the value of a hexadecimal string. */
  lemma {:induction false} LeadingZero(s: string)
    requires IsHexString(s)
    ensures IsHexString("0" + s) && HexValue("0" + s) == HexValue(s)
    decreases |s|
  {
    var t := "0" + s;
    assert IsHexString(t) by {
      forall i | 0 <= i < |t| ensures IsHexDigit(t[i]) {
        if i > 0 { assert t[i] == s[i - 1]; }
      }
    }
    if s != [] {
      var init := s[..|s| - 1];
      assert t[..|t| - 1] == "0" + init;
      LeadingZero(init);
    } else {
      assert t[..|t| - 1] == [];
    }
  }

  /** Padding a channel's digits gives two digits with the channel's value. */
  lemma PaddedChannel(c: Channel)
    ensures |PadWithZero(ToHex(c))| == 2
    ensures IsHexString(PadWithZero(ToHex(c))) && HexValue(PadWithZero(ToHex(c))) == c
  {
    if c < 16 { LeadingZero(ToHex(c)); }
  }

  /** Reads a `#rrggbb` string back into its three channels. */
  function ParseRgb(s: string): (c: Option<Rgb>)
    ensures c.Some? ==> |s| == 7 && s[0] == '#'
  {
    if |s| == 7 && s[0] == '#' && IsHexString(s[1..3]) && IsHexString(s[3..5]) && IsHexString(s[5..7])
    then Some(Rgb(HexValue(s[1..3]), HexValue(s[3..5]), HexValue(s[5..7])))
    else None
  }

  /**
   * `rgb_to_hex`: "#" followed by each channel's padded digits. For channels
   * in 0..255 the result has seven characters, lower-case hexadecimal
   * digits after the "#", and reads back as the three channels.
   */
  function RgbToHex(r: nat, g: nat, b: nat): (s: string)
    ensures |s| >= 1 && s[0] == '#'
    ensures r <= 255 && g <= 255 && b <= 255 ==>
              |s| == 7 && IsHexString(s[1..]) && ParseRgb(s) == Some(Rgb(r, g, b))
  {
    var s := "#" + PadWithZero(ToHex(r)) + PadWithZero(ToHex(g)) + PadWithZero(ToHex(b));
    if r <= 255 && g <= 255 && b <= 255 then
      PaddedChannel(r);
      PaddedChannel(g);
      PaddedChannel(b);
      HexFields(PadWithZero(ToHex(r)), PadWithZero(ToHex(g)), PadWithZero(ToHex(b)));
      s
    else
      s
  }

  /** "#" followed by three two-digit fields splits back into those fields. */
  lemma HexFields(x: string, y: string, z: string)
    requires |x| == 2 && |y| == 2 && |z| == 2
    requires IsHexString(x) && IsHexString(y) && IsHexString(z)
    ensures var s := "#" + x + y + z;
      |s| == 7 && s[1..3] == x && s[3..5] == y && s[5..7] == z && IsHexString(s[1..])
  {
    var s := "#" + x + y + z;
    assert s[1..3] == x && s[3..5] == y && s[5..7] == z;
    assert s[1..] == x + y + z;
  }

  /** Python truthiness of `payment.color`: present and not the empty string. */
  predicate Explicit(color: Option<string>) {
    color.Some? && color.value != ""
  }

  /**
   * `get_color`: an explicit colour passes through unchanged. Otherwise the
   * colour is red-based, `(255, v, v)`, for an expense and green-based,
   * `(v, 255, v)`, for income, where `v = intensity(amount)` stands for the
   * floating-point `max(0, int(200 - log2(|amount|)**2))`. A zero amount
   * without a colour raises the logarithm's domain error.
   */
  function GetColor(p: Payment, intensity: int -> Channel): (r: Result<string, Failure>)
    ensures Explicit(p.color) ==> r == Ok(p.color.value)
    ensures r.Err? <==> !Explicit(p.color) && p.amount == 0
    ensures r.Err? ==> r.error == MathDomainError
    ensures !Explicit(p.color) && p.amount < 0 ==>
              r.Ok? && ParseRgb(r.value) == Some(Rgb(255, intensity(p.amount), intensity(p.amount)))
    ensures !Explicit(p.color) && p.amount > 0 ==>
              r.Ok? && ParseRgb(r.value) == Some(Rgb(intensity(p.amount), 255, intensity(p.amount)))
  {
    if Explicit(p.color) then Ok(p.color.value)
    else if p.amount == 0 then Err(MathDomainError)
    else
      var v := intensity(p.amount);
      Ok(if p.amount < 0 then RgbToHex(255, v, v) else RgbToHex(v, 255, v))
  }
}
