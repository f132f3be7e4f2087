/**
 * How a JavaScript value enters a command string. Three observations of a value
 * matter to the code that uses it: the text it turns into when it is
 * concatenated into a command, the number `parseFloat` reads from it (NaN is
 * `None`), and whether it is truthy. `JsValue` records exactly these three. For
 * an integer the text is computed as `String(n)` writes it: plain decimal
 * digits, which is what `'#LR0' + value` appends in lib/commands.js.
 */
module NumberText {
  import opened Wrappers

  datatype JsValue = JsValue(text: string, number: Option<real>, truthy: bool)

  /** The JavaScript value `undefined`: an argument the caller left out. */
  const Undefined := JsValue("undefined", None, false)

  /** The character of the decimal digit `d`. */
  function DigitChar(d: nat): (c: char)
    requires d < 10
    ensures '0' <= c <= '9'
  {
    ('0' as int + d) as char
  }

  /** The value of the decimal digit character `c`. */
  function DigitValue(c: char): (d: nat)
    requires '0' <= c <= '9'
    ensures d < 10
  {
    c as int - '0' as int
  }

  /** Decimal digits of `n`, most significant first, as `String(n)` writes them. */
  function Digits(n: nat): (s: string)
    ensures |s| >= 1
    ensures forall i :: 0 <= i < |s| ==> '0' <= s[i] <= '9'
    ensures n > 0 ==> s[0] != '0'
    decreases n
  {
    if n < 10 then [DigitChar(n)] else Digits(n / 10) + [DigitChar(n % 10)]
  }

  /** Reads back a string of decimal digits. */
  function ParseDigits(s: string): nat
    requires forall i :: 0 <= i < |s| ==> '0' <= s[i] <= '9'
  {
    if s == [] then 0 else ParseDigits(s[..|s| - 1]) * 10 + DigitValue(s[|s| - 1])
  }

  /** `Digits` loses nothing: reading the digits back gives the number. */
  lemma {:induction false} ParseDigitsOfDigits(n: nat)
    ensures ParseDigits(Digits(n)) == n
  {
    if n >= 10 {
      var s := Digits(n);
      assert s[..|s| - 1] == Digits(n / 10);
      ParseDigitsOfDigits(n / 10);
    }
  }

  /** Numbers below 1000 take one, two or three digits: nothing pads them. */
  lemma {:induction false} DigitsLength(n: nat)
    requires n < 1000
    ensures |Digits(n)| == if n < 10 then 1 else if n < 100 then 2 else 3
  {
    if n >= 10 {
      DigitsLength(n / 10);
    }
  }

  /** The text `String(n)` gives for an integer `n`. */
  function DecimalText(n: int): string {
    if n < 0 then "-" + Digits(-n) else Digits(n)
  }

  /** The JavaScript number `n` (an integer); it is falsy exactly when it is 0. */
  function IntValue(n: int): JsValue {
    JsValue(DecimalText(n), Some(n as real), n != 0)
  }

  /** The two constants `checkValue` can return are written "255" and "0". */
  lemma BoundTexts()
    ensures IntValue(255).text == "255"
    ensures IntValue(0).text == "0"
  {
    assert Digits(2) == "2";
    assert Digits(25) == Digits(2) + ['5'];
    assert Digits(255) == Digits(25) + ['5'];
  }
}
