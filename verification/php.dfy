/** The PHP values the client copies into bodies and writes into strings. */
module Php {
  import Decimal

  /**
   * A PHP scalar: `null`, a boolean, an integer or a string.  Floats, arrays
   * and objects are not part of this model.
   */
  datatype Value = Null | Bool(b: bool) | Int(i: int) | Str(s: string)

  /** PHP's decimal text of an integer, with a leading '-' when negative. */
  function IntText(i: int): string {
    if i < 0 then "-" + Decimal.Numeral(-i) else Decimal.Numeral(i)
  }

  /**
   * What `"{$v}"` puts in a string for `v` (PHP's string conversion): empty
   * exactly for null, false and the empty string; a string is copied, and an
   * integer becomes its decimal text, which reads back as the integer and
   * holds no '&' or '/'.
   */
  function Interpolate(v: Value): (s: string)
    ensures s == "" <==> v == Null || v == Bool(false) || v == Str("")
    ensures v.Str? ==> s == v.s
    ensures v == Bool(true) ==> s == "1"
    ensures v.Int? ==> ArrayKey(s) == IntKey(v.i) && '&' !in s && '/' !in s
  {
    match v
    case Null => ""
    case Bool(b) => if b then "1" else ""
    case Int(i) =>
      IntTextReadsBack(i);
      ArrayKeyOfIntText(i);
      IntText(i)
    case Str(s) => s
  }

  /** `isset($v)`: true for every value but `null`. */
  predicate IsSet(v: Value) { !v.Null? }

  /** `$m[$k]` on a PHP array: `null` (with a warning) when the key is missing. */
  function Lookup<K>(m: map<K, Value>, k: K): Value {
    if k in m then m[k] else Null
  }

  /**
   * PHP 8's loose `$v == $word`, for a string `word` that is not numeric:
   * null compares as "", a boolean against the string's truth, an integer
   * as its decimal text, and a string character by character.
   */
  predicate LooseEquals(v: Value, word: string) {
    match v
    case Null => word == ""
    case Bool(b) => b == (word != "" && word != "0")
    case Int(i) => IntText(i) == word
    case Str(s) => s == word
  }

  /** A key of a PHP array: an integer or a string. */
  datatype Key = IntKey(n: int) | StrKey(s: string)

  /**
   * The key PHP stores a string key under: a string that is the decimal text
   * of an integer (no leading zero, no "-0") becomes that integer, any other
   * string stays a string.
   */
  function ArrayKey(name: string): (k: Key)
    ensures k.StrKey? ==> k.s == name
    ensures k.IntKey? ==> name == IntText(k.n)
  {
    if Decimal.Canonical(name) then
      Decimal.NumeralRead(name);
      IntKey(Decimal.Read(name))
    else if |name| > 1 && name[0] == '-' && name[1] != '0' && Decimal.Canonical(name[1..]) then
      var digits := name[1..];
      Decimal.NumeralRead(digits);
      Decimal.NonZeroLead(digits);
      assert name == "-" + digits;
      IntKey(-(Decimal.Read(digits) as int))
    else
      StrKey(name)
  }

  /** `$a[$name]`: the entry under the key the string stands for, or `null`. */
  function Index(a: map<Key, Value>, name: string): Value {
    Lookup(a, ArrayKey(name))
  }

  /** The decimal text of an integer is stored as that integer. */
  lemma ArrayKeyOfIntText(i: int)
    ensures ArrayKey(IntText(i)) == IntKey(i)
  {
    var t := IntText(i);
    IntTextReadsBack(i);
    if i < 0 {
      var digits := Decimal.Numeral(-i);
      assert t[1..] == digits;
      assert !Decimal.Canonical(t) by { assert !Decimal.IsDigit(t[0]); }
      assert t[1] == digits[0];
      Decimal.NonZeroLead(digits);
    }
  }

  /** Two strings are stored under the same key only when they are equal. */
  lemma ArrayKeyInjective(p: string, q: string)
    requires ArrayKey(p) == ArrayKey(q)
    ensures p == q
  {
  }

  /** The text of an integer reads back as that integer, and holds no separator. */
  lemma IntTextReadsBack(i: int)
    ensures var t := IntText(i);
      if i < 0 then t[0] == '-' && Decimal.Read(t[1..]) == -i && Decimal.Canonical(t[1..])
      else Decimal.Read(t) == i && Decimal.Canonical(t)
    ensures '&' !in IntText(i) && '/' !in IntText(i)
  {
    var t := IntText(i);
    if i < 0 {
      Decimal.ReadNumeral(-i);
      assert t[1..] == Decimal.Numeral(-i);
      assert t == ['-'] + t[1..];
    } else {
      Decimal.ReadNumeral(i);
    }
  }
}
