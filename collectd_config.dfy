/**
 * Values of collectd's configuration tree as the Python plugins receive them:
 * each option node has a key and a list of values, each a string, a number or a
 * boolean, and the plugins read them with Python's `str()`, `int()` and `bool()`.
 */
module CollectdConfig {
  import opened Wrappers
  import opened Text

  /** One value of a configuration node; collectd hands every number over as a float. */
  datatype ConfigValue = Str(s: string) | Num(x: real) | Flag(b: bool)

  /** One option node: `Key value...`. */
  datatype ConfigNode = ConfigNode(key: string, values: seq<ConfigValue>)

  /** Python's `bool(v)`: empty strings, zero and `False` are false; every other string, including "false", is true. */
  function Truthy(v: ConfigValue): bool {
    match v
    case Str(s) => s != ""
    case Num(x) => x != 0.0
    case Flag(b) => b
  }

  /** Python's `int(v)`, which truncates a float toward zero; `None` where it raises. */
  function ToInt(v: ConfigValue): Option<int> {
    match v
    case Str(s) => ParseInt(s)
    case Num(x) => Some(Trunc(x))
    case Flag(b) => Some(if b then 1 else 0)
  }

  /** Python 2's `str(v)`: a whole float keeps its `.0`, any other is written with its decimal digits (without the `%.12g` rounding). */
  function ToStr(v: ConfigValue): string {
    match v
    case Str(s) => s
    case Num(x) => FloatText(x)
    case Flag(b) => if b then "True" else "False"
  }

  /** Python's `int(x)` on a float: truncation toward zero. */
  function Trunc(x: real): (n: int)
    ensures -1.0 < x - n as real < 1.0
    ensures x >= 0.0 ==> 0 <= n && n as real <= x
    ensures x < 0.0 ==> n <= 0 && x <= n as real
  {
    if x >= 0.0 then x.Floor else -((-x).Floor)
  }

  /** The text of a float: sign, whole part, `.`, then the fraction's digits (`.0` for a whole number). */
  function FloatText(x: real): string {
    if x < 0.0 then "-" + PlainText(-x) else PlainText(x)
  }

  function PlainText(x: real): string
    requires x >= 0.0
  {
    var w := x.Floor;
    var f := FractionDigits(x - w as real, 17);
    IntToString(w) + "." + (if f == "" then "0" else f)
  }

  /** The decimal digits of a fraction in [0, 1), at most `fuel` of them, without trailing zeros. */
  function FractionDigits(f: real, fuel: nat): string
    requires 0.0 <= f < 1.0
    decreases fuel
  {
    if f == 0.0 || fuel == 0 then ""
    else
      var d := (f * 10.0).Floor;
      [DigitChar(d)] + FractionDigits(f * 10.0 - d as real, fuel - 1)
  }

  /** collectd's floats read by `int()` and `str()`: `50.7` truncates to 50 and `0.5` to 0, and `2.5` prints as `2.5`. */
  lemma FloatOptions()
    ensures ToInt(Num(50.7)) == Some(50) && ToInt(Num(0.5)) == Some(0) && ToInt(Num(-2.5)) == Some(-2)
    ensures ToStr(Num(2.5)) == "2.5" && ToStr(Num(10.0)) == "10.0"
  {
    assert FractionDigits(0.5, 17) == "5" by {
      assert FractionDigits(0.0, 16) == "";
    }
    assert FractionDigits(0.0, 17) == "";
  }

  /** A number written in the configuration file as a string reads back as that number. */
  lemma ToIntOfWritten(n: int)
    ensures ToInt(Str(IntToString(n))) == Some(n)
  {
    ParseIntToString(n);
  }

  /** `node.values[0]`; `None` where it raises `IndexError`. */
  function FirstValue(node: ConfigNode): Option<ConfigValue> {
    if node.values == [] then None else Some(node.values[0])
  }
}
