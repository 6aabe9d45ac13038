/**
 * The JavaScript values that the order validator and the request builders
 * inspect, with the three language operations they rely on: truthiness
 * (`!x`, `x && y`, `x || y`), conversion to a string (template literals,
 * `Array.prototype.join`), and loose equality `==` against a string literal.
 * `String.prototype.split` is modelled as well, to state the round trip of
 * the comma-joined symbol list.
 */
module JsValues {

  /**
   * A JavaScript value. Numbers are integers here, printed in plain decimal:
   * the order guards only ask whether a number is zero, and a number reaches
   * a request string only through `String(n)` of a `limit` or a symbol.
   * `NaN` is kept apart because it is falsy. `Obj` is a plain object (no own
   * `toString` or `valueOf`).
   */
  datatype JsVal =
    | Undefined
    | Null
    | Bool(b: bool)
    | Num(n: int)
    | NaN
    | Str(s: string)
    | Arr(elems: seq<JsVal>)
    | Obj

  /** ECMAScript ToBoolean: what `!!v` gives. */
  predicate Truthy(v: JsVal) {
    match v
    case Undefined => false
    case Null => false
    case Bool(b) => b
    case Num(n) => n != 0
    case NaN => false
    case Str(s) => s != ""
    case Arr(_) => true
    case Obj => true
  }

  /** The falsy values are exactly `undefined`, `null`, `false`, `0`, `NaN` and `""`. */
  lemma FalsyValues(v: JsVal)
    ensures !Truthy(v) <==> v in {Undefined, Null, Bool(false), Num(0), NaN, Str("")}
  {
  }

  /** `a || b`: the first operand when it is truthy, otherwise the second. */
  function Or(a: JsVal, b: JsVal): (r: JsVal)
    ensures Truthy(a) ==> r == a
    ensures !Truthy(a) ==> r == b
    ensures Truthy(r) <==> Truthy(a) || Truthy(b)
  {
    if Truthy(a) then a else b
  }

  /** The decimal digit `d` as a character. */
  function DigitChar(d: int): (c: char)
    requires 0 <= d < 10
    ensures '0' <= c <= '9'
  {
    "0123456789"[d]
  }

  /** The decimal numeral of `n`, without leading zeros. */
  function NatToString(n: nat): (r: string)
    ensures |r| >= 1
    ensures forall i :: 0 <= i < |r| ==> '0' <= r[i] <= '9'
    decreases n
  {
    if n < 10 then [DigitChar(n)] else NatToString(n / 10) + [DigitChar(n % 10)]
  }

  /** `String(n)` for an integer `n`: an optional minus sign, then decimal digits. */
  function IntToString(n: int): (r: string)
    ensures |r| >= 1 && (r[0] == '-' || '0' <= r[0] <= '9')
  {
    if n < 0 then "-" + NatToString(-n) else NatToString(n)
  }

  /** ECMAScript ToString, as a template literal `${v}` applies it. */
  function ToString(v: JsVal): string
    decreases v, 1
  {
    match v
    case Undefined => "undefined"
    case Null => "null"
    case Bool(b) => if b then "true" else "false"
    case Num(n) => IntToString(n)
    case NaN => "NaN"
    case Str(s) => s
    case Arr(es) => Join(es, ",")
    case Obj => "[object Object]"
  }

  /** How `Array.prototype.join` renders one element: `null` and `undefined` become empty. */
  function ElementString(v: JsVal): string
    decreases v, 2
  {
    if v.Undefined? || v.Null? then "" else ToString(v)
  }

  /** `es.join(sep)`. */
  function Join(es: seq<JsVal>, sep: string): string
    decreases es, 0
  {
    if es == [] then ""
    else if |es| == 1 then ElementString(es[0])
    else ElementString(es[0]) + sep + Join(es[1..], sep)
  }

  /**
   * A string literal made of lower-case letters and underscores, other than
   * "true" and "false". Converted to a number it gives `NaN`, so it is never
   * loosely equal to a boolean or a number.
   */
  predicate IsWord(w: string) {
    && |w| > 0
    && (forall i :: 0 <= i < |w| ==> 'a' <= w[i] <= 'z' || w[i] == '_')
    && w != "true" && w != "false"
  }

  /**
   * `v == w` in JavaScript for a word literal `w`. A string compares its
   * text; an array or object is first converted to a primitive, which for
   * them is their string form; `null` and `undefined` equal only each other;
   * a boolean or number is compared with `Number(w)`, which is `NaN`.
   */
  function LooseEqualsWord(v: JsVal, w: string): (r: bool)
    requires IsWord(w)
    ensures r ==> Truthy(v) && ToString(v) == w
    ensures v.Str? ==> (r <==> v.s == w)
  {
    match v
    case Str(s) => s == w
    case Arr(_) => ToString(v) == w
    case Obj => ToString(v) == w
    case _ => false
  }

  /**
   * A value is loosely equal to a word exactly when it is truthy and its
   * string form is that word: the string forms of numbers start with a
   * digit or a minus sign, and those of booleans are not words.
   */
  lemma LooseEqualsWordMeaning(v: JsVal, w: string)
    requires IsWord(w)
    ensures LooseEqualsWord(v, w) <==> Truthy(v) && ToString(v) == w
  {
    assert w[0] != '-' && !('0' <= w[0] <= '9');
  }

  /** An array holding a single string is loosely equal to exactly what that string is equal to. */
  lemma SingletonArrayEquality(s: string, w: string)
    requires IsWord(w)
    ensures LooseEqualsWord(Arr([Str(s)]), w) == LooseEqualsWord(Str(s), w)
  {
    assert ToString(Arr([Str(s)])) == ElementString(Str(s)) == s;
  }

  /**
   * `s.split(sep)` for a one-character separator: the pieces between the
   * separators, so there is always at least one piece and none contains the
   * separator (`"".split(",")` is `[""]`).
   */
  function Split(s: string, sep: char): (r: seq<string>)
    ensures |r| >= 1
    ensures forall i :: 0 <= i < |r| ==> sep !in r[i]
    decreases |s|
  {
    if s == [] then [""]
    else if s[0] == sep then [""] + Split(s[1..], sep)
    else
      var rest := Split(s[1..], sep);
      [[s[0]] + rest[0]] + rest[1..]
  }

  /** A string without the separator splits into itself alone. */
  lemma {:induction false} SplitWithoutSeparator(a: string, sep: char)
    requires sep !in a
    ensures Split(a, sep) == [a]
    decreases |a|
  {
    if a != [] {
      SplitWithoutSeparator(a[1..], sep);
      assert [a[0]] + a[1..] == a;
    }
  }

  /** Splitting `a + sep + rest`, where `a` has no separator, yields `a` and then the pieces of `rest`. */
  lemma {:induction false} SplitAfterPiece(a: string, rest: string, sep: char)
    requires sep !in a
    ensures Split(a + [sep] + rest, sep) == [a] + Split(rest, sep)
    decreases |a|
  {
    var s := a + [sep] + rest;
    if a == [] {
      assert s[1..] == rest;
    } else {
      assert s[0] == a[0];
      assert s[1..] == a[1..] + [sep] + rest;
      SplitAfterPiece(a[1..], rest, sep);
      assert [a[0]] + a[1..] == a;
    }
  }

  /** Every element is a string without a comma. */
  predicate CommaFreeStrings(es: seq<JsVal>) {
    forall i :: 0 <= i < |es| ==> es[i].Str? && ',' !in es[i].s
  }

  /** The texts of a sequence of string values. */
  function Texts(es: seq<JsVal>): (r: seq<string>)
    requires forall i :: 0 <= i < |es| ==> es[i].Str?
    ensures |r| == |es|
    ensures forall i :: 0 <= i < |es| ==> r[i] == es[i].s
  {
    if es == [] then [] else [es[0].s] + Texts(es[1..])
  }

  /**
   * Joining a non-empty list of comma-free strings with "," and splitting the
   * result on ',' gives back the list.
   */
  lemma {:induction false} SplitJoin(es: seq<JsVal>)
    requires |es| > 0 && CommaFreeStrings(es)
    ensures Split(Join(es, ","), ',') == Texts(es)
    decreases |es|
  {
    assert ElementString(es[0]) == ToString(es[0]) == es[0].s;
    if |es| == 1 {
      SplitWithoutSeparator(es[0].s, ',');
      assert Texts(es) == [es[0].s];
    } else {
      assert CommaFreeStrings(es[1..]) by {
        forall i | 0 <= i < |es[1..]| ensures es[1..][i].Str? && ',' !in es[1..][i].s {
          assert es[1..][i] == es[i + 1];
        }
      }
      SplitJoin(es[1..]);
      SplitAfterPiece(es[0].s, Join(es[1..], ","), ',');
      assert Join(es, ",") == es[0].s + [','] + Join(es[1..], ",");
      assert Texts(es) == [es[0].s] + Texts(es[1..]);
    }
  }
}
