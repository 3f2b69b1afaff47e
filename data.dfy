/**
 * The Python values the services pass around: parsed JSON bodies, the
 * parameter dictionaries that become query strings, and the exceptions the
 * code can raise.
 */
module Data {
  import opened Wrappers

  /** The Python exceptions the modelled code can raise. */
  datatype Error =
    | KeyError(key: string)
    | AttributeError(name: string)
    | IndexError
    | TypeError
    | UnicodeEncodeError

  /** A value produced by `json.loads` (floating-point numbers are not modelled). */
  datatype Json =
    | JNull
    | JBool(b: bool)
    | JInt(i: int)
    | JStr(s: string)
    | JArr(items: seq<Json>)
    | JObj(fields: map<string, Json>)

  /** `j[key]`: Some value, or None where Python raises KeyError or TypeError. */
  function Field(j: Json, key: string): Option<Json>
  {
    if j.JObj? && key in j.fields then Some(j.fields[key]) else None
  }

  /**
   * `j[key]` on a parsed body: the value, KeyError when an object lacks the
   * key, TypeError when `j` is not an object (a list, string or None).
   */
  function Index(j: Json, key: string): (r: Result<Json, Error>)
    ensures r.Success? <==> Field(j, key).Some?
    ensures r.Success? ==> Field(j, key) == Some(r.value)
    ensures r.Failure? ==> r.error == (if j.JObj? then KeyError(key) else TypeError)
  {
    match j
    case JObj(fields) => if key in fields then Success(fields[key]) else Failure(KeyError(key))
    case _ => Failure(TypeError)
  }

  /** A value in a parameter dictionary: a string or an integer (`limit=1000`). */
  datatype Value = Str(s: string) | Int(i: int)

  /** A Python dict from parameter name to value. */
  type ParamDict = map<string, Value>

  /** Decimal rendering of a natural number, as Python's `str` writes it: digits only, no leading zero. */
  function NatToDecimal(n: nat): (r: string)
    ensures |r| > 0 && IsDigits(r)
    ensures r[0] == '0' <==> n == 0
    decreases n
  {
    if n < 10 then ["0123456789"[n]] else NatToDecimal(n / 10) + ["0123456789"[n % 10]]
  }

  predicate IsDigits(s: string)
  {
    forall k :: 0 <= k < |s| ==> '0' <= s[k] <= '9'
  }

  /** The number a string of decimal digits denotes, read independently of `NatToDecimal`. */
  function DigitsValue(s: string): nat
    requires IsDigits(s)
    decreases |s|
  {
    if s == [] then 0 else DigitsValue(s[..|s| - 1]) * 10 + (s[|s| - 1] as int - '0' as int)
  }

  /** Reading back the decimal rendering of `n` gives `n`, so distinct numbers render differently. */
  lemma {:induction false} DecimalRoundTrip(n: nat)
    ensures DigitsValue(NatToDecimal(n)) == n
    decreases n
  {
    var s := NatToDecimal(n);
    if n < 10 {
      assert s[..0] == [];
      DigitValue(n);
    } else {
      DecimalRoundTrip(n / 10);
      assert s[..|s| - 1] == NatToDecimal(n / 10);
      DigitValue(n % 10);
    }
  }

  lemma DigitValue(d: nat)
    requires d < 10
    ensures "0123456789"[d] as int - '0' as int == d
  {
  }

  lemma RenderNegative(i: int, digits: string)
    requires i < 0 && digits == NatToDecimal(-i)
    ensures Render(Int(i))[0] == '-' && Render(Int(i))[1..] == digits
  {
    var r := Render(Int(i));
    assert r == ['-'] + digits;
  }

  /** Python's `str(v)` on a parameter value. */
  function Render(v: Value): string
  {
    match v
    case Str(s) => s
    case Int(i) => if i < 0 then "-" + NatToDecimal(-i) else NatToDecimal(i)
  }

  /**
   * `str(i)` starts with `-` exactly when `i` is negative; what follows the
   * sign is the digits of `|i|`, which read back as `|i|`.
   */
  lemma {:induction false} RenderInt(i: int)
    ensures |Render(Int(i))| > 0 && (Render(Int(i))[0] == '-' <==> i < 0)
    ensures i >= 0 ==> IsDigits(Render(Int(i))) && DigitsValue(Render(Int(i))) == i
    ensures i < 0 ==> IsDigits(Render(Int(i))[1..]) && DigitsValue(Render(Int(i))[1..]) == -i
  {
    if i < 0 {
      DecimalRoundTrip(-i);
      RenderNegative(i, NatToDecimal(-i));
    } else {
      DecimalRoundTrip(i);
    }
  }

  /** `merged = copy(defaults); merged.update(params)`: params win on a shared key. */
  function MergeParams(defaults: ParamDict, params: ParamDict): (merged: ParamDict)
    ensures merged.Keys == defaults.Keys + params.Keys
    ensures forall k :: k in params ==> merged[k] == params[k]
    ensures forall k :: k in defaults && k !in params ==> merged[k] == defaults[k]
  {
    defaults + params
  }

  /**
   * `order` lists every key of `keys` exactly once: one possible iteration
   * order of a Python 2 dict with those keys.
   */
  predicate IsEnumeration(order: seq<string>, keys: set<string>)
  {
    && (forall j :: 0 <= j < |order| ==> order[j] in keys)
    && (forall k :: k in keys ==> k in order)
    && (forall i, j :: 0 <= i < j < |order| ==> order[i] != order[j])
  }

  /** An enumeration of a set is as long as the set is large. */
  lemma {:induction false} EnumerationLength(order: seq<string>, keys: set<string>)
    requires IsEnumeration(order, keys)
    ensures |order| == |keys|
    decreases |order|
  {
    if order != [] {
      var rest := order[1..];
      assert IsEnumeration(rest, keys - {order[0]}) by {
        forall k | k in keys - {order[0]} ensures k in rest {
          var j :| 0 <= j < |order| && order[j] == k;
          assert j != 0;
          assert rest[j - 1] == k;
        }
      }
      EnumerationLength(rest, keys - {order[0]});
    } else {
      assert forall k :: k in keys ==> k in order;
      assert keys == {};
    }
  }
}
