/**
 * Python 2's `urllib.urlencode` as `_buildQuery` uses it: every key and
 * value goes through `str` and then `quote_plus`, each pair is written
 * `key=value`, and the pairs are joined with `&`. Strings are Python 2 byte
 * strings; a character above U+00FF stands for a unicode value that `str`
 * cannot encode. The module also gives the inverse (`unquote_plus` and
 * splitting on the separators) and proves that encoding loses nothing.
 */
module UrlEncoding {
  import opened Wrappers
  import opened Data

  predicate IsByte(c: char) { c as int < 256 }

  predicate IsByteString(s: string)
  {
    forall i :: 0 <= i < |s| ==> IsByte(s[i])
  }

  /** Python 2's `urllib.always_safe`: letters, digits and `_.-`. */
  predicate AlwaysSafe(c: char)
  {
    || 'A' <= c <= 'Z'
    || 'a' <= c <= 'z'
    || '0' <= c <= '9'
    || c == '_' || c == '.' || c == '-'
  }

  const HexDigits: string := "0123456789ABCDEF"

  /** `quote_plus` of one byte: safe bytes stay, space becomes `+`, the rest `%XX`. */
  function QuoteChar(c: char): (r: string)
    requires IsByte(c)
    ensures |r| > 0
  {
    if AlwaysSafe(c) then [c]
    else if c == ' ' then "+"
    else ['%', HexDigits[c as int / 16], HexDigits[c as int % 16]]
  }

  /** Python 2's `urllib.quote_plus(s)` (with no extra safe characters). */
  function QuotePlus(s: string): string
    requires IsByteString(s)
    decreases |s|
  {
    if s == [] then "" else QuoteChar(s[0]) + QuotePlus(s[1..])
  }

  predicate IsHex(c: char)
  {
    '0' <= c <= '9' || 'A' <= c <= 'F' || 'a' <= c <= 'f'
  }

  function HexValue(c: char): (v: nat)
    requires IsHex(c)
    ensures v < 16
  {
    if '0' <= c <= '9' then c as int - '0' as int
    else if 'A' <= c <= 'F' then c as int - 'A' as int + 10
    else c as int - 'a' as int + 10
  }

  /** Python 2's `urllib.unquote_plus`: `+` is a space, `%XX` a byte. */
  function UnquotePlus(s: string): string
    decreases |s|
  {
    if s == [] then ""
    else if s[0] == '+' then " " + UnquotePlus(s[1..])
    else if s[0] == '%' && |s| >= 3 && IsHex(s[1]) && IsHex(s[2]) then
      [(HexValue(s[1]) * 16 + HexValue(s[2])) as char] + UnquotePlus(s[3..])
    else [s[0]] + UnquotePlus(s[1..])
  }

  /** `sep.join(xs)`. */
  function Join(xs: seq<string>, sep: char): string
    decreases |xs|
  {
    if |xs| == 0 then ""
    else if |xs| == 1 then xs[0]
    else xs[0] + [sep] + Join(xs[1..], sep)
  }

  /** `s.split(sep)`: never empty, `""` splits into `[""]`. */
  function Split(s: string, sep: char): (parts: seq<string>)
    ensures |parts| >= 1
    decreases |s|
  {
    if s == [] then [""]
    else
      var rest := Split(s[1..], sep);
      if s[0] == sep then [""] + rest else [[s[0]] + rest[0]] + rest[1..]
  }

  predicate BytePair(p: (string, string))
  {
    IsByteString(p.0) && IsByteString(p.1)
  }

  /** The `key=value` strings `urlencode` joins, in pair order. */
  function EncodedPairs(pairs: seq<(string, string)>): (r: seq<string>)
    requires forall i :: 0 <= i < |pairs| ==> BytePair(pairs[i])
    ensures |r| == |pairs|
    decreases |pairs|
  {
    if pairs == [] then []
    else
      assert BytePair(pairs[0]);
      [QuotePlus(pairs[0].0) + "=" + QuotePlus(pairs[0].1)] + EncodedPairs(pairs[1..])
  }

  /**
   * `urlencode` of the pairs, in the order given. A character that is not a
   * byte stands for a unicode value `str` cannot encode: it raises.
   */
  function UrlEncode(pairs: seq<(string, string)>): (r: Result<string, Error>)
    ensures r.Failure? <==> exists i :: 0 <= i < |pairs| && !BytePair(pairs[i])
    ensures r.Failure? ==> r.error == UnicodeEncodeError
  {
    if forall i :: 0 <= i < |pairs| ==> BytePair(pairs[i]) then
      Success(Join(EncodedPairs(pairs), '&'))
    else Failure(UnicodeEncodeError)
  }

  /** Reads a query string back into its decoded pairs. */
  function DecodeQuery(s: string): seq<(string, string)>
  {
    if s == "" then [] else DecodePairs(Split(s, '&'))
  }

  function DecodePairs(parts: seq<string>): seq<(string, string)>
    decreases |parts|
  {
    if parts == [] then []
    else
      var kv := Split(parts[0], '=');
      [(UnquotePlus(kv[0]), if |kv| > 1 then UnquotePlus(kv[1]) else "")] + DecodePairs(parts[1..])
  }

  // ---------------------------------------------------------------------
  // Round trip: decoding an encoded query gives back the pairs.

  lemma HexDigitValue(n: nat)
    requires n < 16
    ensures IsHex(HexDigits[n]) && HexValue(HexDigits[n]) == n
  {
    if n < 10 {
      assert HexDigits[n] as int == '0' as int + n;
    } else {
      assert HexDigits[n] as int == 'A' as int + n - 10;
    }
  }

  lemma {:induction false} UnquoteQuoteChar(c: char, rest: string)
    requires IsByte(c)
    ensures UnquotePlus(QuoteChar(c) + rest) == [c] + UnquotePlus(rest)
  {
    var s := QuoteChar(c) + rest;
    if AlwaysSafe(c) {
      assert s[0] == c && s[1..] == rest;
    } else if c == ' ' {
      assert s[0] == '+' && s[1..] == rest;
    } else {
      var hi, lo := c as int / 16, c as int % 16;
      HexDigitValue(hi);
      HexDigitValue(lo);
      assert s[0] == '%' && s[1] == HexDigits[hi] && s[2] == HexDigits[lo] && s[3..] == rest;
      assert (hi * 16 + lo) as char == c;
    }
  }

  lemma {:induction false} UnquoteQuote(s: string)
    requires IsByteString(s)
    ensures UnquotePlus(QuotePlus(s)) == s
    decreases |s|
  {
    if s != [] {
      UnquoteQuoteChar(s[0], QuotePlus(s[1..]));
      UnquoteQuote(s[1..]);
    }
  }

  /** An escaped byte is never one of the separators `&` and `=`. */
  lemma QuoteCharNoSeparators(c: char)
    requires IsByte(c)
    ensures '&' !in QuoteChar(c) && '=' !in QuoteChar(c)
  {
    if !AlwaysSafe(c) && c != ' ' {
      var hi, lo := c as int / 16, c as int % 16;
      assert QuoteChar(c) == ['%', HexDigits[hi], HexDigits[lo]];
    }
  }

  /** An escaped string never contains `&` or `=`, so keys, values and pairs cannot run together. */
  lemma {:induction false} QuotePlusNoSeparators(s: string)
    requires IsByteString(s)
    ensures '&' !in QuotePlus(s) && '=' !in QuotePlus(s)
    decreases |s|
  {
    if s != [] {
      QuoteCharNoSeparators(s[0]);
      QuotePlusNoSeparators(s[1..]);
    }
  }

  lemma {:induction false} SplitWithoutSeparator(a: string, sep: char)
    requires sep !in a
    ensures Split(a, sep) == [a]
    decreases |a|
  {
    if a != [] {
      assert sep !in a[1..];
      SplitWithoutSeparator(a[1..], sep);
      assert [a[0]] + a[1..] == a;
    }
  }

  lemma {:induction false} SplitAtSeparator(a: string, b: string, sep: char)
    requires sep !in a
    ensures Split(a + [sep] + b, sep) == [a] + Split(b, sep)
    decreases |a|
  {
    var s := a + [sep] + b;
    if a == [] {
      assert s[0] == sep && s[1..] == b;
    } else {
      assert s[0] == a[0] && s[1..] == a[1..] + [sep] + b;
      assert sep !in a[1..];
      SplitAtSeparator(a[1..], b, sep);
      assert [a[0]] + a[1..] == a;
    }
  }

  lemma {:induction false} SplitJoin(xs: seq<string>, sep: char)
    requires |xs| >= 1
    requires forall i :: 0 <= i < |xs| ==> sep !in xs[i]
    ensures Split(Join(xs, sep), sep) == xs
    decreases |xs|
  {
    if |xs| == 1 {
      SplitWithoutSeparator(xs[0], sep);
    } else {
      SplitAtSeparator(xs[0], Join(xs[1..], sep), sep);
      SplitJoin(xs[1..], sep);
    }
  }

  lemma {:induction false} DecodeEncodedPairs(pairs: seq<(string, string)>)
    requires forall i :: 0 <= i < |pairs| ==> BytePair(pairs[i])
    ensures DecodePairs(EncodedPairs(pairs)) == pairs
    decreases |pairs|
  {
    if pairs != [] {
      var (k, v) := pairs[0];
      var qk, qv := QuotePlus(k), QuotePlus(v);
      QuotePlusNoSeparators(k);
      QuotePlusNoSeparators(v);
      SplitAtSeparator(qk, qv, '=');
      SplitWithoutSeparator(qv, '=');
      assert qk + "=" + qv == qk + ['='] + qv;
      UnquoteQuote(k);
      UnquoteQuote(v);
      DecodeEncodedPairs(pairs[1..]);
    }
  }

  /** Decoding `urlencode`'s output gives back exactly the pairs, in order. */
  lemma {:induction false} UrlEncodeRoundTrip(pairs: seq<(string, string)>)
    requires UrlEncode(pairs).Success?
    ensures DecodeQuery(UrlEncode(pairs).value) == pairs
  {
    var encoded := EncodedPairs(pairs);
    if pairs != [] {
      assert '=' in encoded[0];
      if |encoded| == 1 {
        assert Join(encoded, '&') == encoded[0];
      } else {
        assert Join(encoded, '&') == encoded[0] + ['&'] + Join(encoded[1..], '&');
      }
      assert Join(encoded, '&') != "";
      forall i | 0 <= i < |encoded| ensures '&' !in encoded[i] {
        EncodedPairAt(pairs, i);
        QuotePlusNoSeparators(pairs[i].0);
        QuotePlusNoSeparators(pairs[i].1);
      }
      SplitJoin(encoded, '&');
      DecodeEncodedPairs(pairs);
    }
  }

  lemma {:induction false} EncodedPairAt(pairs: seq<(string, string)>, i: nat)
    requires forall j :: 0 <= j < |pairs| ==> BytePair(pairs[j])
    requires i < |pairs|
    ensures EncodedPairs(pairs)[i] == QuotePlus(pairs[i].0) + "=" + QuotePlus(pairs[i].1)
    decreases i
  {
    if i > 0 {
      EncodedPairAt(pairs[1..], i - 1);
    }
  }

  /**
   * Two different pair sequences never encode to the same string, so the
   * encoded query is a faithful cache key for its parameters.
   */
  lemma UrlEncodeInjective(p: seq<(string, string)>, q: seq<(string, string)>)
    requires UrlEncode(p).Success? && UrlEncode(q).Success?
    requires UrlEncode(p) == UrlEncode(q)
    ensures p == q
  {
    UrlEncodeRoundTrip(p);
    UrlEncodeRoundTrip(q);
  }

  lemma {:induction false} QuotePlusAppend(a: string, b: string)
    requires IsByteString(a) && IsByteString(b)
    ensures IsByteString(a + b) && QuotePlus(a + b) == QuotePlus(a) + QuotePlus(b)
    decreases |a|
  {
    if a != [] {
      assert (a + b)[0] == a[0] && (a + b)[1..] == a[1..] + b;
      assert IsByteString(a[1..]);
      QuotePlusAppend(a[1..], b);
      assert QuotePlus(a + b) == QuoteChar(a[0]) + QuotePlus(a[1..] + b);
    } else {
      assert a + b == b;
    }
  }

  /** A string of safe characters is left as it is. */
  lemma {:induction false} QuotePlusSafe(s: string)
    requires forall i :: 0 <= i < |s| ==> AlwaysSafe(s[i])
    ensures IsByteString(s) && QuotePlus(s) == s
    decreases |s|
  {
    if s != [] {
      QuotePlusSafe(s[1..]);
    }
  }

  /** A string whose only character to escape is the one at `k`. */
  lemma {:induction false} QuoteBetweenSafe(s: string, k: nat)
    requires k < |s| && IsByte(s[k])
    requires forall i :: 0 <= i < |s| && i != k ==> AlwaysSafe(s[i])
    ensures IsByteString(s) && QuotePlus(s) == s[..k] + QuoteChar(s[k]) + s[k + 1..]
    decreases k
  {
    SafeExceptOneIsBytes(s, k);
    if k == 0 {
      QuotePlusSafe(s[1..]);
      assert QuotePlus(s) == QuoteChar(s[0]) + QuotePlus(s[1..]);
    } else {
      QuoteBetweenSafe(s[1..], k - 1);
      QuoteSafeHead(s, k, QuoteChar(s[k]));
    }
  }

  lemma SafeExceptOneIsBytes(s: string, k: nat)
    requires k < |s| && IsByte(s[k])
    requires forall i :: 0 <= i < |s| && i != k ==> AlwaysSafe(s[i])
    ensures IsByteString(s)
  {
    forall i | 0 <= i < |s| ensures IsByte(s[i]) {
      if i != k {
        assert AlwaysSafe(s[i]);
      }
    }
  }

  /** The step of `QuoteBetweenSafe`: a safe first character is kept in front. */
  lemma QuoteSafeHead(s: string, k: nat, q: string)
    requires 0 < k < |s| && IsByteString(s) && AlwaysSafe(s[0])
    requires QuotePlus(s[1..]) == s[1..][..k - 1] + q + s[1..][k..]
    ensures QuotePlus(s) == s[..k] + q + s[k + 1..]
  {
    var rest := s[1..];
    assert QuotePlus(s) == [s[0]] + QuotePlus(rest) by {
      assert QuotePlus(s) == QuoteChar(s[0]) + QuotePlus(rest);
      QuoteCharSafe(s[0]);
    }
    SliceAfterHead(s, k);
    ConsAssociates(s[0], rest[..k - 1], q, rest[k..]);
  }

  lemma SliceAfterHead(s: string, k: nat)
    requires 0 < k < |s|
    ensures s[..k] == [s[0]] + s[1..][..k - 1] && s[1..][k..] == s[k + 1..]
  {
  }

  lemma QuoteCharSafe(c: char)
    requires AlwaysSafe(c)
    ensures IsByte(c) && QuoteChar(c) == [c]
  {
  }

  lemma ConsAssociates(x: char, a: string, q: string, b: string)
    ensures [x] + (a + q + b) == [x] + a + q + b
  {
  }

  /** A space becomes `+`: the location name the test suite searches for. */
  lemma SpaceEscapeExample(s: string)
    requires s == "los angeles"
    ensures IsByteString(s) && QuotePlus(s) == "los+angeles"
  {
    QuoteBetweenSafe(s, 3);
  }

  /** A colon becomes `%3A`: the default location id as the test suite sees it. */
  lemma ColonEscapeExample(s: string)
    requires s == "sk:26330"
    ensures IsByteString(s) && QuotePlus(s) == "sk%3A26330"
  {
    QuoteBetweenSafe(s, 2);
    assert QuoteChar(':') == "%3A";
  }

  /** Encoding a pair in front of a non-empty encoded query adds it and one `&`. */
  lemma UrlEncodeCons(p: (string, string), rest: seq<(string, string)>)
    requires BytePair(p) && rest != [] && UrlEncode(rest).Success?
    ensures UrlEncode([p] + rest)
         == Success(QuotePlus(p.0) + "=" + QuotePlus(p.1) + "&" + UrlEncode(rest).value)
  {
    var ps := [p] + rest;
    assert ps[1..] == rest;
    assert forall i :: 0 <= i < |rest| ==> BytePair(rest[i]);
    assert forall i :: 0 <= i < |ps| ==> BytePair(ps[i]);
    assert EncodedPairs(ps) == [QuotePlus(p.0) + "=" + QuotePlus(p.1)] + EncodedPairs(rest);
    assert EncodedPairs(ps)[1..] == EncodedPairs(rest);
  }

  /** A single pair encodes as `key=value`. */
  lemma UrlEncodeSingle(p: (string, string))
    requires BytePair(p)
    ensures UrlEncode([p]) == Success(QuotePlus(p.0) + "=" + QuotePlus(p.1))
  {
    assert EncodedPairs([p]) == [QuotePlus(p.0) + "=" + QuotePlus(p.1)] + EncodedPairs([]);
  }
}
