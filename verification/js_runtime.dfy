/**
 * The few JavaScript runtime behaviours the application relies on:
 * `null`/`undefined` (Option), a promise that resolves or rejects (Outcome),
 * `String.prototype.trim`, and the truthiness of a parsed JSON value.
 */
module JsRuntime {

  /** A value that may be absent (`null` or `undefined` in the source). */
  datatype Option<+T> = None | Some(value: T)

  /** How an awaited promise settles: with a value, or by throwing. */
  datatype Outcome<+T> = Resolved(value: T) | Rejected

  /**
   * ECMAScript WhiteSpace and LineTerminator code points, the characters
   * `trim` removes: TAB, LF, VT, FF, CR, SPACE, NBSP, U+1680,
   * U+2000..U+200A, LS, PS, U+202F, U+205F, U+3000 and the BOM.
   */
  predicate IsSpace(c: char) {
    var n := c as int;
    (0x09 <= n <= 0x0D) || n == 0x20 || n == 0xA0 || n == 0x1680 ||
    (0x2000 <= n <= 0x200A) || n == 0x2028 || n == 0x2029 ||
    n == 0x202F || n == 0x205F || n == 0x3000 || n == 0xFEFF
  }

  /** Every character of `s` is whitespace (so `s.trim()` is empty). */
  predicate AllSpace(s: string) {
    forall i :: 0 <= i < |s| ==> IsSpace(s[i])
  }

  /** Neither end of `s` is whitespace. */
  predicate Trimmed(s: string) {
    s == [] || (!IsSpace(s[0]) && !IsSpace(s[|s| - 1]))
  }

  /** `s` without its leading whitespace. */
  function TrimStart(s: string): string {
    if s != [] && IsSpace(s[0]) then TrimStart(s[1..]) else s
  }

  /** `s` without its trailing whitespace. */
  function TrimEnd(s: string): string {
    if s != [] && IsSpace(s[|s| - 1]) then TrimEnd(s[..|s| - 1]) else s
  }

  /** TrimStart drops a whitespace-only prefix and stops at the first other character. */
  lemma {:induction false} TrimStartSpec(s: string)
    ensures |TrimStart(s)| <= |s| && TrimStart(s) == s[|s| - |TrimStart(s)|..]
    ensures AllSpace(s[..|s| - |TrimStart(s)|])
    ensures TrimStart(s) == [] || !IsSpace(TrimStart(s)[0])
  {
    if s != [] && IsSpace(s[0]) {
      TrimStartSpec(s[1..]);
      var k := |s| - |TrimStart(s)|;
      assert s[..k] == [s[0]] + s[1..][..k - 1];
    }
  }

  /** TrimEnd drops a whitespace-only suffix and stops at the last other character. */
  lemma {:induction false} TrimEndSpec(s: string)
    ensures |TrimEnd(s)| <= |s| && TrimEnd(s) == s[..|TrimEnd(s)|]
    ensures AllSpace(s[|TrimEnd(s)|..])
    ensures TrimEnd(s) == [] || !IsSpace(TrimEnd(s)[|TrimEnd(s)| - 1])
  {
    if s != [] && IsSpace(s[|s| - 1]) {
      var t := s[..|s| - 1];
      TrimEndSpec(t);
      var k := |TrimEnd(s)|;
      assert s[k..] == t[k..] + [s[|s| - 1]];
    }
  }

  /**
   * `String.prototype.trim`: `s` with whitespace dropped at both ends; what
   * is kept neither starts nor ends with whitespace.
   */
  function Trim(s: string): (r: string)
    ensures Trimmed(r)
  {
    TrimStartSpec(s);
    TrimEndSpec(TrimStart(s));
    TrimEnd(TrimStart(s))
  }

  /**
   * What `trim` keeps is one contiguous slice of `s`, and everything it
   * drops on either side of that slice is whitespace.
   */
  lemma TrimSlice(s: string) returns (lo: nat)
    ensures lo + |Trim(s)| <= |s|
    ensures Trim(s) == s[lo..lo + |Trim(s)|]
    ensures AllSpace(s[..lo]) && AllSpace(s[lo + |Trim(s)|..])
  {
    var t := TrimStart(s);
    TrimStartSpec(s);
    TrimEndSpec(t);
    var r := TrimEnd(t);
    lo := |s| - |t|;
    var hi := lo + |r|;
    assert t == s[lo..];
    assert r == t[..|r|] == s[lo..hi];
    assert t[|r|..] == s[hi..];
  }

  lemma {:induction false} TrimStartSkips(w: string, rest: string)
    requires AllSpace(w)
    requires rest == [] || !IsSpace(rest[0])
    ensures TrimStart(w + rest) == rest
  {
    if w == [] {
      assert w + rest == rest;
    } else {
      assert (w + rest)[1..] == w[1..] + rest;
      TrimStartSkips(w[1..], rest);
    }
  }

  lemma {:induction false} TrimEndSkips(rest: string, w: string)
    requires AllSpace(w)
    requires rest == [] || !IsSpace(rest[|rest| - 1])
    ensures TrimEnd(rest + w) == rest
  {
    if w == [] {
      assert rest + w == rest;
    } else {
      assert (rest + w)[..|rest + w| - 1] == rest + w[..|w| - 1];
      TrimEndSkips(rest, w[..|w| - 1]);
    }
  }

  /**
   * Trim is characterised by its output: whatever whitespace surrounds a
   * text that neither starts nor ends with whitespace, trimming gives
   * back exactly that text.
   */
  lemma TrimOfPadded(w1: string, m: string, w2: string)
    requires AllSpace(w1) && AllSpace(w2) && Trimmed(m)
    ensures Trim(w1 + m + w2) == m
  {
    if m == [] {
      assert w1 + m + w2 == (w1 + w2) + [];
      assert AllSpace(w1 + w2);
      TrimStartSkips(w1 + w2, []);
    } else {
      assert w1 + m + w2 == w1 + (m + w2);
      TrimStartSkips(w1, m + w2);
      TrimEndSkips(m, w2);
    }
  }

  /** A trimmed string is empty exactly when the original is all whitespace. */
  lemma TrimEmptyIff(s: string)
    ensures Trim(s) == [] <==> AllSpace(s)
  {
    if AllSpace(s) {
      assert s == s + [] + [];
      TrimOfPadded(s, [], []);
    }
    if Trim(s) == [] {
      var lo := TrimSlice(s);
      assert s == s[..lo] + s[lo..];
      forall i | 0 <= i < |s| ensures IsSpace(s[i]) {
        if i < lo { assert s[i] == s[..lo][i]; }
        else { assert s[i] == s[lo..][i - lo]; }
      }
    }
  }

  /** Trimming twice is trimming once. */
  lemma TrimIdempotent(s: string)
    ensures Trim(Trim(s)) == Trim(s)
  {
    var r := Trim(s);
    assert r == [] + r + [];
    TrimOfPadded([], r, []);
  }

  lemma AllSpaceAppend(a: string, b: string)
    requires AllSpace(a) && AllSpace(b)
    ensures AllSpace(a + b)
  {
    forall i | 0 <= i < |a + b| ensures IsSpace((a + b)[i]) {
      if i < |a| { assert (a + b)[i] == a[i]; }
      else { assert (a + b)[i] == b[i - |a|]; }
    }
  }

  lemma {:induction false} TrimEndDropsSpace(t: string, w: string)
    requires AllSpace(w)
    ensures TrimEnd(t + w) == TrimEnd(t)
  {
    if w != [] {
      assert (t + w)[..|t + w| - 1] == t + w[..|w| - 1];
      TrimEndDropsSpace(t, w[..|w| - 1]);
    } else {
      assert t + w == t;
    }
  }

  lemma {:induction false} TrimStartOfAppend(s: string, w: string)
    ensures TrimStart(s + w) == if TrimStart(s) == [] then TrimStart(w) else TrimStart(s) + w
  {
    if s == [] {
      assert s + w == w;
    } else if IsSpace(s[0]) {
      assert (s + w)[1..] == s[1..] + w;
      TrimStartOfAppend(s[1..], w);
    }
  }

  /** Trailing whitespace never changes what `trim` returns. */
  lemma TrimIgnoresTrailingSpace(s: string, w: string)
    requires AllSpace(w)
    ensures Trim(s + w) == Trim(s)
  {
    TrimStartOfAppend(s, w);
    var t := TrimStart(s);
    if t == [] {
      assert w + [] == w;
      TrimStartSkips(w, []);
    } else {
      TrimEndDropsSpace(t, w);
    }
  }

  /** The in-order concatenation of a list of strings. */
  function Concat(ss: seq<string>): string {
    if ss == [] then "" else Concat(ss[..|ss| - 1]) + ss[|ss| - 1]
  }

  /** A value produced by `JSON.parse`. */
  datatype Json =
    | JNull
    | JBool(b: bool)
    | JNumber(n: real)
    | JString(s: string)
    | JArray(items: seq<Json>)
    | JObject(members: map<string, Json>)

  /**
   * ECMAScript ToBoolean of a JSON value: `null`, `false`, zero and the
   * empty string are falsy; everything else (arrays and objects
   * included, even empty ones) is truthy.
   */
  predicate Truthy(v: Json) {
    match v
    case JNull => false
    case JBool(b) => b
    case JNumber(n) => n != 0.0
    case JString(s) => s != ""
    case JArray(_) => true
    case JObject(_) => true
  }
}
