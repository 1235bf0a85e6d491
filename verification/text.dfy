/** Python values and `str` operations that the relay code relies on, written out. */
module Text {

  datatype Option<+T> = None | Some(value: T)

  /** The value of an object attribute as Python code reads it: `None` or a string. */
  datatype Value = Null | Str(s: string)

  /** The result of probing an attribute: `None` when the object has no such attribute. */
  type Attr = Option<Value>

  /** Python truthiness of a value that is `None` or a `str`. */
  predicate Truthy(v: Value) {
    v.Str? && v.s != ""
  }

  /** `hasattr(x, a) and x.a`: the attribute exists and its value is truthy. */
  predicate AttrTruthy(a: Attr) {
    a.Some? && Truthy(a.value)
  }

  /** `getattr(x, a, default)`: the attribute's value whenever it exists, falsy or not. */
  function GetAttr(a: Attr, default: Value): Value {
    match a
    case Some(v) => v
    case None => default
  }

  /** What an f-string shows for the value. */
  function Render(v: Value): string {
    match v
    case Null => "None"
    case Str(s) => s
  }

  /** `v or default` for a value that is `None` or a `str`. */
  function OrDefault(v: Value, default: string): string {
    if Truthy(v) then v.s else default
  }

  /** Truthiness of an optional configuration string (unset or empty is falsy). */
  predicate Configured(o: Option<string>) {
    o.Some? && o.value != ""
  }

  function Min(a: int, b: int): int {
    if a <= b then a else b
  }

  // ---------------------------------------------------------------------------
  // Prefixes

  predicate StartsWith(s: string, prefix: string) {
    |prefix| <= |s| && s[..|prefix|] == prefix
  }

  predicate EndsWith(s: string, suffix: string) {
    |suffix| <= |s| && s[|s| - |suffix|..] == suffix
  }

  /** `str.removeprefix`. */
  function RemovePrefix(s: string, prefix: string): string {
    if StartsWith(s, prefix) then s[|prefix|..] else s
  }

  /** `str.lstrip(c)` for a single character: every leading `c` goes. */
  function LStripChar(s: string, c: char): (r: string)
    ensures |r| <= |s| && r == s[|s| - |r|..]
    ensures r == [] || r[0] != c
    ensures forall i :: 0 <= i < |s| - |r| ==> s[i] == c
  {
    if s != [] && s[0] == c then LStripChar(s[1..], c) else s
  }

  // ---------------------------------------------------------------------------
  // Whitespace and `str.strip()`

  /** The characters `str.isspace()` accepts (and so the ones `str.strip()` removes). */
  predicate IsSpace(c: char) {
    c == ' ' || ('\t' <= c <= '\r') || ('\U{1C}' <= c <= '\U{1F}')
    || c == '\U{85}' || c == '\U{A0}' || c == '\U{1680}' || ('\U{2000}' <= c <= '\U{200A}')
    || c == '\U{2028}' || c == '\U{2029}' || c == '\U{202F}' || c == '\U{205F}' || c == '\U{3000}'
  }

  predicate AllSpace(s: string) {
    forall i :: 0 <= i < |s| ==> IsSpace(s[i])
  }

  /** `str.lstrip()`. */
  function StripLeft(s: string): (r: string)
    ensures |r| <= |s|
  {
    if s != [] && IsSpace(s[0]) then StripLeft(s[1..]) else s
  }

  /** `str.rstrip()`. */
  function StripRight(s: string): (r: string)
    ensures |r| <= |s|
  {
    if s != [] && IsSpace(s[|s| - 1]) then StripRight(s[..|s| - 1]) else s
  }

  /** `lstrip` drops the leading whitespace and nothing else. */
  lemma {:induction false} StripLeftSpec(s: string)
    ensures StripLeft(s) == s[|s| - |StripLeft(s)|..]
    ensures StripLeft(s) == [] || !IsSpace(StripLeft(s)[0])
    ensures forall i :: 0 <= i < |s| - |StripLeft(s)| ==> IsSpace(s[i])
    decreases |s|
  {
    if s != [] && IsSpace(s[0]) {
      var r := StripLeft(s[1..]);
      StripLeftSpec(s[1..]);
      assert s[1..][|s| - 1 - |r|..] == s[|s| - |r|..];
      forall i | 1 <= i < |s| - |r| ensures IsSpace(s[i]) {
        assert s[i] == s[1..][i - 1];
      }
    }
  }

  /** `rstrip` drops the trailing whitespace and nothing else. */
  lemma {:induction false} StripRightSpec(s: string)
    ensures StripRight(s) == s[..|StripRight(s)|]
    ensures StripRight(s) == [] || !IsSpace(StripRight(s)[|StripRight(s)| - 1])
    ensures forall i :: |StripRight(s)| <= i < |s| ==> IsSpace(s[i])
    decreases |s|
  {
    if s != [] && IsSpace(s[|s| - 1]) {
      var r := StripRight(s[..|s| - 1]);
      StripRightSpec(s[..|s| - 1]);
      assert s[..|s| - 1][..|r|] == s[..|r|];
      forall i | |r| <= i < |s| - 1 ensures IsSpace(s[i]) {
        assert s[i] == s[..|s| - 1][i];
      }
    }
  }

  /** `str.strip()`. */
  function Strip(s: string): string {
    StripRight(StripLeft(s))
  }

  /** No whitespace at either end: what `str.strip()` returns. */
  predicate Trimmed(s: string) {
    s == [] || (!IsSpace(s[0]) && !IsSpace(s[|s| - 1]))
  }

  /** `strip` returns a trimmed string, and leaves a trimmed one as it is. */
  lemma StripTrimmed(s: string)
    ensures Trimmed(Strip(s))
    ensures Trimmed(s) ==> Strip(s) == s
  {
    var l := StripLeft(s);
    var r := StripRight(l);
    StripLeftSpec(s);
    StripRightSpec(l);
    if r != [] {
      assert r[0] == l[0];
    }
  }

  lemma {:induction false} StripLeftPadded(w: string, x: string)
    requires AllSpace(w)
    ensures StripLeft(w + x) == StripLeft(x)
  {
    if w != [] {
      assert (w + x)[1..] == w[1..] + x;
      StripLeftPadded(w[1..], x);
    } else {
      assert w + x == x;
    }
  }

  lemma {:induction false} StripRightPadded(x: string, w: string)
    requires AllSpace(w)
    ensures StripRight(x + w) == StripRight(x)
  {
    if w != [] {
      var w' := w[..|w| - 1];
      assert (x + w)[..|x + w| - 1] == x + w';
      StripRightPadded(x, w');
    } else {
      assert x + w == x;
    }
  }

  /** Whitespace appended after a string survives `lstrip` unless the string is all whitespace. */
  lemma {:induction false} StripLeftAppend(s: string, w: string)
    requires AllSpace(w)
    ensures StripLeft(s + w) == if StripLeft(s) == [] then [] else StripLeft(s) + w
  {
    if s == [] {
      assert s + w == w + [];
      StripLeftPadded(w, []);
    } else if IsSpace(s[0]) {
      assert (s + w)[1..] == s[1..] + w;
      StripLeftAppend(s[1..], w);
    }
  }

  /** Surrounding whitespace never changes what `strip` returns. */
  lemma StripIgnoresPadding(w1: string, s: string, w2: string)
    requires AllSpace(w1) && AllSpace(w2)
    ensures Strip(w1 + s + w2) == Strip(s)
  {
    assert w1 + s + w2 == w1 + (s + w2);
    StripLeftPadded(w1, s + w2);
    StripLeftAppend(s, w2);
    if StripLeft(s) != [] {
      StripRightPadded(StripLeft(s), w2);
    }
  }

  // ---------------------------------------------------------------------------
  // `str.upper()` on the ASCII letters

  function UpperChar(c: char): char {
    if 'a' <= c <= 'z' then (c as int - 32) as char else c
  }

  function Upper(s: string): (r: string)
    ensures |r| == |s|
  {
    seq(|s|, i requires 0 <= i < |s| => UpperChar(s[i]))
  }

  lemma UpperSlice(s: string, i: int, j: int)
    requires 0 <= i <= j <= |s|
    ensures Upper(s)[i..j] == Upper(s[i..j])
  {
  }

  /** Upper-casing keeps every whitespace character and makes none. */
  lemma UpperKeepsSpace(c: char)
    ensures IsSpace(UpperChar(c)) <==> IsSpace(c)
  {
  }

  /** Upper-casing and stripping commute, so only the upper-cased text matters. */
  lemma {:induction false} StripUpperCommute(s: string)
    ensures Strip(Upper(s)) == Upper(Strip(s))
  {
    StripLeftUpper(s);
    StripRightUpper(StripLeft(s));
  }

  lemma {:induction false} StripLeftUpper(s: string)
    ensures StripLeft(Upper(s)) == Upper(StripLeft(s))
  {
    if s != [] {
      var u := Upper(s);
      assert u[0] == UpperChar(s[0]);
      UpperKeepsSpace(s[0]);
      if IsSpace(s[0]) {
        assert IsSpace(u[0]);
        assert StripLeft(u) == StripLeft(u[1..]);
        UpperSlice(s, 1, |s|);
        assert u[1..] == Upper(s[1..]);
        assert StripLeft(s) == StripLeft(s[1..]);
        StripLeftUpper(s[1..]);
      }
    }
  }

  lemma {:induction false} StripRightUpper(s: string)
    ensures StripRight(Upper(s)) == Upper(StripRight(s))
  {
    if s != [] {
      var u := Upper(s);
      var n := |s| - 1;
      assert u[n] == UpperChar(s[n]);
      UpperKeepsSpace(s[n]);
      if IsSpace(s[n]) {
        assert IsSpace(u[n]);
        assert StripRight(u) == StripRight(u[..n]);
        UpperSlice(s, 0, n);
        assert s[0..n] == s[..n] && u[0..n] == u[..n];
        assert u[..n] == Upper(s[..n]);
        assert StripRight(s) == StripRight(s[..n]);
        StripRightUpper(s[..n]);
      }
    }
  }

  // ---------------------------------------------------------------------------
  // `str(n)` for integers and `str.replace`

  function DigitChar(d: nat): (c: char)
    requires d < 10
    ensures '0' <= c <= '9'
  {
    ('0' as int + d) as char
  }

  predicate AllDigits(s: string) {
    forall i :: 0 <= i < |s| ==> '0' <= s[i] <= '9'
  }

  /** Decimal digits of a natural number, most significant first. */
  function NatToString(n: nat): (r: string)
    ensures |r| >= 1 && AllDigits(r)
    decreases n
  {
    if n < 10 then [DigitChar(n)] else NatToString(n / 10) + [DigitChar(n % 10)]
  }

  /** `str(n)` for a Python `int`. */
  function IntToString(n: int): (r: string)
    ensures n >= 0 ==> AllDigits(r)
    ensures n < 0 ==> |r| >= 2 && r[0] == '-' && AllDigits(r[1..])
  {
    if n < 0 then "-" + NatToString(-n) else NatToString(n)
  }

  /** The number a string of decimal digits spells, most significant digit first. */
  function DecimalValue(s: string): int {
    if s == [] then 0 else 10 * DecimalValue(s[..|s| - 1]) + (s[|s| - 1] as int - '0' as int)
  }

  /** The digits of `n` spell `n`, and only 0 is written with a leading '0'. */
  lemma {:induction false} NatToStringSpells(n: nat)
    ensures DecimalValue(NatToString(n)) == n
    ensures NatToString(n)[0] == '0' <==> n == 0
    decreases n
  {
    var r := NatToString(n);
    if n < 10 {
      assert r[..0] == [];
    } else {
      NatToStringSpells(n / 10);
      assert r[..|r| - 1] == NatToString(n / 10);
      assert r[0] == NatToString(n / 10)[0];
    }
  }

  /** `str(n)` spells `n`: its digits give `|n|`, after a '-' exactly when `n` is negative. */
  lemma IntToStringSpells(n: int)
    ensures n >= 0 ==> DecimalValue(IntToString(n)) == n
    ensures n < 0 ==> DecimalValue(IntToString(n)[1..]) == -n
    ensures IntToString(n)[0] == '-' <==> n < 0
    ensures n != 0 ==> IntToString(n)[if n < 0 then 1 else 0] != '0'
  {
    if n < 0 {
      NatToStringSpells(-n);
      assert IntToString(n)[1..] == NatToString(-n);
    } else {
      NatToStringSpells(n);
    }
  }

  /** `s.replace(pat, rep)`: left to right, non-overlapping. */
  function ReplaceAll(s: string, pat: string, rep: string): string
    requires pat != []
    decreases |s|
  {
    if |s| < |pat| then s
    else if s[..|pat|] == pat then rep + ReplaceAll(s[|pat|..], pat, rep)
    else [s[0]] + ReplaceAll(s[1..], pat, rep)
  }

  /** A string that never contains the first character of `pat` is left as it is. */
  lemma {:induction false} ReplaceAbsent(s: string, pat: string, rep: string)
    requires pat != []
    requires forall i :: 0 <= i < |s| ==> s[i] != pat[0]
    ensures ReplaceAll(s, pat, rep) == s
    decreases |s|
  {
    if |pat| <= |s| {
      assert s[..|pat|][0] != pat[0];
      ReplaceAbsent(s[1..], pat, rep);
    }
  }

  // ---------------------------------------------------------------------------
  // Concatenation

  /** `sep.join(parts)`. */
  function Join(parts: seq<string>, sep: string): string {
    if parts == [] then ""
    else if |parts| == 1 then parts[0]
    else parts[0] + sep + Join(parts[1..], sep)
  }

  /** The concatenation of all pieces, in order (built up the way `+=` builds it). */
  function Concat(pieces: seq<string>): string {
    if pieces == [] then "" else Concat(pieces[..|pieces| - 1]) + pieces[|pieces| - 1]
  }

  lemma ConcatSnoc(pieces: seq<string>, piece: string)
    ensures Concat(pieces + [piece]) == Concat(pieces) + piece
  {
    assert (pieces + [piece])[..|pieces|] == pieces;
  }

  lemma {:induction false} ConcatAppend(a: seq<string>, b: seq<string>)
    ensures Concat(a + b) == Concat(a) + Concat(b)
    decreases |b|
  {
    if b == [] {
      assert a + b == a;
    } else {
      var b' := b[..|b| - 1];
      assert (a + b)[..|a + b| - 1] == a + b';
      ConcatAppend(a, b');
    }
  }
}
