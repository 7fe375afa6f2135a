/**
 * The JavaScript string operations the screens rely on, over ASCII: `toLowerCase`, `includes`,
 * `trim`, `String(n)` and `parseInt`.
 */
module Text {
  import opened Wrappers

  /** `c.toLowerCase()` for one ASCII character. */
  function LowerChar(c: char): (r: char)
    ensures 'A' <= c <= 'Z' ==> r as int == c as int + 32
    ensures !('A' <= c <= 'Z') ==> r == c
    ensures !('A' <= r <= 'Z')
  {
    if 'A' <= c <= 'Z' then (c as int + 32) as char else c
  }

  /** `s.toLowerCase()`. */
  function ToLower(s: string): (r: string)
    ensures |r| == |s|
    ensures forall i :: 0 <= i < |s| ==> r[i] == LowerChar(s[i])
  {
    if s == [] then [] else [LowerChar(s[0])] + ToLower(s[1..])
  }

  /** A string without capitals is its own lower case. */
  lemma ToLowerSinCapitales(s: string)
    requires forall i :: 0 <= i < |s| ==> !('A' <= s[i] <= 'Z')
    ensures ToLower(s) == s
  {
    assert forall i :: 0 <= i < |s| ==> ToLower(s)[i] == s[i];
  }

  /** Lower-casing twice is lower-casing once. */
  lemma ToLowerIdempotent(s: string)
    ensures ToLower(ToLower(s)) == ToLower(s)
  {
  }

  /** `t` occurs in `s` at position `i`. */
  ghost predicate OccursAt(s: string, t: string, i: int)
  {
    0 <= i && i + |t| <= |s| && s[i..i + |t|] == t
  }

  lemma OccursShift(s: string, t: string, i: int)
    requires s != [] && i >= 0
    ensures OccursAt(s, t, i + 1) <==> OccursAt(s[1..], t, i)
  {
    if 0 <= i && i + 1 + |t| <= |s| {
      assert s[i + 1..i + 1 + |t|] == s[1..][i..i + |t|];
    }
  }

  /** `s.includes(t)`. */
  function Contains(s: string, t: string): (b: bool)
    ensures b <==> exists i :: OccursAt(s, t, i)
  {
    if t <= s then
      assert OccursAt(s, t, 0);
      true
    else if s == [] then
      assert forall i :: !OccursAt(s, t, i);
      false
    else
      var b := Contains(s[1..], t);
      assert forall i :: i >= 0 ==> (OccursAt(s, t, i + 1) <==> OccursAt(s[1..], t, i)) by {
        forall i | i >= 0
          ensures OccursAt(s, t, i + 1) <==> OccursAt(s[1..], t, i)
        {
          OccursShift(s, t, i);
        }
      }
      assert !OccursAt(s, t, 0);
      assert forall i :: OccursAt(s, t, i) ==> i >= 1 && OccursAt(s[1..], t, i - 1);
      b
  }

  /** Every string includes the empty string, so an empty search term matches everything. */
  lemma ContainsEmpty(s: string)
    ensures Contains(s, "")
  {
    assert OccursAt(s, "", 0);
  }

  /** The characters `String.prototype.trim` removes (the ASCII ones). */
  predicate IsSpace(c: char)
  {
    c == ' ' || c == '\t' || c == '\n' || c == '\r' || c == '\U{B}' || c == '\U{C}'
  }

  function TrimStart(s: string): (r: string)
    ensures |r| <= |s| && r == s[|s| - |r|..]
    ensures r == [] || !IsSpace(r[0])
    ensures forall i :: 0 <= i < |s| - |r| ==> IsSpace(s[i])
  {
    if s != [] && IsSpace(s[0]) then TrimStart(s[1..]) else s
  }

  function TrimEnd(s: string): (r: string)
    ensures |r| <= |s| && r == s[..|r|]
    ensures r == [] || !IsSpace(r[|r| - 1])
    ensures forall i :: |r| <= i < |s| ==> IsSpace(s[i])
  {
    if s != [] && IsSpace(s[|s| - 1]) then TrimEnd(s[..|s| - 1]) else s
  }

  /** `s.trim()`: the longest slice of `s` that neither starts nor ends with white space. */
  function Trim(s: string): (r: string)
    ensures exists i, j :: 0 <= i <= j <= |s| && r == s[i..j]
    ensures r == [] || (!IsSpace(r[0]) && !IsSpace(r[|r| - 1]))
  {
    var a := TrimStart(s);
    var r := TrimEnd(a);
    TrimSlice(s, a, r);
    r
  }

  lemma TrimSlice(s: string, a: string, r: string)
    requires |a| <= |s| && a == s[|s| - |a|..]
    requires |r| <= |a| && r == a[..|r|]
    ensures 0 <= |s| - |a| <= |s| - |a| + |r| <= |s| && r == s[|s| - |a|..|s| - |a| + |r|]
  {
  }

  /** A string that neither starts nor ends with white space is its own trim. */
  lemma TrimNoSpace(s: string)
    requires s == [] || (!IsSpace(s[0]) && !IsSpace(s[|s| - 1]))
    ensures Trim(s) == s
  {
  }

  predicate TodoEspacio(s: string)
  {
    forall i :: 0 <= i < |s| ==> IsSpace(s[i])
  }

  lemma {:induction false} TrimStartPrefijo(p: string, u: string)
    requires TodoEspacio(p)
    ensures TrimStart(p + u) == TrimStart(u)
    decreases |p|
  {
    if p == [] {
      assert p + u == u;
    } else {
      assert (p + u)[0] == p[0];
      assert (p + u)[1..] == p[1..] + u;
      TrimStartPrefijo(p[1..], u);
    }
  }

  lemma {:induction false} TrimEndSufijo(u: string, q: string)
    requires TodoEspacio(q)
    ensures TrimEnd(u + q) == TrimEnd(u)
    decreases |q|
  {
    if q == [] {
      assert u + q == u;
    } else {
      var q' := q[..|q| - 1];
      assert (u + q)[|u + q| - 1] == q[|q| - 1];
      assert (u + q)[..|u + q| - 1] == u + q';
      TrimEndSufijo(u, q');
    }
  }

  lemma {:induction false} TrimSufijo(u: string, q: string)
    requires TodoEspacio(q)
    ensures TrimEnd(TrimStart(u + q)) == TrimEnd(TrimStart(u))
    decreases |u|
  {
    if u == [] {
      assert u + q == q + [];
      TrimStartPrefijo(q, []);
    } else if IsSpace(u[0]) {
      assert (u + q)[0] == u[0];
      assert (u + q)[1..] == u[1..] + q;
      TrimSufijo(u[1..], q);
    } else {
      assert (u + q)[0] == u[0];
      TrimEndSufijo(u, q);
    }
  }

  /** White space around a string does not change its trim. */
  lemma TrimRodeado(p: string, u: string, q: string)
    requires TodoEspacio(p) && TodoEspacio(q)
    ensures Trim(p + u + q) == Trim(u)
  {
    assert p + u + q == p + (u + q);
    TrimStartPrefijo(p, u + q);
    TrimSufijo(u, q);
  }

  lemma ToLowerAppend(a: string, b: string)
    ensures ToLower(a + b) == ToLower(a) + ToLower(b)
  {
    assert forall i :: 0 <= i < |a + b| ==> ToLower(a + b)[i] == (ToLower(a) + ToLower(b))[i];
  }

  /** `s` without its trailing '/' characters. */
  function SinBarrasFinales(s: string): (r: string)
    ensures |r| <= |s| && r == s[..|r|]
    ensures r == [] || r[|r| - 1] != '/'
    ensures forall i :: |r| <= i < |s| ==> s[i] == '/'
  {
    if s != [] && s[|s| - 1] == '/' then SinBarrasFinales(s[..|s| - 1]) else s
  }

  /** A string that does not end in '/' has no trailing '/' to remove. */
  lemma SinBarrasFinalesSinBarra(s: string)
    requires s == [] || s[|s| - 1] != '/'
    ensures SinBarrasFinales(s) == s
  {
  }

  /** One more trailing '/' is removed with the others. */
  lemma SinBarrasFinalesBarra(s: string)
    ensures SinBarrasFinales(s + "/") == SinBarrasFinales(s)
  {
    assert (s + "/")[..|s + "/"| - 1] == s;
  }

  /** Lower-casing leaves white space alone. */
  lemma ToLowerEspacios(p: string)
    requires TodoEspacio(p)
    ensures ToLower(p) == p
  {
    assert forall i :: 0 <= i < |p| ==> ToLower(p)[i] == p[i];
  }

  function DigitChar(d: nat): (c: char)
    requires d < 10
    ensures '0' <= c <= '9'
  {
    ('0' as int + d) as char
  }

  predicate IsDigit(c: char)
  {
    '0' <= c <= '9'
  }

  /** The decimal numeral of a natural number, without leading zeros. */
  function NatToString(n: nat): (r: string)
    ensures |r| > 0 && forall i :: 0 <= i < |r| ==> IsDigit(r[i])
    decreases n
  {
    if n < 10 then [DigitChar(n)] else NatToString(n / 10) + [DigitChar(n % 10)]
  }

  /** `String(n)` for an integer. */
  function IntToString(n: int): string
  {
    if n < 0 then "-" + NatToString(-n) else NatToString(n)
  }

  /** The value of a non-empty run of decimal digits. */
  function DigitsValue(s: string): nat
    requires |s| > 0 && forall i :: 0 <= i < |s| ==> IsDigit(s[i])
    decreases |s|
  {
    assert IsDigit(s[|s| - 1]);
    var d: nat := s[|s| - 1] as int - '0' as int;
    if |s| == 1 then d else DigitsValue(s[..|s| - 1]) * 10 + d
  }

  function ParseNat(s: string): Option<nat>
  {
    if |s| > 0 && forall i :: 0 <= i < |s| ==> IsDigit(s[i]) then Some(DigitsValue(s)) else None
  }

  /**
   * `parseInt(s, 10)` over the strings the forms hold: an optional minus sign followed by
   * decimal digits; anything else is `NaN`, here `None`.
   */
  function ParseInt(s: string): (r: Option<int>)
    ensures r.Some? ==> |s| > 0
  {
    if |s| > 0 && s[0] == '-' then
      match ParseNat(s[1..])
      case Some(n) => var m: int := -(n as int); Some(m)
      case None => None
    else
      match ParseNat(s)
      case Some(n) => Some(n)
      case None => None
  }

  lemma {:induction false} DigitsValueOfNatToString(n: nat)
    ensures DigitsValue(NatToString(n)) == n
    decreases n
  {
    if n >= 10 {
      var s := NatToString(n);
      assert s[..|s| - 1] == NatToString(n / 10);
      DigitsValueOfNatToString(n / 10);
    }
  }

  /** Parsing the decimal numeral of an integer gives that integer back. */
  lemma ParseIntOfIntToString(n: int)
    ensures ParseInt(IntToString(n)) == Some(n)
  {
    if n < 0 {
      var s := IntToString(n);
      var d := NatToString(-n);
      assert s[1..] == d;
      DigitsValueOfNatToString(-n);
      assert ParseNat(d) == Some(-n);
    } else {
      var d := NatToString(n);
      DigitsValueOfNatToString(n);
      assert d[0] != '-';
      assert ParseNat(d) == Some(n);
    }
  }

  /** A numeral is never the empty string, so an id written into a form field is always truthy. */
  lemma IntToStringNonEmpty(n: int)
    ensures IntToString(n) != ""
  {
  }
}
