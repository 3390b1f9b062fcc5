/**
 * The pieces of Go's standard library that the core's string handling rests
 * on: strings.ToLower, strings.TrimSpace (with unicode.IsSpace),
 * path/filepath.Ext and Join on a Unix system, and the decimal form `%d`
 * prints for an integer.
 */
module GoStrings {

  // ----- strings.ToLower -----

  /**
   * unicode.ToLower on the characters whose lower case is ASCII: the ASCII
   * capitals, U+0130 (capital I with dot above, lower-cased to 'i') and
   * U+212A (the Kelvin sign, lower-cased to 'k'). Every other character is
   * returned as it is; Go maps the other non-ASCII capitals to non-ASCII
   * letters, which no ASCII comparison can tell apart from the originals.
   */
  function LowerChar(c: char): char {
    if 'A' <= c <= 'Z' then (c as int - 'A' as int + 'a' as int) as char
    else if c == '\U{0130}' then 'i'
    else if c == '\U{212A}' then 'k'
    else c
  }

  /** strings.ToLower maps every character on its own. */
  function ToLower(s: string): string {
    seq(|s|, i requires 0 <= i < |s| => LowerChar(s[i]))
  }

  lemma ToLowerAppend(a: string, b: string)
    ensures ToLower(a + b) == ToLower(a) + ToLower(b)
  {
    assert forall i :: 0 <= i < |a + b| ==> ToLower(a + b)[i] == (ToLower(a) + ToLower(b))[i];
  }

  // ----- unicode.IsSpace and strings.TrimSpace -----

  /** The characters with Unicode's White_Space property, which is what unicode.IsSpace tests. */
  predicate IsSpace(c: char) {
    || ('\t' <= c <= '\r')
    || c == ' '
    || c == '\U{0085}'
    || c == '\U{00A0}'
    || c == '\U{1680}'
    || ('\U{2000}' <= c <= '\U{200A}')
    || c == '\U{2028}'
    || c == '\U{2029}'
    || c == '\U{202F}'
    || c == '\U{205F}'
    || c == '\U{3000}'
  }

  predicate AllSpace(s: string) {
    forall k :: 0 <= k < |s| ==> IsSpace(s[k])
  }

  /** Drops the leading white space. */
  function TrimLeft(s: string): string {
    if s != [] && IsSpace(s[0]) then TrimLeft(s[1..]) else s
  }

  /** Drops the trailing white space. */
  function TrimRight(s: string): string {
    if s != [] && IsSpace(s[|s| - 1]) then TrimRight(s[..|s| - 1]) else s
  }

  function TrimSpace(s: string): string {
    TrimRight(TrimLeft(s))
  }

  lemma {:induction false} TrimLeftSlice(s: string) returns (i: nat)
    ensures i <= |s| && TrimLeft(s) == s[i..]
    ensures AllSpace(s[..i])
    ensures i < |s| ==> !IsSpace(s[i])
  {
    if s != [] && IsSpace(s[0]) {
      var j := TrimLeftSlice(s[1..]);
      i := j + 1;
      assert s[1..][j..] == s[i..];
      assert s[..i] == [s[0]] + s[1..][..j];
    } else {
      i := 0;
    }
  }

  lemma {:induction false} TrimRightSlice(s: string) returns (j: nat)
    ensures j <= |s| && TrimRight(s) == s[..j]
    ensures AllSpace(s[j..])
    ensures 0 < j ==> !IsSpace(s[j - 1])
  {
    if s != [] && IsSpace(s[|s| - 1]) {
      var p := s[..|s| - 1];
      j := TrimRightSlice(p);
      assert p[..j] == s[..j];
      assert s[j..] == p[j..] + [s[|s| - 1]];
    } else {
      j := |s|;
    }
  }

  /**
   * TrimSpace keeps exactly the stretch of s between its leading and its
   * trailing white space: what is cut off is all white space, and what is
   * kept neither starts nor ends with white space.
   */
  lemma TrimSpaceSlice(s: string) returns (i: nat, j: nat)
    ensures i <= j <= |s| && TrimSpace(s) == s[i..j]
    ensures AllSpace(s[..i]) && AllSpace(s[j..])
    ensures i < j ==> !IsSpace(s[i]) && !IsSpace(s[j - 1])
  {
    i := TrimLeftSlice(s);
    var j' := TrimRightSlice(s[i..]);
    j := i + j';
    assert s[i..][..j'] == s[i..j];
    assert s[i..][j'..] == s[j..];
    if i == j {
      assert AllSpace(s[i..]);
      assert s[j..] == s[i..];
    } else {
      assert s[i..][j' - 1] == s[j - 1];
    }
  }

  /** TrimSpace gives "" exactly when the text is all white space. */
  lemma TrimSpaceEmpty(s: string)
    ensures TrimSpace(s) == [] <==> AllSpace(s)
  {
    var i, j := TrimSpaceSlice(s);
    if i == j {
      forall k | 0 <= k < |s| ensures IsSpace(s[k]) {
        if k < i { assert s[..i][k] == s[k]; } else { assert s[j..][k - j] == s[k]; }
      }
    } else {
      assert !IsSpace(s[i]);
    }
  }

  // ----- path/filepath on Unix -----

  /**
   * filepath.Ext: the suffix of the last path element that starts at its
   * last '.', or "" when that element has no '.'.
   */
  function Ext(path: string): (e: string)
    ensures |e| <= |path| && e == path[|path| - |e|..]
  {
    if path == [] || path[|path| - 1] == '/' then ""
    else if path[|path| - 1] == '.' then "."
    else
      var e := Ext(path[..|path| - 1]);
      if e == "" then "" else e + [path[|path| - 1]]
  }

  /** A proper extension: a dot followed by characters that are neither '.' nor '/'. */
  predicate IsExtension(e: string) {
    |e| >= 1 && e[0] == '.' && forall k :: 1 <= k < |e| ==> e[k] != '.' && e[k] != '/'
  }

  /** Appending a proper extension to any path makes it the path's extension. */
  lemma {:induction false} ExtOfAppend(path: string, e: string)
    requires IsExtension(e)
    ensures Ext(path + e) == e
  {
    var p := path + e;
    if |e| == 1 {
      assert p[|p| - 1] == '.';
    } else {
      var e' := e[..|e| - 1];
      assert p[..|p| - 1] == path + e';
      ExtOfAppend(path, e');
      assert p[|p| - 1] == e[|e| - 1];
      assert e' + [e[|e| - 1]] == e;
    }
  }

  /** Ext commutes with lower-casing: '.' and '/' are left alone by ToLower. */
  lemma {:induction false} ExtOfLower(path: string)
    ensures Ext(ToLower(path)) == ToLower(Ext(path))
  {
    if path != [] {
      var n := |path|;
      var init, c := path[..n - 1], path[n - 1];
      var l := ToLower(path);
      assert path == init + [c];
      ToLowerAppend(init, [c]);
      assert l == ToLower(init) + [LowerChar(c)];
      assert l[..n - 1] == ToLower(init);
      assert l[n - 1] == LowerChar(c);
      if c != '/' && c != '.' {
        ExtOfLower(init);
        var e := Ext(init);
        if e != "" {
          ToLowerAppend(e, [c]);
          assert ToLower([c]) == [LowerChar(c)];
        }
      }
    }
  }

  lemma AppendAssoc(a: string, b: string, c: string)
    ensures a + (b + c) == (a + b) + c
  {
  }

  /**
   * filepath.Join of two elements: empty elements are dropped and the rest
   * are separated by '/'. The lexical clean-up Join applies afterwards is
   * not modelled.
   */
  function Join(dir: string, name: string): (p: string)
    ensures dir != "" && name != "" ==> p == dir + "/" + name
  {
    if dir == "" then name else if name == "" then dir else dir + "/" + name
  }

  // ----- decimal formatting, as `%d` prints an integer -----

  predicate IsDigit(c: char) { '0' <= c <= '9' }

  function DigitChar(d: nat): (c: char)
    requires d < 10
    ensures IsDigit(c)
  {
    ('0' as int + d) as char
  }

  /** The decimal digits of n, most significant first, without leading zeros. */
  function NatToDecimal(n: nat): (s: string)
    ensures |s| >= 1 && forall k :: 0 <= k < |s| ==> IsDigit(s[k])
    ensures s[0] == '0' ==> n == 0
  {
    if n < 10 then [DigitChar(n)] else NatToDecimal(n / 10) + [DigitChar(n % 10)]
  }

  /** `%d`: a minus sign for negative numbers, then the digits of the magnitude. */
  function FormatInt(n: int): string {
    if n < 0 then "-" + NatToDecimal(-n) else NatToDecimal(n)
  }

  /** The number a string of decimal digits stands for. */
  function DecimalValue(s: string): nat
    requires forall k :: 0 <= k < |s| ==> IsDigit(s[k])
  {
    if s == [] then 0
    else
      var last := s[|s| - 1];
      assert IsDigit(last);
      DecimalValue(s[..|s| - 1]) * 10 + (last as int - '0' as int)
  }

  /** Reading back the decimal digits gives the number. */
  lemma {:induction false} DecimalRoundTrip(n: nat)
    ensures DecimalValue(NatToDecimal(n)) == n
  {
    if n >= 10 {
      var s := NatToDecimal(n);
      assert s[..|s| - 1] == NatToDecimal(n / 10);
      DecimalRoundTrip(n / 10);
    }
  }

  /** Distinct integers print differently. */
  lemma FormatIntInjective(a: int, b: int)
    requires FormatInt(a) == FormatInt(b)
    ensures a == b
  {
    var sa, sb := FormatInt(a), FormatInt(b);
    if a < 0 && b < 0 {
      assert NatToDecimal(-a) == sa[1..] == sb[1..] == NatToDecimal(-b);
      DecimalRoundTrip(-a);
      DecimalRoundTrip(-b);
    } else if a >= 0 && b >= 0 {
      DecimalRoundTrip(a);
      DecimalRoundTrip(b);
    }
  }
}
