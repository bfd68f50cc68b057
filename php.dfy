/** The few PHP built-ins the shortcode renderers depend on, with PHP's own semantics:
    values that may be null, empty(), ltrim(), str_starts_with() and the decimal rendering
    of an integer used by the string concatenation operator; and substring containment,
    which the renderers do not use but which states what their markup holds. */
module Php {

  /** A value or PHP's null. */
  datatype Option<+T> = None | Some(value: T)

  /** A shortcode attribute value: a string, or null (the only non-string default in the core). */
  datatype Value = Null | Str(s: string)

  /** What `.` and `<?= ?>` make of a value: null renders as the empty string. */
  function ToStr(v: Value): string
  {
    match v
    case Null => ""
    case Str(s) => s
  }

  /** PHP's empty() on a null-or-string value: null, "" and "0" are all empty. */
  predicate Empty(v: Value)
  {
    v == Null || v == Str("") || v == Str("0")
  }

  /** The characters ltrim() strips when given no character list: " \t\n\r\0\x0B". */
  predicate IsTrimmed(c: char)
  {
    c == ' ' || c == '\t' || c == '\n' || c == '\r' || c == '\0' || c == '\U{0B}'
  }

  /** Where the run of trimmed characters that starts at index i of s ends. */
  function TrimmedRunEnd(s: string, i: nat): (k: nat)
    requires i <= |s|
    ensures i <= k <= |s|
    ensures forall j :: i <= j < k ==> IsTrimmed(s[j])
    ensures k == |s| || !IsTrimmed(s[k])
    decreases |s| - i
  {
    if i < |s| && IsTrimmed(s[i]) then TrimmedRunEnd(s, i + 1) else i
  }

  /** ltrim($s): drops the leading run of trimmed characters and nothing else. */
  function LTrim(s: string): (r: string)
    ensures |r| <= |s| && r == s[|s| - |r|..]
    ensures forall i :: 0 <= i < |s| - |r| ==> IsTrimmed(s[i])
    ensures r == [] || !IsTrimmed(r[0])
  {
    s[TrimmedRunEnd(s, 0)..]
  }

  /** str_starts_with($s, $prefix). */
  predicate StartsWith(s: string, prefix: string)
  {
    |prefix| <= |s| && s[..|prefix|] == prefix
  }

  /** $t occurs in $s starting at index i. */
  predicate OccursAt(s: string, t: string, i: nat)
  {
    i + |t| <= |s| && s[i..i + |t|] == t
  }

  /** $t occurs in $s at some position: how the properties of the markup are stated. */
  ghost predicate Contains(s: string, t: string)
  {
    exists i: nat :: OccursAt(s, t, i)
  }

  /** The decimal digit for d. */
  function DigitChar(d: nat): (c: char)
    requires d < 10
    ensures '0' <= c <= '9'
  {
    (48 + d) as char
  }

  /** The decimal text of a non-negative integer, as `'x' . $n` produces it. */
  function NatToString(n: nat): (r: string)
    ensures |r| >= 1
    ensures n >= 10 ==> |r| >= 2
    ensures forall i :: 0 <= i < |r| ==> '0' <= r[i] <= '9'
    ensures r[|r| - 1] == DigitChar(n % 10)
  {
    if n < 10 then [DigitChar(n)] else NatToString(n / 10) + [DigitChar(n % 10)]
  }

  /** Different numbers have different decimal texts. */
  lemma {:induction false} NatToStringInjective(m: nat, n: nat)
    requires NatToString(m) == NatToString(n)
    ensures m == n
  {
    var s := NatToString(m);
    assert DigitChar(m % 10) == s[|s| - 1] == DigitChar(n % 10);
    if m >= 10 && n >= 10 {
      assert NatToString(m / 10) == s[..|s| - 1] == NatToString(n / 10);
      NatToStringInjective(m / 10, n / 10);
    }
  }

  /** A string that begins with `prefix` starts with it. */
  lemma StartsWithConcat(prefix: string, rest: string)
    ensures StartsWith(prefix + rest, prefix)
  {
    assert (prefix + rest)[..|prefix|] == prefix;
  }

  /** Extending a string keeps its prefixes. */
  lemma StartsWithExtend(s: string, prefix: string, more: string)
    requires StartsWith(s, prefix)
    ensures StartsWith(s + more, prefix)
  {
    assert (s + more)[..|prefix|] == s[..|prefix|];
  }

  /** A string cannot start with two strings that differ at a position both cover. */
  lemma StartsWithClash(s: string, p: string, q: string, i: nat)
    requires i < |p| && i < |q| && p[i] != q[i]
    requires StartsWith(s, p)
    ensures !StartsWith(s, q)
  {
    assert s[i] == p[i] by { assert s[..|p|][i] == p[i]; }
    if |q| <= |s| {
      assert s[..|q|][i] == s[i] != q[i];
    }
  }

  /** A string contains each of its prefixes. */
  lemma ContainsPrefix(t: string, b: string)
    ensures Contains(t + b, t)
  {
    assert OccursAt(t + b, t, 0) by { assert (t + b)[..|t|] == t; }
  }

  /** A string contains each of its suffixes. */
  lemma ContainsSuffix(a: string, t: string)
    ensures Contains(a + t, t)
  {
    assert OccursAt(a + t, t, |a|) by { assert (a + t)[|a|..] == t; }
  }

  /** Containment is transitive. */
  lemma ContainsTransitive(s: string, t: string, u: string)
    requires Contains(s, t) && Contains(t, u)
    ensures Contains(s, u)
  {
    var i: nat :| OccursAt(s, t, i);
    var j: nat :| OccursAt(t, u, j);
    assert OccursAt(s, u, i + j) by {
      forall k | 0 <= k < |u| ensures s[i + j + k] == u[k] {
        assert s[i + j + k] == s[i..i + |t|][j + k] == t[j + k] == t[j..j + |u|][k];
      }
      assert s[i + j..i + j + |u|] == u;
    }
  }
}
