/**
 * The string helpers of the generator: the decimal numbers spliced into
 * generated names (`${i + 1}`), `splitName` (mod.ts:624-631), which splits a
 * qualified Kotlin name at its last period, and `parseFunctioName`
 * (mod.ts:613-614), which turns a production name into the name of its
 * parse function.
 */
module Names {

  /** The character of one decimal digit. */
  function Digit(d: nat): (c: char)
    requires d < 10
  {
    (48 + d) as char
  }

  /** `${n}`: the decimal spelling of a natural number. */
  function NatToString(n: nat): (s: string)
    ensures 1 <= |s|
    ensures forall i :: 0 <= i < |s| ==> '0' <= s[i] <= '9'
    decreases n
  {
    if n < 10 then [Digit(n)] else NatToString(n / 10) + [Digit(n % 10)]
  }

  /** A larger number never has a shorter spelling. */
  lemma {:induction false} NatToStringLengthMonotone(a: nat, b: nat)
    requires a <= b
    ensures |NatToString(a)| <= |NatToString(b)|
    decreases b
  {
    if 10 <= a {
      NatToStringLengthMonotone(a / 10, b / 10);
    }
  }

  /** Different numbers are spelled differently. */
  lemma {:induction false} NatToStringInjective(a: nat, b: nat)
    requires NatToString(a) == NatToString(b)
    ensures a == b
    decreases a
  {
    if a < 10 && b < 10 {
      assert NatToString(a)[0] == Digit(a);
    } else if 10 <= a && 10 <= b {
      var sa, sb := NatToString(a), NatToString(b);
      assert sa[|sa| - 1] == Digit(a % 10);
      assert sb[|sb| - 1] == Digit(b % 10);
      assert sa[..|sa| - 1] == NatToString(a / 10);
      assert sb[..|sb| - 1] == NatToString(b / 10);
      NatToStringInjective(a / 10, b / 10);
    }
  }

  /**
   * The names `v1`, `v2`, ... that the generator gives to the elements of a
   * sequence: the name of a later element is never a prefix of the name of
   * an earlier one, so nothing declared under a later element's name can
   * overwrite an earlier element's variable.
   */
  lemma NumberedNameNotPrefix(v: string, i: nat, j: nat)
    requires i < j
    ensures !(v + NatToString(j) <= v + NatToString(i))
  {
    var si, sj := NatToString(i), NatToString(j);
    NatToStringLengthMonotone(i, j);
    if v + sj <= v + si {
      assert |sj| == |si|;
      assert sj == (v + sj)[|v|..] == (v + si)[|v|..] == si;
      NatToStringInjective(i, j);
    }
  }

  /** `s.lastIndexOf(c)`: the index of the last occurrence of `c`, or -1. */
  function LastIndexOf(s: string, c: char): (r: int)
    ensures -1 <= r < |s|
    ensures r == -1 <==> c !in s
    ensures 0 <= r ==> s[r] == c && c !in s[r + 1..]
    decreases |s|
  {
    if s == [] then -1
    else if s[|s| - 1] == c then |s| - 1
    else
      var r := LastIndexOf(s[..|s| - 1], c);
      assert s == s[..|s| - 1] + [s[|s| - 1]];
      r
  }

  /**
   * `splitName`: a qualified name `a.b.C` becomes its package `a.b` and its
   * simple name `C`; a name without a period has the empty package.
   */
  function SplitName(name: string): (r: (string, string))
    ensures '.' !in name ==> r == ("", name)
    ensures '.' in name ==> r.0 + "." + r.1 == name && '.' !in r.1
  {
    var i := LastIndexOf(name, '.');
    if i == -1 then ("", name)
    else
      assert name == name[..i] + "." + name[i + 1..];
      (name[..i], name[i + 1..])
  }

  /**
   * The split is the only one whose simple name has no period: any way of
   * writing `name` as `p + "." + s` with a period-free `s` is the one
   * SplitName returns.
   */
  lemma {:induction false} SplitNameUnique(name: string, p: string, s: string)
    requires p + "." + s == name && '.' !in s
    ensures SplitName(name) == (p, s)
  {
    var i := LastIndexOf(name, '.');
    assert name[|p|] == '.';
    assert i != -1;
    assert name[..i] == p;
    assert name[i + 1..] == s;
  }

  /** ASCII lower-casing of one character (other characters are unchanged). */
  function LowerChar(ch: char): (r: char)
    ensures 'A' <= ch <= 'Z' ==> r as int == ch as int + 32
    ensures !('A' <= ch <= 'Z') ==> r == ch
  {
    if 'A' <= ch <= 'Z' then (ch as int + 32) as char else ch
  }

  /**
   * `parseFunctioName`: the production name with its first character
   * lower-cased, the name of the production's parse function.
   */
  function ParseFunctionName(name: string): (r: string)
    ensures |r| == |name|
    ensures r != [] ==> r[0] == LowerChar(name[0]) && r[1..] == name[1..] && !('A' <= r[0] <= 'Z')
  {
    if name == [] then [] else [LowerChar(name[0])] + name[1..]
  }

  /** Applying the conversion twice changes nothing more. */
  lemma ParseFunctionNameIdempotent(name: string)
    ensures ParseFunctionName(ParseFunctionName(name)) == ParseFunctionName(name)
  {
  }

  /**
   * Two names get the same parse function name exactly when they have the
   * same length, their first characters agree up to ASCII case, and the rest
   * is the same: `Value` and `value` collide, `Value` and `Values` do not.
   */
  lemma ParseFunctionNameCollides(x: string, y: string)
    ensures ParseFunctionName(x) == ParseFunctionName(y) <==>
      |x| == |y| && (x != [] ==> LowerChar(x[0]) == LowerChar(y[0]) && x[1..] == y[1..])
  {
    if |x| == |y| && x != [] && LowerChar(x[0]) == LowerChar(y[0]) && x[1..] == y[1..] {
      assert ParseFunctionName(x) == [LowerChar(x[0])] + x[1..];
    }
  }
}
