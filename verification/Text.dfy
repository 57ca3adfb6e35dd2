/** Decimal text of integers and the template-literal keys built from it. */
module Text {
  function DigitChar(d: nat): (c: char)
    requires d < 10
    ensures '0' <= c <= '9' && c as int == '0' as int + d
  {
    ('0' as int + d) as char
  }

  function NatText(n: nat): (s: string)
    ensures s != [] && forall i :: 0 <= i < |s| ==> '0' <= s[i] <= '9'
  {
    if n < 10 then [DigitChar(n)] else NatText(n / 10) + [DigitChar(n % 10)]
  }

  /** `${i}` of an integer. */
  function IntText(i: int): (s: string)
    ensures s != []
  {
    if i < 0 then "-" + NatText(-i) else NatText(i)
  }

  /** The number a digit string denotes. */
  ghost function ValueOf(s: string): int {
    if s == [] then 0 else 10 * ValueOf(s[..|s| - 1]) + (s[|s| - 1] as int - '0' as int)
  }

  lemma {:induction false} NatTextDenotes(n: nat)
    ensures ValueOf(NatText(n)) == n
  {
    if n < 10 {
      assert [DigitChar(n)][..0] == [];
    } else {
      NatTextDenotes(n / 10);
      assert NatText(n)[..|NatText(n)| - 1] == NatText(n / 10);
    }
  }

  lemma IntTextDenotes(i: int)
    ensures i < 0 <==> IntText(i)[0] == '-'
    ensures i == if i < 0 then -ValueOf(IntText(i)[1..]) else ValueOf(IntText(i))
  {
    if i < 0 {
      NatTextDenotes(-i);
      assert IntText(i)[1..] == NatText(-i);
    } else {
      NatTextDenotes(i);
    }
  }

  lemma IntTextInjective(i: int, j: int)
    requires IntText(i) == IntText(j)
    ensures i == j
  {
    assert IntText(i)[0] == IntText(j)[0];
    IntTextDenotes(i);
    IntTextDenotes(j);
  }

  lemma IntTextHasNoColon(i: int)
    ensures ':' !in IntText(i)
  {
  }

  /** A colon-separated pair is recovered from the first colon. */
  lemma SplitAtFirstColon(a: string, b: string, a': string, b': string)
    requires ':' !in a && ':' !in a' && a + ":" + b == a' + ":" + b'
    ensures a == a' && b == b'
  {
    var s, t := a + ":" + b, a' + ":" + b';
    assert s[|a|] == ':' && t[|a'|] == ':';
    assert forall i :: 0 <= i < |a| ==> s[i] == a[i];
    assert forall i :: 0 <= i < |a'| ==> t[i] == a'[i];
    assert |a| == |a'|;
    assert a == s[..|a|] && a' == t[..|a'|];
    assert b == s[|a| + 1..] && b' == t[|a'| + 1..];
  }

  /** A colon-separated pair is recovered from the last colon. */
  lemma SplitAtLastColon(a: string, b: string, a': string, b': string)
    requires ':' !in b && ':' !in b' && a + ":" + b == a' + ":" + b'
    ensures a == a' && b == b'
  {
    var s, t := a + ":" + b, a' + ":" + b';
    assert s[|a|] == ':' && t[|a'|] == ':';
    assert forall i :: |a| < i < |s| ==> s[i] == b[i - |a| - 1];
    assert forall i :: |a'| < i < |t| ==> t[i] == b'[i - |a'| - 1];
    assert |a| == |a'|;
    assert a == s[..|a|] && a' == t[..|a'|];
    assert b == s[|a| + 1..] && b' == t[|a'| + 1..];
  }

  /** `Array.prototype.join`. */
  function Join(parts: seq<string>, separator: string): string {
    if |parts| == 0 then ""
    else if |parts| == 1 then parts[0]
    else parts[0] + separator + Join(parts[1..], separator)
  }

  lemma {:induction false} JoinAppend(parts: seq<string>, separator: string, last: string)
    requires parts != []
    ensures Join(parts + [last], separator) == Join(parts, separator) + separator + last
  {
    if |parts| == 1 {
      assert (parts + [last])[1..] == [last];
    } else {
      assert (parts + [last])[1..] == parts[1..] + [last];
      JoinAppend(parts[1..], separator, last);
      assert parts[0] + separator + (Join(parts[1..], separator) + separator + last)
        == (parts[0] + separator + Join(parts[1..], separator)) + separator + last;
    }
  }
}
