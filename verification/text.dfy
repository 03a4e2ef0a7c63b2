/** The few `java.lang.String` operations the scheduler relies on, over `seq<char>`. */
module Text {

  /** `s.indexOf(c)`: the first position of `c` in `s`, or -1 when there is none. */
  function IndexOf(s: string, c: char): (r: int)
    ensures -1 <= r < |s|
    ensures r == -1 <==> c !in s
    ensures r >= 0 ==> s[r] == c && c !in s[..r]
  {
    if |s| == 0 then -1
    else if s[0] == c then 0
    else
      var k := IndexOf(s[1..], c);
      if k == -1 then -1
      else
        assert s[..k + 1] == [s[0]] + s[1..][..k];
        k + 1
  }

  /** `s.substring(s.indexOf(c) + 1, s.length())`: everything after the first `c`;
      when `c` does not occur, indexOf yields -1 and the whole of `s` comes back. */
  function AfterFirst(s: string, c: char): (r: string)
    ensures c !in s ==> r == s
    ensures c in s ==> |r| < |s| && c !in s[..|s| - |r| - 1] && s == s[..|s| - |r| - 1] + [c] + r
  {
    s[IndexOf(s, c) + 1..]
  }

  /** Splitting at the first `c` of `p + [c] + q` with no `c` in `p` gives back `q`. */
  lemma {:induction false} AfterFirstOfJoin(p: string, c: char, q: string)
    requires c !in p
    ensures AfterFirst(p + [c] + q, c) == q
  {
    var s := p + [c] + q;
    assert s[|p|] == c;
    assert c in s;
    var r := AfterFirst(s, c);
    var k := |s| - |r| - 1;
    // the first c of s sits neither inside p nor after it
    if k != |p| {
      assert false;
    }
    assert s[|p| + 1..] == q;
  }

  /** `s.contains(p)`, scanning from the left as the library does. */
  predicate Contains(s: string, p: string) {
    |p| <= |s| && (s[..|p|] == p || Contains(s[1..], p))
  }

  /** `p` occurs in `s` starting at position `i`. */
  predicate OccursAt(s: string, p: string, i: int) {
    0 <= i && i + |p| <= |s| && s[i..i + |p|] == p
  }

  /** The left-to-right scan finds `p` exactly when `p` occurs somewhere in `s`. */
  lemma {:induction false} ContainsIffOccurs(s: string, p: string)
    ensures Contains(s, p) <==> exists i :: OccursAt(s, p, i)
  {
    if |p| <= |s| && s[..|p|] != p && |s| > 0 {
      ContainsIffOccurs(s[1..], p);
      if exists i :: OccursAt(s, p, i) {
        var i :| OccursAt(s, p, i);
        assert i != 0;
        assert s[1..][i - 1..i - 1 + |p|] == s[i..i + |p|];
        assert OccursAt(s[1..], p, i - 1);
      }
      if Contains(s[1..], p) {
        var j :| OccursAt(s[1..], p, j);
        assert s[1..][j..j + |p|] == s[j + 1..j + 1 + |p|];
        assert OccursAt(s, p, j + 1);
      }
    } else if |p| <= |s| && s[..|p|] == p {
      assert OccursAt(s, p, 0);
    }
  }

  /** A piece found at a known position is reported by `Contains`. */
  lemma ContainsAt(s: string, p: string, i: int)
    requires OccursAt(s, p, i)
    ensures Contains(s, p)
  {
    ContainsIffOccurs(s, p);
  }

  /** Decimal rendering of a natural number (Java's `%d` / string concatenation). */
  function DecimalString(n: nat): (r: string)
    ensures |r| >= 1
    ensures forall i :: 0 <= i < |r| ==> '0' <= r[i] <= '9'
  {
    if n < 10 then [Digit(n)] else DecimalString(n / 10) + [Digit(n % 10)]
  }

  function Digit(d: nat): (c: char)
    requires d < 10
    ensures '0' <= c <= '9'
  {
    (('0' as int) + d) as char
  }
}
