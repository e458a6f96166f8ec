/**
  String helpers shared by both request handlers. The only string test the
  handlers perform is JavaScript's `s.includes(sub)`; it is given here twice:
  once as a reference predicate and once as the computation the model uses.
 */
module Text {

  /** `sub` occurs in `s` starting at some position `i` (possibly `|s|`, for the empty `sub`). */
  ghost predicate Occurs(sub: string, s: string) {
    exists i :: 0 <= i <= |s| && sub <= s[i..]
  }

  /** Occurrences in the tail of `s` are exactly the occurrences in `s` past position 0. */
  lemma OccursInTail(sub: string, s: string)
    requires |s| > 0 && !(sub <= s)
    ensures Occurs(sub, s[1..]) <==> Occurs(sub, s)
  {
    if Occurs(sub, s) {
      var i :| 0 <= i <= |s| && sub <= s[i..];
      assert i != 0 by { assert s[0..] == s; }
      assert s[1..][i - 1..] == s[i..];
    }
    if Occurs(sub, s[1..]) {
      var j :| 0 <= j <= |s[1..]| && sub <= s[1..][j..];
      assert s[1..][j..] == s[j + 1..];
    }
  }

  /** JavaScript's `s.includes(sub)`: a left-to-right scan for `sub`. */
  function Includes(s: string, sub: string): (r: bool)
    ensures r <==> Occurs(sub, s)
    decreases |s|
  {
    if sub <= s then
      assert s[0..] == s;
      true
    else if |s| == 0 then
      false
    else
      OccursInTail(sub, s);
      Includes(s[1..], sub)
  }
}
