/** String helpers with JavaScript's meaning: truthiness of an optional
    string, `a || b`, `String.prototype.includes` and `split('/').pop()`. */
module Text {
  import opened Wrappers

  /** JavaScript truthiness of an optional string: present and not empty. */
  predicate Truthy(o: Option<string>) {
    o.Some? && o.value != ""
  }

  /** `a || b` on optional strings: the first operand when it is truthy,
      otherwise the second, whatever the second is. */
  function OrElse(a: Option<string>, b: Option<string>): (r: Option<string>)
    ensures r == a || r == b
    ensures Truthy(a) ==> r == a
    ensures !Truthy(a) ==> r == b
    ensures Truthy(r) <==> Truthy(a) || Truthy(b)
  {
    if Truthy(a) then a else b
  }

  /** `(a || b) || c` is `a || (b || c)`, and a falsy first operand is
      dropped: a chain of fallbacks picks its first truthy value. */
  lemma OrElseChain(a: Option<string>, b: Option<string>, c: Option<string>)
    ensures OrElse(OrElse(a, b), c) == OrElse(a, OrElse(b, c))
    ensures !Truthy(a) ==> OrElse(a, c) == c
  {
  }

  /** Splitting a concatenation at the seam gives back its parts. */
  lemma AppendParts(a: string, b: string)
    ensures (a + b)[..|a|] == a && (a + b)[|a|..] == b
  {
  }

  /** `sub` occurs in `s` starting at index `i`. */
  predicate OccursAt(s: string, sub: string, i: int)
    requires 0 <= i
  {
    i + |sub| <= |s| && s[i..i + |sub|] == sub
  }

  /** `s.includes(sub)`. */
  function Includes(s: string, sub: string): (r: bool)
    ensures r <==> exists i :: 0 <= i && OccursAt(s, sub, i)
    decreases |s|
  {
    if |sub| > |s| then false
    else if s[..|sub|] == sub then
      assert OccursAt(s, sub, 0);
      true
    else
      var r := Includes(s[1..], sub);
      assert r ==> exists i :: 0 <= i && OccursAt(s, sub, i) by {
        if r {
          var j :| 0 <= j && OccursAt(s[1..], sub, j);
          assert s[1..][j..j + |sub|] == s[j + 1..j + 1 + |sub|];
          assert OccursAt(s, sub, j + 1);
        }
      }
      assert (exists i :: 0 <= i && OccursAt(s, sub, i)) ==> r by {
        if exists i :: 0 <= i && OccursAt(s, sub, i) {
          var i :| 0 <= i && OccursAt(s, sub, i);
          assert i != 0;
          assert s[1..][i - 1..i - 1 + |sub|] == s[i..i + |sub|];
          assert OccursAt(s[1..], sub, i - 1);
        }
      }
      r
  }

  /** The text after the last '/' of `s`, or all of `s` when it holds no
      '/': what `s.split('/').pop()` gives. */
  function LastSegment(s: string): (r: string)
    ensures '/' !in r
    ensures |r| <= |s|
  {
    if s == [] then []
    else if s[|s| - 1] == '/' then []
    else LastSegment(s[..|s| - 1]) + [s[|s| - 1]]
  }

  /** The last segment is a suffix of `s`, and when it is shorter than `s`
      it is preceded by a '/'. */
  lemma {:induction false} LastSegmentIsSuffix(s: string)
    ensures var r := LastSegment(s); r == s[|s| - |r|..] && (|r| < |s| ==> s[|s| - |r| - 1] == '/')
    decreases |s|
  {
    if s != [] && s[|s| - 1] != '/' {
      var init := s[..|s| - 1];
      LastSegmentIsSuffix(init);
      var r0 := LastSegment(init);
      assert s[|s| - |r0| - 1..] == init[|init| - |r0|..] + [s[|s| - 1]];
    }
  }

  /** Whatever precedes it, the last segment of `prefix/segment` is
      `segment` when `segment` holds no '/'. */
  lemma {:induction false} LastSegmentAfterSlash(prefix: string, segment: string)
    requires '/' !in segment
    ensures LastSegment(prefix + "/" + segment) == segment
  {
    var s := prefix + "/" + segment;
    LastSegmentIsSuffix(s);
    assert s[|prefix|] == '/';
    assert s[|prefix| + 1..] == segment;
  }
}
