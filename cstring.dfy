/** NUL-terminated C strings as sequences of characters. */
module CString {

  /** The terminator of a C string. */
  const NUL: char := '\0'

  /** `strlen`: the number of characters before the first terminator. */
  function StrLen(s: seq<char>): (n: nat)
    requires NUL in s
    ensures n < |s| && s[n] == NUL
    ensures forall i :: 0 <= i < n ==> s[i] != NUL
  {
    if s[0] == NUL then 0
    else
      assert NUL in s[1..] by {
        var k :| 0 <= k < |s| && s[k] == NUL;
        assert s[1..][k - 1] == NUL;
      }
      1 + StrLen(s[1..])
  }

  /** The position of the first terminator is the only one the two
      properties above allow: `strlen` is determined by them. */
  lemma StrLenUnique(s: seq<char>, n: nat)
    requires n < |s| && s[n] == NUL
    requires forall i :: 0 <= i < n ==> s[i] != NUL
    ensures StrLen(s) == n
  {
  }

  /** What `memcpy(dst, s, strlen(s) + 1)` leaves in a buffer of exactly
      `strlen(s) + 1` characters: the string and its terminator, nothing more. */
  function CopyCString(s: seq<char>): (r: seq<char>)
    requires NUL in s
    ensures NUL in r && StrLen(r) == StrLen(s)
    ensures |r| == StrLen(s) + 1 && r[|r| - 1] == NUL
    ensures forall i :: 0 <= i < |r| ==> r[i] == s[i]
  {
    var n := StrLen(s);
    var r := s[..n + 1];
    StrLenUnique(r, n);
    r
  }
}
