/**
 * A model of the C string conventions the path code relies on: a string is
 * the run of characters of a buffer up to its first NUL, and the library
 * routines strlen, memcpy and strcat read and write buffers by index.
 */
module CStrings {

  /** The terminator character '\0'. */
  const NUL: char := 0 as char

  /** A character sequence that strlen would read in full: it holds no NUL. */
  predicate NoNul(s: seq<char>) {
    forall i :: 0 <= i < |s| ==> s[i] != NUL
  }

  /** A buffer that holds a C string: somewhere in it there is a terminator. */
  predicate Terminated(buf: seq<char>) {
    NUL in buf
  }

  /**
   * The C string stored in `buf`: every character before the first NUL.
   */
  function CString(buf: seq<char>): (s: seq<char>)
    requires Terminated(buf)
    ensures |s| < |buf|
    ensures s == buf[..|s|]
    ensures buf[|s|] == NUL
    ensures NoNul(s)
  {
    if buf[0] == NUL then [] else [buf[0]] + CString(buf[1..])
  }

  /**
   * The C string of a buffer is fixed by any non-NUL prefix followed by a
   * NUL; whatever lies after that terminator is never read.
   */
  lemma {:induction false} CStringOfTerminatedPrefix(s: seq<char>, rest: seq<char>)
    requires NoNul(s)
    ensures Terminated(s + [NUL] + rest)
    ensures CString(s + [NUL] + rest) == s
  {
    var buf := s + [NUL] + rest;
    assert buf[|s|] == NUL;
    if s == [] {
    } else {
      assert buf[1..] == s[1..] + [NUL] + rest;
      CStringOfTerminatedPrefix(s[1..], rest);
    }
  }

  /**
   * strlen: scans from the start of the buffer until it meets a NUL and
   * returns how many characters it passed.
   */
  method Strlen(buf: seq<char>) returns (n: nat)
    requires Terminated(buf)
    ensures n < |buf| && buf[n] == NUL
    ensures NoNul(buf[..n])
    ensures n == |CString(buf)|
  {
    n := 0;
    while buf[n] != NUL
      invariant n < |buf|
      invariant NoNul(buf[..n])
      invariant NUL in buf[n..]
      decreases |buf| - n
    {
      assert buf[n..] == [buf[n]] + buf[n + 1..];
      n := n + 1;
    }
    CStringOfTerminatedPrefix(buf[..n], buf[n + 1..]);
    assert buf == buf[..n] + [NUL] + buf[n + 1..];
  }

  /** `buf` with the characters of `t` written over it from index `at` on. */
  ghost function Overwrite(buf: seq<char>, at: nat, t: seq<char>): seq<char>
    requires at + |t| <= |buf|
  {
    buf[..at] + t + buf[at + |t|..]
  }

  /** Writing one more character extends an overwrite by one array update. */
  lemma OverwriteStep(buf: seq<char>, at: nat, t: seq<char>, c: char)
    requires at + |t| < |buf|
    ensures Overwrite(buf, at, t + [c]) == Overwrite(buf, at, t)[at + |t| := c]
  {
  }

  /**
   * The byte loop shared by memcpy and strcat: writes the characters of `t`
   * into `dest` one by one from index `at` on.
   */
  method CopyInto(dest: array<char>, at: nat, t: seq<char>)
    requires at + |t| <= dest.Length
    modifies dest
    ensures dest[..] == Overwrite(old(dest[..]), at, t)
  {
    ghost var before := dest[..];
    var i := 0;
    while i < |t|
      invariant i <= |t|
      invariant dest[..] == Overwrite(before, at, t[..i])
    {
      OverwriteStep(before, at, t[..i], t[i]);
      assert t[..i + 1] == t[..i] + [t[i]];
      dest[at + i] := t[i];
      i := i + 1;
    }
    assert t[..|t|] == t;
  }

  /**
   * memcpy(dest, src, count): the first `count` cells of `dest` take the
   * first `count` characters of `src`; the rest of `dest` is untouched.
   */
  method Memcpy(dest: array<char>, src: seq<char>, count: nat)
    requires count <= dest.Length && count <= |src|
    modifies dest
    ensures dest[..] == src[..count] + old(dest[count..])
  {
    ghost var before := dest[..];
    CopyInto(dest, 0, src[..count]);
    assert before[..0] + src[..count] == src[..count];
  }

  /**
   * strcat(dest, s): finds the terminator of the string in `dest` and writes
   * the characters of `s` and a new terminator from there on. C leaves the
   * behaviour undefined unless the buffer has room for all of them, which is
   * what the third precondition asks.
   */
  method Strcat(dest: array<char>, s: seq<char>) returns (at: nat)
    requires Terminated(dest[..])
    requires NoNul(s)
    requires |CString(dest[..])| + |s| + 1 <= dest.Length
    modifies dest
    ensures at == |CString(old(dest[..]))|
    ensures dest[..] == old(dest[..at]) + s + [NUL] + old(dest[at + |s| + 1..])
    ensures CString(dest[..]) == old(CString(dest[..])) + s
  {
    at := Strlen(dest[..]);
    ghost var before := dest[..];
    CopyInto(dest, at, s + [NUL]);
    assert before[..at] + (s + [NUL]) == before[..at] + s + [NUL];
    assert NoNul(before[..at] + s) by {
      assert NoNul(before[..at]);
    }
    CStringOfTerminatedPrefix(before[..at] + s, before[at + |s| + 1..]);
  }
}
