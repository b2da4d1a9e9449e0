/** The fixed-buffer padding helper (src/StringUtils.cpp, include/StringUtils.h):
    it fills the shared 21-character buffer in place. */
module StringUtils {
  import opened Basics

  /** 20 characters and the terminating NUL. */
  const BUFFER_SIZE: nat := 21
  const NUL: char := '\0'

  /** The characters of a C string before its first NUL. */
  function CString(s: seq<char>): (r: seq<char>)
    ensures |r| <= |s| && r == s[..|r|]
    ensures forall i :: 0 <= i < |r| ==> r[i] != NUL
    ensures |r| < |s| ==> s[|r|] == NUL
  {
    if s == [] || s[0] == NUL then [] else [s[0]] + CString(s[1..])
  }

  /** padStringToGlobalBuffer(str, length), with the global buffer passed in.
      `str` is the text before its terminator; length 0..20 keeps every write
      inside the buffer. */
  method PadStringToGlobalBuffer(globalStringBuffer: array<char>, str: string, length: int)
    requires globalStringBuffer.Length == BUFFER_SIZE && 0 <= length < BUFFER_SIZE
    requires forall i :: 0 <= i < |str| ==> str[i] != NUL
    modifies globalStringBuffer
    ensures globalStringBuffer[..length] == Padded(str, length)
    ensures globalStringBuffer[length] == NUL
    ensures globalStringBuffer[length + 1..] == old(globalStringBuffer[length + 1..])
  {
    var strLen := |str|;
    var copyLen := Min(strLen, length);
    // strncpy(globalStringBuffer, str, copyLen)
    var i := 0;
    while i < copyLen
      invariant 0 <= i <= copyLen
      invariant forall j :: 0 <= j < i ==> globalStringBuffer[j] == str[j]
      invariant forall j :: length < j < BUFFER_SIZE ==> globalStringBuffer[j] == old(globalStringBuffer[j])
    {
      globalStringBuffer[i] := str[i];
      i := i + 1;
    }
    i := copyLen;
    while i < length
      invariant copyLen <= i <= length
      invariant forall j :: 0 <= j < copyLen ==> globalStringBuffer[j] == str[j]
      invariant forall j :: copyLen <= j < i ==> globalStringBuffer[j] == ' '
      invariant forall j :: length < j < BUFFER_SIZE ==> globalStringBuffer[j] == old(globalStringBuffer[j])
    {
      globalStringBuffer[i] := ' ';
      i := i + 1;
    }
    globalStringBuffer[length] := NUL;
  }

  /** For a string without NUL, the buffer then holds a C string of exactly
      `length` characters: the padded text. */
  lemma {:induction false} PaddedCString(buffer: seq<char>, str: string, length: nat)
    requires length < |buffer| && buffer[..length] == Padded(str, length) && buffer[length] == NUL
    requires forall i :: 0 <= i < |str| ==> str[i] != NUL
    ensures CString(buffer) == Padded(str, length)
  {
    if length > 0 {
      assert buffer[0] != NUL by { assert buffer[0] == Padded(str, length)[0]; }
      var rest := if |str| > 0 then str[1..] else str;
      PaddedTail(str, length);
      assert buffer[1..][..length - 1] == buffer[..length][1..];
      assert buffer[..length][1..] == Padded(rest, length - 1);
      PaddedCString(buffer[1..], rest, length - 1);
    }
  }

  lemma PaddedTail(str: string, n: nat)
    requires n > 0
    ensures Padded(str, n) == [Padded(str, n)[0]] + Padded(if |str| > 0 then str[1..] else str, n - 1)
  {
    var rest := if |str| > 0 then str[1..] else str;
    assert Padded(str, n)[1..] == Padded(rest, n - 1);
  }

  /** A string of exactly `length` characters is copied unchanged. */
  lemma ExactLengthIsKept(str: string, length: nat)
    requires |str| == length
    ensures Padded(str, length) == str
  {
  }
}
