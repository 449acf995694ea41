/**
 * The C string conventions the game relies on: `snprintf(dst, n, "%s", src)`
 * truncation, NUL-terminated buffers, and `%d` formatting of a count.
 */
module CStrings {
  import opened Wrappers

  const Nul: char := '\0'

  /** The contents of a C string never hold its terminator. */
  predicate NoNul(s: string)
  {
    forall i :: 0 <= i < |s| ==> s[i] != Nul
  }

  /**
   * What `snprintf(dst, size, "%s", s)` leaves in `dst` as a C string: at most
   * `size - 1` characters of `s`, from the front.
   */
  function Truncated(s: string, size: nat): (r: string)
    requires size >= 1
    ensures |r| == Min(|s|, size - 1) && r == s[..|r|]
    ensures |s| < size ==> r == s
  {
    if |s| < size then s else s[..size - 1]
  }

  /** The C string held by a buffer: everything before the first NUL. */
  function CString(buf: seq<char>): (r: string)
    ensures |r| <= |buf| && r == buf[..|r|] && NoNul(r)
    ensures |r| < |buf| ==> buf[|r|] == Nul
  {
    if buf == [] || buf[0] == Nul then []
    else
      var rest := CString(buf[1..]);
      assert buf[1..][..|rest|] == buf[1..|rest| + 1];
      [buf[0]] + rest
  }

  /** Reading a buffer up to the first NUL: position `i` of the string is position `i` of the buffer, and the string goes on exactly while the buffer holds no NUL. */
  lemma CStringAt(buf: seq<char>, i: nat)
    requires i <= |CString(buf)|
    ensures i < |CString(buf)| <==> i < |buf| && buf[i] != Nul
    ensures i < |CString(buf)| ==> CString(buf)[i] == buf[i]
  {
    var r := CString(buf);
    if i < |r| {
      assert r[i] == buf[..|r|][i];
    }
  }

  /** A buffer whose first `n` characters hold no NUL and whose next one is NUL holds the C string of those `n`. */
  lemma {:induction false} CStringOf(buf: seq<char>, n: nat)
    requires n < |buf| && NoNul(buf[..n]) && buf[n] == Nul
    ensures CString(buf) == buf[..n]
    decreases n
  {
    if n > 0 {
      assert buf[0] == buf[..n][0];
      var rest := buf[1..];
      var r := rest[..n - 1];
      assert r == buf[1..n];
      forall i | 0 <= i < |r| ensures r[i] != Nul {
        assert r[i] == buf[..n][i + 1];
      }
      CStringOf(rest, n - 1);
      assert buf[..n] == [buf[0]] + r;
    }
  }

  function Digit(d: nat): char
    requires d < 10
  {
    "0123456789"[d]
  }

  /** `%d` of a non-negative count. */
  function Decimal(n: nat): (r: string)
    ensures |r| >= 1 && NoNul(r)
  {
    if n < 10 then [Digit(n)] else Decimal(n / 10) + [Digit(n % 10)]
  }
}
