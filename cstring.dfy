/**
 * Bytes and NUL-terminated strings: what `string_set` from a C string, `string_get_cstr`
 * and `strlen` do with a byte buffer.
 */
module CString {
  newtype byte = x: int | 0 <= x < 256

  /** A byte sequence that is a valid C string body: it holds no NUL byte. */
  predicate NoNul(s: seq<byte>) {
    forall i :: 0 <= i < |s| ==> s[i] != 0
  }

  /**
   * The C string stored at the start of `s`: every byte before the first NUL, or all
   * of `s` when it holds none.
   */
  function UpToNul(s: seq<byte>): (r: seq<byte>)
    ensures r <= s
    ensures NoNul(r)
    ensures |r| < |s| ==> s[|r|] == 0
  {
    if s == [] || s[0] == 0 then [] else [s[0]] + UpToNul(s[1..])
  }

  /** The three properties of UpToNul's contract determine its result. */
  lemma {:induction false} UpToNulUnique(s: seq<byte>, n: nat)
    requires n <= |s|
    requires NoNul(s[..n])
    requires n < |s| ==> s[n] == 0
    ensures UpToNul(s) == s[..n]
  {
    if s != [] && s[0] != 0 {
      assert s[1..][..n - 1] == s[1..n];
      UpToNulUnique(s[1..], n - 1);
    }
  }

  /** Padding with NUL bytes after the data does not change the C string read back. */
  lemma {:induction false} UpToNulPadded(s: seq<byte>, pad: seq<byte>)
    requires forall i :: 0 <= i < |pad| ==> pad[i] == 0
    ensures UpToNul(s + pad) == UpToNul(s)
  {
    var r := UpToNul(s);
    var t := s + pad;
    assert t[..|r|] == r;
    if |r| == |s| && |pad| > 0 {
      assert t[|r|] == pad[0];
    }
    UpToNulUnique(t, |r|);
  }

  /** `strlen`: the index of the first NUL byte, or the length when there is none. */
  method StrLen(s: seq<byte>) returns (n: nat)
    ensures n <= |s|
    ensures forall i :: 0 <= i < n ==> s[i] != 0
    ensures n < |s| ==> s[n] == 0
    ensures s[..n] == UpToNul(s)
  {
    n := 0;
    while n < |s| && s[n] != 0
      invariant n <= |s|
      invariant forall i :: 0 <= i < n ==> s[i] != 0
    {
      n := n + 1;
    }
    UpToNulUnique(s, n);
  }

  /** The bytes of a C string as the text the canvas draws. */
  function AsText(b: seq<byte>): string {
    seq(|b|, i requires 0 <= i < |b| => (b[i] as int) as char)
  }
}
