/** The pieces of the C library the binding relies on to build a value buffer:
    C strings, `memset` and `snprintf`. */
module CLib {
  import opened Lua

  /** `n` zero bytes. */
  function Zeros(n: nat): (z: Bytes)
    ensures |z| == n
    ensures forall i :: 0 <= i < n ==> z[i] == 0
  {
    seq(n, _ => 0)
  }

  predicate NulFree(s: Bytes)
  {
    forall i :: 0 <= i < |s| ==> s[i] != 0
  }

  /** What C code reading `s` through a `char *` sees: the bytes before the first NUL. */
  function CString(s: Bytes): (c: Bytes)
    ensures c <= s && NulFree(c)
    ensures |c| < |s| ==> s[|c|] == 0
    decreases |s|
  {
    if s == [] || s[0] == 0 then [] else [s[0]] + CString(s[1..])
  }

  /** How many characters of `text` fit into a buffer of `size` bytes beside the terminating NUL. */
  function Kept(size: nat, text: Bytes): nat
    requires size >= 1
  {
    if |text| < size then |text| else size - 1
  }

  /** A buffer of `size` bytes, cleared by `memset` and then filled by `snprintf` with `text`. */
  function Written(size: nat, text: Bytes): (b: Bytes)
    requires size >= 1
    ensures |b| == size && b[size - 1] == 0
    ensures |text| < size ==> b[..|text|] == text && forall i :: |text| <= i < size ==> b[i] == 0
    ensures |text| >= size ==> b == text[..size - 1] + [0]
  {
    var m := Kept(size, text);
    assert m < size;
    text[..m] + Zeros(size - m)
  }

  /** `memset(buf, 0, buf.Length)`. */
  method Memset(buf: array<byte>)
    modifies buf
    ensures buf[..] == Zeros(buf.Length)
  {
    var i := 0;
    while i < buf.Length
      invariant 0 <= i <= buf.Length
      invariant forall j :: 0 <= j < i ==> buf[j] == 0
    {
      buf[i] := 0;
      i := i + 1;
    }
  }

  /** `snprintf(buf, buf.Length, ...)` whose formatted output is `text`: it writes at most
      `buf.Length - 1` characters and a NUL after them, leaves the rest of the buffer alone,
      and returns the length the full output would have had. */
  method Snprintf(buf: array<byte>, text: Bytes) returns (len: nat)
    modifies buf
    ensures len == |text|
    ensures buf.Length == 0 ==> buf[..] == old(buf[..])
    ensures buf.Length >= 1 ==>
      var m := Kept(buf.Length, text);
      buf[..] == text[..m] + [0] + old(buf[..])[m + 1..]
  {
    len := |text|;
    if buf.Length == 0 {
      return;
    }
    var m := Kept(buf.Length, text);
    var i := 0;
    while i < m
      invariant 0 <= i <= m
      invariant forall j :: 0 <= j < i ==> buf[j] == text[j]
      invariant forall j :: i <= j < buf.Length ==> buf[j] == old(buf[j])
    {
      buf[i] := text[i];
      i := i + 1;
    }
    buf[m] := 0;
    assert buf[..] == text[..m] + [0] + old(buf[..])[m + 1..];
  }

  /** Writing into a cleared buffer leaves exactly `Written`. */
  lemma PrintIntoZeros(size: nat, text: Bytes, before: Bytes, after: Bytes)
    requires size >= 1 && |before| == size && before == Zeros(size)
    requires after == text[..Kept(size, text)] + [0] + before[Kept(size, text) + 1..]
    ensures after == Written(size, text)
  {
    var m := Kept(size, text);
    assert [0] + before[m + 1..] == Zeros(size - m);
  }
}
