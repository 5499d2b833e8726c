/** Big-endian numbers of a class file. */
module Bytes {

  type Byte = b: int | 0 <= b < 256

  function U16(s: seq<Byte>): nat
    requires |s| == 2
  {
    var high: int := s[0];
    high * 256 + s[1]
  }

  function S16(s: seq<Byte>): int
    requires |s| == 2
  {
    if s[0] >= 128 then U16(s) - 65536 else U16(s)
  }

  function U32(s: seq<Byte>): nat
    requires |s| == 4
  {
    U16(s[..2]) * 65536 + U16(s[2..])
  }

  function S32(s: seq<Byte>): int
    requires |s| == 4
  {
    if s[0] >= 128 then U32(s) - 0x1_0000_0000 else U32(s)
  }

  predicate IsU16(n: int) { 0 <= n < 0x1_0000 }
  predicate IsS16(n: int) { -0x8000 <= n < 0x8000 }
  predicate IsU32(n: int) { 0 <= n < 0x1_0000_0000 }
  predicate IsS32(n: int) { -0x8000_0000 <= n < 0x8000_0000 }

  function Put16(n: int): (s: seq<Byte>)
    requires IsU16(n) || IsS16(n)
    ensures |s| == 2
  {
    var u := if n < 0 then n + 0x1_0000 else n;
    [u / 256, u % 256]
  }

  function Put32(n: int): (s: seq<Byte>)
    requires IsU32(n) || IsS32(n)
    ensures |s| == 4
  {
    var u := if n < 0 then n + 0x1_0000_0000 else n;
    Put16(u / 65536) + Put16(u % 65536)
  }

  lemma Put16ReadsBack(n: int)
    requires IsU16(n) || IsS16(n)
    ensures IsU16(n) ==> U16(Put16(n)) == n
    ensures IsS16(n) ==> S16(Put16(n)) == n
  {}

  lemma Put32ReadsBack(n: int)
    requires IsU32(n) || IsS32(n)
    ensures IsU32(n) ==> U32(Put32(n)) == n
    ensures IsS32(n) ==> S32(Put32(n)) == n
  {
    var u := if n < 0 then n + 0x1_0000_0000 else n;
    Put16ReadsBack(u / 65536);
    Put16ReadsBack(u % 65536);
    assert U32(Put32(n)) == U16(Put16(u / 65536)) * 65536 + U16(Put16(u % 65536)) == u;
    assert Put32(n)[0] == u / 65536 / 256;
  }
}
