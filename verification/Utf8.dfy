/** UTF-8 well-formedness (section 4 of RFC 3629) and the cut of guidance/internal/service.go `truncateUTF8Bytes`. */
module Utf8 {

  type Byte = b: int | 0 <= b < 256

  predicate Tail(b: Byte) {
    0x80 <= b <= 0xBF
  }

  /** Length of the well-formed sequence at the head of the bytes, or 0. */
  function HeadLength(s: seq<Byte>): (n: nat)
    ensures n <= 4 && n <= |s|
  {
    if |s| >= 1 && s[0] <= 0x7F then 1
    else if |s| >= 2 && 0xC2 <= s[0] <= 0xDF && Tail(s[1]) then 2
    else if |s| >= 3 && Three(s[0], s[1]) && Tail(s[2]) then 3
    else if |s| >= 4 && Four(s[0], s[1]) && Tail(s[2]) && Tail(s[3]) then 4
    else 0
  }

  /** First two bytes of a three-byte sequence. */
  predicate Three(a: Byte, b: Byte) {
    || (a == 0xE0 && 0xA0 <= b <= 0xBF)
    || (0xE1 <= a <= 0xEC && Tail(b))
    || (a == 0xED && 0x80 <= b <= 0x9F)
    || (0xEE <= a <= 0xEF && Tail(b))
  }

  /** First two bytes of a four-byte sequence. */
  predicate Four(a: Byte, b: Byte) {
    || (a == 0xF0 && 0x90 <= b <= 0xBF)
    || (0xF1 <= a <= 0xF3 && Tail(b))
    || (a == 0xF4 && 0x80 <= b <= 0x8F)
  }

  predicate Valid(s: seq<Byte>)
    decreases |s|
  {
    s == [] || (HeadLength(s) > 0 && Valid(s[HeadLength(s)..]))
  }

  /** A well-formed head stays well-formed when what follows it changes. */
  lemma HeadStays(s: seq<Byte>, t: seq<Byte>)
    requires HeadLength(s) > 0 && |t| >= HeadLength(s) && t[..HeadLength(s)] == s[..HeadLength(s)]
    ensures HeadLength(t) == HeadLength(s)
  {
    var n := HeadLength(s);
    assert forall i :: 0 <= i < n ==> t[i] == t[..n][i] == s[..n][i] == s[i];
  }

  /** Every window of four bytes of a well-formed text holds a boundary. */
  lemma {:induction false} BoundaryNear(s: seq<Byte>, n: nat) returns (e: nat)
    requires Valid(s) && n <= |s|
    ensures n < e + 4 && e <= n && Valid(s[..e])
    decreases |s|
  {
    var k := HeadLength(s);
    if n == 0 || n < k {
      e := 0;
    } else {
      var f := BoundaryNear(s[k..], n - k);
      e := k + f;
      HeadStays(s, s[..e]);
      assert s[..e][k..] == s[k..][..f];
    }
  }

  /** The longest well-formed prefix within the limit. */
  ghost predicate IsCut(value: seq<Byte>, limit: int, cut: seq<Byte>) {
    && cut <= value && |cut| <= (if limit < 0 then 0 else limit) && Valid(cut)
    && forall e :: |cut| < e <= limit && e <= |value| ==> !Valid(value[..e])
  }

  /** `truncateUTF8Bytes`: shorten until the prefix is well-formed. */
  method TruncateBytes(value: seq<Byte>, limit: int) returns (cut: seq<Byte>)
    ensures cut <= value
    ensures limit <= 0 ==> cut == []
    ensures 0 < limit && |value| <= limit ==> cut == value
    ensures 0 < limit < |value| ==> IsCut(value, limit, cut)
    ensures 0 < limit < |value| && Valid(value) ==> limit < |cut| + 4
  {
    if limit <= 0 { return []; }
    if |value| <= limit { return value; }
    var end := limit;
    while end > 0 && !Valid(value[..end])
      invariant 0 <= end <= limit
      invariant forall e :: end < e <= limit ==> !Valid(value[..e])
    {
      end := end - 1;
    }
    if Valid(value) { var e := BoundaryNear(value, limit); }
    return value[..end];
  }
}
