/** JavaScript strings as sequences of UTF-16 code units, with the few library operations the models need. */
module Text {
  type CodeUnit = nat
  type Text = seq<CodeUnit>

  /** White space and line terminators of ECMAScript (sections 12.2 and 12.3 of ECMA-262). */
  predicate IsSpace(c: CodeUnit) {
    0x9 <= c <= 0xd || c == 0x20 || c == 0xa0 || c == 0x1680 || 0x2000 <= c <= 0x200a
    || c == 0x2028 || c == 0x2029 || c == 0x202f || c == 0x205f || c == 0x3000 || c == 0xfeff
  }

  function TrimStart(s: Text): (r: Text)
    ensures r != [] ==> !IsSpace(r[0])
    ensures |r| <= |s| && r == s[|s| - |r|..]
  {
    if s != [] && IsSpace(s[0]) then TrimStart(s[1..]) else s
  }

  function TrimEnd(s: Text): (r: Text)
    ensures r != [] ==> !IsSpace(r[|r| - 1])
    ensures r <= s
  {
    if s != [] && IsSpace(s[|s| - 1]) then TrimEnd(s[..|s| - 1]) else s
  }

  function Trim(s: Text): Text {
    TrimEnd(TrimStart(s))
  }

  /** Trimming leaves nothing to trim, and only takes characters away at the ends. */
  lemma TrimTwiceIsOnce(s: Text)
    ensures Trim(Trim(s)) == Trim(s)
    ensures forall c :: c in Trim(s) ==> c in s
  {
    var t := Trim(s);
    if t != [] {
      assert t[0] == TrimStart(s)[0];
    }
    assert forall c :: c in t ==> c in TrimStart(s);
  }

  predicate IsHex(c: CodeUnit) {
    '0' as int <= c <= '9' as int || 'a' as int <= c <= 'f' as int || 'A' as int <= c <= 'F' as int
  }

  predicate IsUuid(s: Text) {
    |s| == 36 && forall i :: 0 <= i < 36 ==>
                   if i == 8 || i == 13 || i == 18 || i == 23 then s[i] == '-' as int else IsHex(s[i])
  }
}
