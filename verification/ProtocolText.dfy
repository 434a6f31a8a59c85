/** Text rules shared by the protocol validators (crates/protocol/src/types.rs:563-579). */
module ProtocolText {

  /** Bytes of one scalar value in UTF-8; Rust's `str::len` counts bytes. */
  function Utf8Width(c: char): nat {
    if c as int < 0x80 then 1 else if c as int < 0x800 then 2 else if c as int < 0x1_0000 then 3 else 4
  }

  function Utf8Len(s: string): nat {
    if s == "" then 0 else Utf8Width(s[0]) + Utf8Len(s[1..])
  }

  /** No byte below 0x20 and no 0x7f; multi-byte sequences only use bytes from 0x80 up. */
  predicate Printable(s: string) {
    forall i :: 0 <= i < |s| ==> 0x20 <= s[i] as int && s[i] as int != 0x7f
  }

  predicate ValidScope(s: string) {
    Utf8Len(s) <= 256 && Printable(s)
  }

  predicate ValidTextId(s: string, maximum: nat) {
    s != "" && Utf8Len(s) <= maximum && Printable(s)
  }

  /** Unicode White_Space, as `str::trim` uses it. */
  predicate IsWhitespace(c: char) {
    var n := c as int;
    || 0x09 <= n <= 0x0d || n == 0x20 || n == 0x85 || n == 0xa0 || n == 0x1680 || 0x2000 <= n <= 0x200a
    || n == 0x2028 || n == 0x2029 || n == 0x202f || n == 0x205f || n == 0x3000
  }

  function TrimStart(s: string): string {
    if s != "" && IsWhitespace(s[0]) then TrimStart(s[1..]) else s
  }

  function TrimEnd(s: string): string {
    if s != "" && IsWhitespace(s[|s| - 1]) then TrimEnd(s[..|s| - 1]) else s
  }

  function Trim(s: string): string {
    TrimEnd(TrimStart(s))
  }

  const DEDICATED_PREFIX := "agent-remote:"

  predicate SessionByte(c: char) {
    'a' <= c <= 'z' || 'A' <= c <= 'Z' || '0' <= c <= '9' || c == '-' || c == '_' || c == ':'
  }

  /** The canonical per-tool-session Task Space name. */
  predicate IsDedicatedTaskSpace(s: string) {
    && DEDICATED_PREFIX < s
    && Utf8Len(s) <= 256
    && forall i :: |DEDICATED_PREFIX| <= i < |s| ==> SessionByte(s[i])
  }

  /** A dedicated name survives trimming, is printable and holds no wildcard. */
  lemma DedicatedIsPlain(s: string)
    requires IsDedicatedTaskSpace(s)
    ensures Trim(s) == s && s != "" && ValidScope(s) && '*' !in s
  {
    assert s[..|DEDICATED_PREFIX|] == DEDICATED_PREFIX;
    forall i | 0 <= i < |s| ensures 0x20 < s[i] as int < 0x7f && s[i] != '*' {
      if i < |DEDICATED_PREFIX| { assert s[i] == DEDICATED_PREFIX[i]; }
    }
  }

  predicate AllWhitespace(s: string) {
    forall i :: 0 <= i < |s| ==> IsWhitespace(s[i])
  }

  /** Trimming takes off exactly the white space around what begins and ends with something else. */
  lemma TrimTakesOff(before: string, text: string, after: string)
    requires AllWhitespace(before) && AllWhitespace(after)
    requires text != "" && !IsWhitespace(text[0]) && !IsWhitespace(text[|text| - 1])
    ensures Trim(before + text + after) == text
  {
    TrimStartTakesOff(before, text + after);
    assert before + text + after == before + (text + after);
    TrimEndTakesOff(text, after);
  }

  lemma {:induction false} TrimStartTakesOff(before: string, rest: string)
    requires AllWhitespace(before) && rest != "" && !IsWhitespace(rest[0])
    ensures TrimStart(before + rest) == rest
  {
    if before == "" {
      assert before + rest == rest;
    } else {
      assert (before + rest)[1..] == before[1..] + rest;
      TrimStartTakesOff(before[1..], rest);
    }
  }

  lemma {:induction false} TrimEndTakesOff(text: string, after: string)
    requires AllWhitespace(after) && text != "" && !IsWhitespace(text[|text| - 1])
    ensures TrimEnd(text + after) == text
  {
    if after == "" {
      assert text + after == text;
    } else {
      var all := text + after;
      assert all[|all| - 1] == after[|after| - 1] && all[..|all| - 1] == text + after[..|after| - 1];
      TrimEndTakesOff(text, after[..|after| - 1]);
    }
  }

  lemma {:induction false} Utf8OfAscii(text: string)
    requires forall i :: 0 <= i < |text| ==> text[i] as int < 0x80
    ensures Utf8Len(text) == |text|
  {
    if text != "" { Utf8OfAscii(text[1..]); }
  }

  /** Letters, digits, hyphen, underscore and colon, by code point. */
  predicate SessionCode(n: nat) {
    0x61 <= n < 0x7b || 0x41 <= n < 0x5b || 0x30 <= n < 0x3a || n in {0x2d, 0x5f, 0x3a}
  }

  /** A dedicated name is the prefix and one to 243 such characters, so its length is also its length in bytes. */
  lemma DedicatedExactlyWhen(s: string)
    ensures IsDedicatedTaskSpace(s) <==>
      && 14 <= |s| <= 256 && s[..13] == "agent-remote:"
      && forall i :: 13 <= i < |s| ==> SessionCode(s[i] as int)
  {
    var prefix := DEDICATED_PREFIX;
    if |s| >= 13 && s[..13] == prefix && forall i :: 13 <= i < |s| ==> SessionByte(s[i]) {
      forall i | 0 <= i < |s| ensures s[i] as int < 0x80 {
        if i < 13 { assert s[i] == prefix[i]; }
      }
      Utf8OfAscii(s);
    }
  }

  /** The width of a scalar value by the number of bits it takes. */
  lemma WidthExactlyWhen(c: char)
    ensures 1 <= Utf8Width(c) <= 4
    ensures Utf8Width(c) >= 2 <==> c as int / 0x80 > 0
    ensures Utf8Width(c) >= 3 <==> c as int / 0x800 > 0
    ensures Utf8Width(c) == 4 <==> c as int / 0x1_0000 > 0
  {}
}
