/** Byte lengths of strings: a string is a sequence of characters, stored in UTF-8. */
module Text {

  function Utf8Length(c: char): nat {
    if c < '\U{80}' then 1 else if c < '\U{800}' then 2 else if c < '\U{10000}' then 3 else 4
  }

  /** len(s): the length of the UTF-8 encoding. */
  function ByteLength(s: string): nat {
    if s == "" then 0 else ByteLength(s[..|s| - 1]) + Utf8Length(s[|s| - 1])
  }

  lemma {:induction false} BytesCoverCharacters(s: string)
    ensures ByteLength(s) >= |s|
  {
    if s != "" {
      BytesCoverCharacters(s[..|s| - 1]);
    }
  }

  /** One byte for each ASCII character, and at most four for any. */
  lemma {:induction false} BytesOfAscii(s: string)
    ensures (forall i | 0 <= i < |s| :: s[i] < '\U{80}') ==> ByteLength(s) == |s|
    ensures |s| <= ByteLength(s) <= 4 * |s|
  {
    if s != "" {
      BytesOfAscii(s[..|s| - 1]);
    }
  }

  lemma {:induction false} PrefixIsShorter(p: string, s: string)
    requires p <= s
    ensures ByteLength(p) <= ByteLength(s)
    decreases |s|
  {
    if p == s {
    } else {
      assert p <= s[..|s| - 1];
      PrefixIsShorter(p, s[..|s| - 1]);
    }
  }
}
