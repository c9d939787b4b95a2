/** White space as Go's strings.TrimSpace sees it. */
module Text {
  /** The Unicode property White_Space. */
  predicate IsSpace(c: char) {
    c in " \t\n\r\U{000B}\U{000C}\U{0085}\U{00A0}\U{1680}\U{2028}\U{2029}\U{202F}\U{205F}\U{3000}"
    || '\U{2000}' <= c <= '\U{200A}'
  }

  /** Trimming white space from both ends leaves nothing. */
  predicate IsBlank(s: string) { forall i | 0 <= i < |s| :: IsSpace(s[i]) }

  /** The white space by code point. */
  predicate SpacePoint(c: int) {
    0x09 <= c <= 0x0D || c == 0x20 || c == 0x85 || c == 0xA0 || c == 0x1680 || 0x2000 <= c <= 0x200A || 0x2028 <= c <= 0x2029
    || c == 0x202F || c == 0x205F || c == 0x3000
  }

  /** A string is blank iff each of its characters is one of the 25 with the property White_Space. */
  lemma BlankExactly(s: string)
    ensures IsBlank(s) <==> forall c | c in s :: SpacePoint(c as int)
  {
    hide IsSpace;
    forall c: char ensures IsSpace(c) <==> SpacePoint(c as int) { SpaceIs(c); }
    hide SpacePoint;
    if forall c | c in s :: SpacePoint(c as int) {
      forall i | 0 <= i < |s| ensures IsSpace(s[i]) { assert s[i] in s; }
    }
  }

  lemma SpaceIs(c: char)
    ensures IsSpace(c) <==> SpacePoint(c as int)
  {
  }
}
