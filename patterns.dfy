/**
 * The regular expressions of the validators and of the topology model, written as
 * predicates over characters. Every pattern is anchored with `^...$` and applied
 * with `re.match`, so `$` also accepts one final newline after the matched text.
 */
module Patterns {
  import opened Text

  /** `s` minus one final newline, when it ends with one (where `$` may also match). */
  predicate EndsWithNewline(s: string) { |s| > 0 && s[|s| - 1] == '\n' }

  function Chop(s: string): string
    requires EndsWithNewline(s)
  {
    s[..|s| - 1]
  }

  predicate HasPrefix(s: string, prefix: string) {
    |prefix| <= |s| && s[..|prefix|] == prefix
  }

  // ---------------------------------------------------------------- endpoint port ids

  /**
   * One character of the validators' class `[a-zA-Z0-9.,-_/]`. Inside the class `,-_`
   * is the range U+002C..U+005F, which also holds `:`, `;`, `<`..`@`, `[`, `\`, `]`
   * and `^`.
   */
  predicate IsPortIdChar(c: char) {
    IsLetter(c) || IsDigit(c) || c == '.' || (',' <= c <= '_') || c == '/'
  }

  const PortPrefix: string := "urn:sdx:port:"

  /**
   * `[C]+:[C]+:[C]+` over the text after the prefix; since `:` is itself in the class,
   * this only needs two colons that leave three non-empty segments.
   */
  predicate ThreeSegments(r: string) {
    && (forall k | 0 <= k < |r| :: IsPortIdChar(r[k]))
    && exists i, j | 0 < i < |r| && i + 1 < j < |r| - 1 :: r[i] == ':' && r[j] == ':'
  }

  predicate PortIdBody(s: string) {
    HasPrefix(s, PortPrefix) && ThreeSegments(s[|PortPrefix|..])
  }

  /** `re.match(PORT_ID_PATTERN, s)` of validator.py and sdx_validator.py. */
  predicate PortIdMatch(s: string) {
    PortIdBody(s) || (EndsWithNewline(s) && PortIdBody(Chop(s)))
  }

  // ---------------------------------------------------------------- e-mail and time

  predicate EmailBody(s: string) {
    && (forall k | 0 <= k < |s| :: !IsSpace(s[k]))
    && exists i | 0 < i < |s| - 1 :: s[i] == '@'
  }

  /** `re.match(r"^\S+@\S+$", s)`. */
  predicate EmailMatch(s: string) {
    EmailBody(s) || (EndsWithNewline(s) && EmailBody(Chop(s)))
  }

  predicate DigitsAt(s: string, from: int, to: int)
    requires 0 <= from <= to <= |s|
  {
    forall k | from <= k < to :: IsDigit(s[k])
  }

  /** `\d{4}-\d{2}-\d{2}T\d{2}:\d{2}:\d{2}Z`: twenty characters of fixed shape. */
  predicate IsoZBody(s: string) {
    && |s| == 20
    && DigitsAt(s, 0, 4) && s[4] == '-' && DigitsAt(s, 5, 7) && s[7] == '-'
    && DigitsAt(s, 8, 10) && s[10] == 'T' && DigitsAt(s, 11, 13) && s[13] == ':'
    && DigitsAt(s, 14, 16) && s[16] == ':' && DigitsAt(s, 17, 19) && s[19] == 'Z'
  }

  /** `re.match(r"^\d{4}-\d{2}-\d{2}T\d{2}:\d{2}:\d{2}Z$", s)`. */
  predicate IsoZMatch(s: string) {
    IsoZBody(s) || (EndsWithNewline(s) && IsoZBody(Chop(s)))
  }

  // ---------------------------------------------------------------- topology names and URNs

  /** `\w` (ASCII) or one of `.,-/`. */
  predicate IsNameChar(c: char) {
    IsAlnum(c) || c == '_' || c == '.' || c == ',' || c == '-' || c == '/'
  }

  /** `[\w.,\-/]{1,30}`. */
  predicate NameBody(s: string) {
    1 <= |s| <= 30 && forall k | 0 <= k < |s| :: IsNameChar(s[k])
  }

  /** `NAME_PATTERN.match(s)`. */
  predicate NameMatch(s: string) {
    NameBody(s) || (EndsWithNewline(s) && NameBody(Chop(s)))
  }

  predicate IsDomainChar(c: char) {
    IsAlnum(c) || c == '.' || c == '-'
  }

  /** `[a-zA-Z0-9.-]+\.[a-zA-Z]{2,3}`: the dot before a two- or three-letter suffix. */
  predicate DomainBody(d: string) {
    exists k | 0 < k < |d| ::
      && d[k] == '.' && 2 <= |d| - k - 1 <= 3
      && (forall m | 0 <= m < k :: IsDomainChar(d[m]))
      && (forall m | k < m < |d| :: IsLetter(d[m]))
  }

  const TopologyPrefix: string := "urn:sdx:topology:"
  const NodePrefix: string := "urn:sdx:node:"
  const LinkPrefix: string := "urn:sdx:link:"

  predicate TopologyUrnBody(s: string) {
    HasPrefix(s, TopologyPrefix) && DomainBody(s[|TopologyPrefix|..])
  }

  /** `URN_TOPOLOGY_PATTERN.match(s)`. */
  predicate TopologyUrnMatch(s: string) {
    TopologyUrnBody(s) || (EndsWithNewline(s) && TopologyUrnBody(Chop(s)))
  }

  /** `<domain>:<name>`. */
  predicate DomainAndName(r: string) {
    exists c | 0 < c < |r| :: r[c] == ':' && DomainBody(r[..c]) && NameBody(r[c + 1..])
  }

  predicate NodeUrnBody(s: string) {
    HasPrefix(s, NodePrefix) && DomainAndName(s[|NodePrefix|..])
  }

  /** `URN_NODE_PATTERN.match(s)`. */
  predicate NodeUrnMatch(s: string) {
    NodeUrnBody(s) || (EndsWithNewline(s) && NodeUrnBody(Chop(s)))
  }

  predicate LinkUrnBody(s: string) {
    HasPrefix(s, LinkPrefix) && DomainAndName(s[|LinkPrefix|..])
  }

  /** `URN_LINK_PATTERN.match(s)`. */
  predicate LinkUrnMatch(s: string) {
    LinkUrnBody(s) || (EndsWithNewline(s) && LinkUrnBody(Chop(s)))
  }

  /** `<domain>:<node name>:<port name>`. */
  predicate DomainNodePort(r: string) {
    exists c1, c2 | 0 < c1 < |r| && c1 < c2 < |r| ::
      && r[c1] == ':' && r[c2] == ':'
      && DomainBody(r[..c1]) && NameBody(r[c1 + 1..c2]) && NameBody(r[c2 + 1..])
  }

  predicate PortUrnBody(s: string) {
    HasPrefix(s, PortPrefix) && DomainNodePort(s[|PortPrefix|..])
  }

  /** `URN_PORT_PATTERN.match(s)`. */
  predicate PortUrnMatch(s: string) {
    PortUrnBody(s) || (EndsWithNewline(s) && PortUrnBody(Chop(s)))
  }

  // ---------------------------------------------------------------- relations between patterns

  /**
   * Every port URN the topology model accepts also passes the endpoint validators'
   * port-id pattern: domain and name characters all lie in the validators' class.
   */
  lemma PortUrnPassesPortIdPattern(s: string)
    requires PortUrnMatch(s)
    ensures PortIdMatch(s)
  {
    if PortUrnBody(s) {
      PortUrnBodyPassesPortIdBody(s);
    } else {
      PortUrnBodyPassesPortIdBody(Chop(s));
    }
  }

  lemma PortUrnBodyPassesPortIdBody(s: string)
    requires PortUrnBody(s)
    ensures PortIdBody(s)
  {
    var r := s[|PortPrefix|..];
    var c1, c2 :| 0 < c1 < |r| && c1 < c2 < |r|
      && r[c1] == ':' && r[c2] == ':'
      && DomainBody(r[..c1]) && NameBody(r[c1 + 1..c2]) && NameBody(r[c2 + 1..]);
    PortSegmentsInPortIdClass(r, c1, c2);
    ThreeSegmentsOf(r, c1, c2);
  }

  /** Domain, node and port segments with their two colons are all in the validators' class. */
  lemma PortSegmentsInPortIdClass(r: string, c1: int, c2: int)
    requires 0 < c1 < c2 < |r| && r[c1] == ':' && r[c2] == ':'
    requires DomainBody(r[..c1]) && NameBody(r[c1 + 1..c2]) && NameBody(r[c2 + 1..])
    ensures c1 + 1 < c2 < |r| - 1
    ensures forall m | 0 <= m < |r| :: IsPortIdChar(r[m])
  {
    DomainInPortIdClass(r[..c1]);
    NameInPortIdClass(r[c1 + 1..c2]);
    NameInPortIdClass(r[c2 + 1..]);
    assert r[c2 + 1..] == r[c2 + 1..|r|];
    SliceInPortIdClass(r, 0, c1);
    SliceInPortIdClass(r, c1 + 1, c2);
    SliceInPortIdClass(r, c2 + 1, |r|);
    forall m | 0 <= m < |r| ensures IsPortIdChar(r[m]) {
      if m == c1 || m == c2 {}
    }
  }

  /** Two inner colons leaving non-empty segments, over characters of the class. */
  lemma ThreeSegmentsOf(r: string, c1: int, c2: int)
    requires 0 < c1 && c1 + 1 < c2 < |r| - 1 && r[c1] == ':' && r[c2] == ':'
    requires forall m | 0 <= m < |r| :: IsPortIdChar(r[m])
    ensures ThreeSegments(r)
  {
  }

  /** The characters of a slice are the characters of the text between its bounds. */
  lemma SliceInPortIdClass(r: string, i: int, j: int)
    requires 0 <= i <= j <= |r|
    requires forall m | 0 <= m < j - i :: IsPortIdChar(r[i..j][m])
    ensures forall m | i <= m < j :: IsPortIdChar(r[m])
  {
    forall m | i <= m < j ensures IsPortIdChar(r[m]) {
      assert r[m] == r[i..j][m - i];
    }
  }

  lemma DomainInPortIdClass(d: string)
    requires DomainBody(d)
    ensures forall m | 0 <= m < |d| :: IsPortIdChar(d[m])
  {
    var k :| 0 < k < |d| && d[k] == '.' && 2 <= |d| - k - 1 <= 3
      && (forall m | 0 <= m < k :: IsDomainChar(d[m]))
      && (forall m | k < m < |d| :: IsLetter(d[m]));
  }

  lemma NameInPortIdClass(n: string)
    requires NameBody(n)
    ensures forall m | 0 <= m < |n| :: IsPortIdChar(n[m])
  {
  }

  /** The validators' pattern lets a colon into a segment, so a fourth segment passes. */
  lemma PortIdAllowsColonsInSegments()
    ensures PortIdMatch("urn:sdx:port:a.net:n1:p1:extra")
  {
    var r := "a.net:n1:p1:extra";
    assert r[5] == ':' && r[8] == ':';
  }

  /** Nor does it ask for a dotted domain: single letters between colons pass. */
  lemma PortIdAllowsBareDomain()
    ensures PortIdMatch("urn:sdx:port:a:b:c")
  {
    var r := "a:b:c";
    assert r[1] == ':' && r[3] == ':';
  }
}
