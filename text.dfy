/** The three string operations of JavaScript that the board relies on:
    `toLowerCase` (ASCII letters only), `includes` (substring search) and
    `trim` (JavaScript's white-space and line-terminator set). */
module Text {

  /** `toLowerCase` on one character: ASCII upper-case letters only. */
  function LowerChar(c: char): (r: char)
    ensures 'A' <= c <= 'Z' ==> 'a' <= r <= 'z'
    ensures !('A' <= c <= 'Z') ==> r == c
  {
    if 'A' <= c <= 'Z' then (c as int + 32) as char else c
  }

  function Lower(s: string): (r: string)
    ensures |r| == |s|
    ensures forall i :: 0 <= i < |s| ==> !('A' <= r[i] <= 'Z')
    ensures forall i :: 0 <= i < |s| && 'A' <= s[i] <= 'Z' ==> r[i] as int == s[i] as int + 32
    ensures forall i :: 0 <= i < |s| && !('A' <= s[i] <= 'Z') ==> r[i] == s[i]
  {
    seq(|s|, i requires 0 <= i < |s| => LowerChar(s[i]))
  }

  /** Lower-casing twice is lower-casing once. */
  lemma LowerIdempotent(s: string)
    ensures Lower(Lower(s)) == Lower(s)
  {
    forall i | 0 <= i < |s|
      ensures Lower(Lower(s))[i] == Lower(s)[i]
    {
      assert Lower(s)[i] == LowerChar(s[i]);
    }
  }

  /** `sub` occurs in `s` starting at index `i`. */
  predicate OccursAt(s: string, sub: string, i: nat) {
    i + |sub| <= |s| && s[i..i + |sub|] == sub
  }

  /** `String.prototype.includes`: some occurrence of `sub` in `s`. */
  function Includes(s: string, sub: string): (r: bool)
    ensures r <==> exists i: nat :: i <= |s| && OccursAt(s, sub, i)
    decreases |s|
  {
    if |sub| <= |s| && s[..|sub|] == sub then
      assert OccursAt(s, sub, 0);
      true
    else if s == [] then
      false
    else
      var rest := Includes(s[1..], sub);
      assert !OccursAt(s, sub, 0);
      forall i: nat | 1 <= i <= |s|
        ensures OccursAt(s, sub, i) <==> OccursAt(s[1..], sub, i - 1)
      {
        if i + |sub| <= |s| {
          assert s[1..][i - 1..i - 1 + |sub|] == s[i..i + |sub|];
        }
      }
      assert rest ==> exists i: nat :: i <= |s| && OccursAt(s, sub, i) by {
        if rest {
          var j: nat :| j <= |s| - 1 && OccursAt(s[1..], sub, j);
          assert OccursAt(s, sub, j + 1);
        }
      }
      rest
  }

  /** The search test used throughout the board: `text.toLowerCase().includes(query.toLowerCase())`. */
  predicate Matches(text: string, query: string)
    ensures query == "" ==> Matches(text, query)
    ensures Matches(text, query) ==> |query| <= |text|
  {
    assert OccursAt(Lower(text), Lower(""), 0);
    Includes(Lower(text), Lower(query))
  }

  /** The empty query matches every text, and matching ignores the case of the query. */
  lemma MatchesCaseInsensitive(text: string, query: string)
    ensures Matches(text, "")
    ensures Matches(text, query) <==> Matches(text, Lower(query))
    ensures Matches(text, query) <==> Matches(Lower(text), query)
  {
    assert OccursAt(Lower(text), Lower(""), 0);
    LowerIdempotent(text);
    LowerIdempotent(query);
  }

  /** The empty query matches every text. */
  lemma EmptyQueryMatchesAll()
    ensures forall text :: Matches(text, "")
  {
    forall text ensures Matches(text, "") {
      MatchesCaseInsensitive(text, "");
    }
  }

  /** JavaScript's WhiteSpace and LineTerminator characters, which `trim` strips. */
  predicate IsWhitespace(c: char) {
    || c == ' ' || c == '\t' || c == '\n' || c == '\r' || c == '\U{B}' || c == '\U{C}'
    || c == '\U{A0}' || c == '\U{1680}' || ('\U{2000}' <= c <= '\U{200A}')
    || c == '\U{2028}' || c == '\U{2029}' || c == '\U{202F}' || c == '\U{205F}'
    || c == '\U{3000}' || c == '\U{FEFF}'
  }

  function TrimStart(s: string): (r: string)
    ensures |r| <= |s| && r == s[|s| - |r|..]
    ensures r == [] || !IsWhitespace(r[0])
    ensures forall i :: 0 <= i < |s| - |r| ==> IsWhitespace(s[i])
  {
    if |s| > 0 && IsWhitespace(s[0]) then TrimStart(s[1..]) else s
  }

  function TrimEnd(s: string): (r: string)
    ensures |r| <= |s| && r == s[..|r|]
    ensures r == [] || !IsWhitespace(r[|r| - 1])
    ensures forall i :: |r| <= i < |s| ==> IsWhitespace(s[i])
  {
    if |s| > 0 && IsWhitespace(s[|s| - 1]) then TrimEnd(s[..|s| - 1]) else s
  }

  /** `String.prototype.trim`. */
  function Trim(s: string): (r: string)
    ensures |r| <= |s|
    ensures r == [] || (!IsWhitespace(r[0]) && !IsWhitespace(r[|r| - 1]))
    ensures r == "" <==> forall i :: 0 <= i < |s| ==> IsWhitespace(s[i])
  {
    var t := TrimStart(s);
    var r := TrimEnd(t);
    assert r != [] ==> r[0] == t[0];
    r
  }
}
