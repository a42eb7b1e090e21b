/** The string primitives the components rely on, with JavaScript's meaning:
    `trim`, `split` on one character, `includes`, and case conversion. */
module Text {

  /** White space and line terminators as `String.prototype.trim` strips them
      (ECMAScript WhiteSpace and LineTerminator code points). */
  predicate IsSpace(c: char) {
    || c == '\t' || c == '\n' || c == '\U{000B}' || c == '\U{000C}' || c == '\r' || c == ' '
    || c == '\U{00A0}' || c == '\U{1680}' || ('\U{2000}' <= c <= '\U{200A}')
    || c == '\U{2028}' || c == '\U{2029}' || c == '\U{202F}' || c == '\U{205F}'
    || c == '\U{3000}' || c == '\U{FEFF}'
  }

  /** Every character of `s` is white space. */
  predicate AllSpace(s: string) {
    forall i :: 0 <= i < |s| ==> IsSpace(s[i])
  }

  /** How many white-space characters `s` starts with. */
  function LeadingSpace(s: string): (n: nat)
    ensures n <= |s|
    ensures forall i :: 0 <= i < n ==> IsSpace(s[i])
    ensures n < |s| ==> !IsSpace(s[n])
    decreases |s|
  {
    if |s| > 0 && IsSpace(s[0]) then 1 + LeadingSpace(s[1..]) else 0
  }

  /** Where the trailing white space of `s` begins. */
  function ContentEnd(s: string): (m: nat)
    ensures m <= |s|
    ensures forall i :: m <= i < |s| ==> IsSpace(s[i])
    ensures m > 0 ==> !IsSpace(s[m - 1])
    decreases |s|
  {
    if |s| > 0 && IsSpace(s[|s| - 1]) then ContentEnd(s[..|s| - 1]) else |s|
  }

  /** `s.trim()`: the piece of `s` that neither starts nor ends with white space,
      with only white space cut away on either side. */
  function Trim(s: string): (r: string)
    ensures var a := LeadingSpace(s);
      a + |r| <= |s| && r == s[a..a + |r|]
    ensures forall i :: 0 <= i < LeadingSpace(s) ==> IsSpace(s[i])
    ensures forall i :: LeadingSpace(s) + |r| <= i < |s| ==> IsSpace(s[i])
    ensures |r| > 0 ==> !IsSpace(r[0]) && !IsSpace(r[|r| - 1])
  {
    var a := LeadingSpace(s);
    if a == |s| then "" else s[a..ContentEnd(s)]
  }

  /** `!s.trim()`: the text is empty once trimmed. */
  predicate IsBlank(s: string) {
    Trim(s) == ""
  }

  /** A string is blank exactly when it consists of white space only. */
  lemma BlankIffAllSpace(s: string)
    ensures IsBlank(s) <==> AllSpace(s)
  {
  }

  /** Trimming twice changes nothing more than trimming once. */
  lemma TrimIdempotent(s: string)
    ensures Trim(Trim(s)) == Trim(s)
  {
  }

  /** `s.indexOf(c)`: the position of the first `c`, or -1 when there is none. */
  function Find(s: string, c: char): (r: int)
    ensures -1 <= r < |s|
    ensures r >= 0 ==> s[r] == c
    ensures forall j :: 0 <= j < |s| && (r < 0 || j < r) ==> s[j] != c
    decreases |s|
  {
    if |s| == 0 then -1
    else if s[0] == c then 0
    else
      var k := Find(s[1..], c);
      if k < 0 then -1 else k + 1
  }

  /** `s.indexOf(c)` is -1 exactly when `c` does not occur. */
  lemma FindNone(s: string, c: char)
    ensures Find(s, c) < 0 <==> c !in s
  {
  }

  /** The first `c` is at `k` when `s[k]` is `c` and no `c` comes before it. */
  lemma FindAt(s: string, c: char, k: int)
    requires 0 <= k < |s| && s[k] == c && c !in s[..k]
    ensures Find(s, c) == k
  {
  }

  /** `s.split(c)` for a one-character separator: the pieces between separators, in order. */
  function Split(s: string, c: char): (r: seq<string>)
    ensures |r| >= 1
    decreases |s|
  {
    var i := Find(s, c);
    if i < 0 then [s] else [s[..i]] + Split(s[i + 1..], c)
  }

  /** One step of splitting: the text before the first separator, then the pieces of the rest. */
  lemma SplitUnfold(s: string, c: char, i: int)
    requires i == Find(s, c) && i >= 0
    ensures Split(s, c) == [s[..i]] + Split(s[i + 1..], c)
  {
  }

  /** `parts.join(c)`. */
  function Join(parts: seq<string>, c: char): string
    decreases |parts|
  {
    if |parts| == 0 then ""
    else if |parts| == 1 then parts[0]
    else parts[0] + [c] + Join(parts[1..], c)
  }

  /** Joining a piece in front of a non-empty list puts one separator between them. */
  lemma JoinPrepend(p: string, parts: seq<string>, c: char)
    requires |parts| >= 1
    ensures Join([p] + parts, c) == p + [c] + Join(parts, c)
  {
  }

  /** Splitting loses nothing: joining the pieces with the separator gives the text back. */
  lemma {:induction false} JoinSplit(s: string, c: char)
    ensures Join(Split(s, c), c) == s
    decreases |s|
  {
    var i := Find(s, c);
    if i >= 0 {
      var rest := s[i + 1..];
      SplitUnfold(s, c, i);
      JoinPrepend(s[..i], Split(rest, c), c);
      JoinSplit(rest, c);
      assert s == s[..i] + [c] + rest;
    }
  }

  /** Joining pieces that are free of the separator and splitting again gives the pieces back. */
  lemma {:induction false} SplitJoin(parts: seq<string>, c: char)
    requires |parts| >= 1
    requires forall k :: 0 <= k < |parts| ==> c !in parts[k]
    ensures Split(Join(parts, c), c) == parts
    decreases |parts|
  {
    var s := Join(parts, c);
    var p := parts[0];
    if |parts| > 1 {
      var tail := Join(parts[1..], c);
      assert s == p + [c] + tail;
      assert s[..|p|] == p;
      FindAt(s, c, |p|);
      assert s[|p| + 1..] == tail;
      SplitUnfold(s, c, |p|);
      SplitJoin(parts[1..], c);
    } else {
      FindNone(p, c);
    }
  }

  /** The first piece of `s.split(c)` is the text before the first `c`, or all of `s`. */
  lemma SplitFirst(s: string, c: char)
    ensures c !in s ==> Split(s, c)[0] == s
    ensures c in s ==> 0 <= Find(s, c) && Split(s, c)[0] == s[..Find(s, c)]
  {
  }

  /** `s.lastIndexOf(c)`: the position of the last `c`, or -1 when there is none. */
  function LastIndexOf(s: string, c: char): (r: int)
    ensures -1 <= r < |s|
    ensures r >= 0 ==> s[r] == c
    ensures forall j :: r < j < |s| ==> s[j] != c
    decreases |s|
  {
    if |s| == 0 then -1
    else if s[|s| - 1] == c then |s| - 1
    else LastIndexOf(s[..|s| - 1], c)
  }

  /** The text after the last `c`, or all of `s` when there is none. */
  function LastPiece(s: string, c: char): string {
    s[LastIndexOf(s, c) + 1..]
  }

  /** The last piece is a suffix of `s` free of `c`, preceded by `c` unless it is all of `s`. */
  lemma LastPieceIsSuffix(s: string, c: char)
    ensures var p := LastPiece(s, c);
      |p| <= |s| && p == s[|s| - |p|..] && c !in p && (|p| < |s| ==> s[|s| - |p| - 1] == c)
    ensures c !in s ==> LastPiece(s, c) == s
  {
  }

  /** Past any `c`, the last piece is that of the rest of the text. */
  lemma LastPieceOfRest(s: string, c: char, i: int)
    requires 0 <= i < |s| && s[i] == c
    ensures LastPiece(s, c) == LastPiece(s[i + 1..], c)
  {
  }

  /** Past the first separator, the last piece of the split is that of the rest. */
  lemma SplitLastOfRest(s: string, c: char, i: int)
    requires i == Find(s, c) && i >= 0
    ensures var p := Split(s, c); var q := Split(s[i + 1..], c); p[|p| - 1] == q[|q| - 1]
  {
    SplitUnfold(s, c, i);
    LastOfPrepend(Split(s, c), s[..i], Split(s[i + 1..], c));
  }

  /** The last element of a list with one more element in front. */
  lemma LastOfPrepend(p: seq<string>, x: string, q: seq<string>)
    requires |q| >= 1 && p == [x] + q
    ensures p[|p| - 1] == q[|q| - 1]
  {
  }

  /** Without a separator, the text is its own only piece and its own last piece. */
  lemma NoSeparator(s: string, c: char)
    requires Find(s, c) < 0
    ensures Split(s, c) == [s] && LastPiece(s, c) == s
  {
  }

  /** One separator further, the last piece and the last element of the split stay matched. */
  lemma PopStep(s: string, c: char, i: int)
    requires i == Find(s, c) && i >= 0
    requires var q := Split(s[i + 1..], c); LastPiece(s[i + 1..], c) == q[|q| - 1]
    ensures var p := Split(s, c); LastPiece(s, c) == p[|p| - 1]
  {
    LastPieceOfRest(s, c, i);
    SplitLastOfRest(s, c, i);
  }

  /** The last piece is `s.split(c).pop()`. */
  lemma {:induction false} LastPieceIsPop(s: string, c: char)
    ensures var parts := Split(s, c); LastPiece(s, c) == parts[|parts| - 1]
    decreases |s|
  {
    var i := Find(s, c);
    if i >= 0 {
      LastPieceIsPop(s[i + 1..], c);
      PopStep(s, c, i);
      assert LastPiece(s, c) == Split(s, c)[|Split(s, c)| - 1];
    } else {
      NoSeparator(s, c);
      assert LastPiece(s, c) == Split(s, c)[|Split(s, c)| - 1];
    }
  }

  /** ASCII lower case of one character (other characters are unchanged). */
  function LowerChar(c: char): char {
    if 'A' <= c <= 'Z' then (c as int + 32) as char else c
  }

  /** ASCII upper case of one character (other characters are unchanged). */
  function UpperChar(c: char): char {
    if 'a' <= c <= 'z' then (c as int - 32) as char else c
  }

  /** `s.toLowerCase()` restricted to ASCII letters. */
  function ToLower(s: string): (r: string)
    ensures |r| == |s| && forall i :: 0 <= i < |s| ==> r[i] == LowerChar(s[i])
  {
    seq(|s|, i requires 0 <= i < |s| => LowerChar(s[i]))
  }

  /** `s.toUpperCase()` restricted to ASCII letters. */
  function ToUpper(s: string): (r: string)
    ensures |r| == |s| && forall i :: 0 <= i < |s| ==> r[i] == UpperChar(s[i])
  {
    seq(|s|, i requires 0 <= i < |s| => UpperChar(s[i]))
  }

  /** `needle` occurs in `hay` starting at index `i`. */
  predicate OccursAt(hay: string, needle: string, i: int) {
    0 <= i && i + |needle| <= |hay| && hay[i..i + |needle|] == needle
  }

  /** `hay.includes(needle)`, computed by scanning left to right. */
  function Includes(hay: string, needle: string): (r: bool)
    ensures r <==> exists i :: OccursAt(hay, needle, i)
    decreases |hay|
  {
    if |needle| <= |hay| && hay[..|needle|] == needle then
      assert OccursAt(hay, needle, 0);
      true
    else if |hay| == 0 then
      false
    else
      var rest := Includes(hay[1..], needle);
      if rest then
        var j :| OccursAt(hay[1..], needle, j);
        assert hay[j + 1..j + 1 + |needle|] == hay[1..][j..j + |needle|];
        assert OccursAt(hay, needle, j + 1);
        true
      else
        assert forall i :: OccursAt(hay, needle, i) ==> i > 0 && OccursAt(hay[1..], needle, i - 1) by {
          forall i | OccursAt(hay, needle, i) ensures i > 0 && OccursAt(hay[1..], needle, i - 1) {
            if i > 0 { assert hay[1..][i - 1..i - 1 + |needle|] == hay[i..i + |needle|]; }
          }
        }
        false
  }
}
