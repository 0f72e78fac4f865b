/**
 * How a chat message is shown: a user's message verbatim, an assistant's
 * message line by line with `**bold**`, list items and `` `code` ``.
 *
 * Splitting a line on the bold pattern (two asterisks, a lazy group, two
 * asterisks) or on the code pattern (a backtick, a lazy group, a backtick) is
 * written out as JavaScript's `split` with a one-group pattern does it: scan for the
 * leftmost match, take the shortest body between the delimiters (the lazy
 * `.*?`, whose `.` stops at line terminators), emit the text before the match
 * and the captured body, and go on after the match.
 */
module MessageBubble {
  import opened Wrappers
  import opened Text
  import opened Chat

  const BoldMark := "**"
  const CodeMark := "`"
  const NoBreakSpace := "\U{A0}"

  // ---------------------------------------------------------------- splitting

  /**
   * The lazy body starting at `i`: the first position at or after `i` where
   * the delimiter occurs, provided no line terminator comes before it.
   */
  function CloseAt(s: string, d: string, i: nat): (r: Option<nat>)
    requires i <= |s|
    ensures r.Some? ==> i <= r.value && OccursAt(s, d, r.value)
    ensures r.Some? ==> forall k | i <= k < r.value :: !OccursAt(s, d, k) && !IsLineTerminator(s[k])
    ensures r.None? ==> forall k | i <= k <= |s| && OccursAt(s, d, k) ::
                          exists m | i <= m < k :: IsLineTerminator(s[m])
    decreases |s| - i
  {
    if OccursAt(s, d, i) then Some(i)
    else if i == |s| || IsLineTerminator(s[i]) then None
    else CloseAt(s, d, i + 1)
  }

  /** A match of the pattern starting exactly at `q`: the end of its captured body. */
  function MatchAt(s: string, d: string, q: nat): (r: Option<nat>)
    requires q <= |s|
    ensures r.Some? ==> OccursAt(s, d, q) && q + |d| <= r.value && OccursAt(s, d, r.value)
  {
    if OccursAt(s, d, q) then CloseAt(s, d, q + |d|) else None
  }

  /**
   * The split loop from position `q`, the current piece having begun at `p`.
   * Pieces at even positions are the text between matches, pieces at odd
   * positions the captured bodies.
   */
  function SplitFrom(s: string, d: string, p: nat, q: nat): (parts: seq<string>)
    requires d != "" && p <= q <= |s|
    ensures |parts| % 2 == 1
    decreases |s| - q
  {
    if q == |s| then [s[p..]]
    else
      match MatchAt(s, d, q)
      case None => SplitFrom(s, d, p, q + 1)
      case Some(j) => [s[p..q], s[q + |d|..j]] + SplitFrom(s, d, j + |d|, j + |d|)
  }

  /** `s.split` on the pattern "D, lazy group, D" for a non-empty delimiter D. */
  function SplitDelimited(s: string, d: string): (parts: seq<string>)
    requires d != ""
    ensures |parts| % 2 == 1
  {
    SplitFrom(s, d, 0, 0)
  }

  /** The pieces glued back together with the delimiter between each two. */
  function JoinWith(parts: seq<string>, d: string): string {
    if parts == [] then ""
    else if |parts| == 1 then parts[0]
    else parts[0] + d + JoinWith(parts[1..], d)
  }

  lemma JoinWithPrefix(x: string, y: string, rest: seq<string>, d: string)
    requires rest != []
    ensures JoinWith([x, y] + rest, d) == x + d + y + d + JoinWith(rest, d)
  {
    assert ([x, y] + rest)[1..] == [y] + rest;
    assert ([y] + rest)[1..] == rest;
  }

  /** The split loses nothing: putting the delimiters back gives the rest of the line from `p`. */
  lemma {:induction false} SplitFromRejoins(s: string, d: string, p: nat, q: nat)
    requires d != "" && p <= q <= |s|
    ensures JoinWith(SplitFrom(s, d, p, q), d) == s[p..]
    decreases |s| - q
  {
    if q < |s| {
      match MatchAt(s, d, q)
      case None =>
        SplitFromRejoins(s, d, p, q + 1);
      case Some(j) =>
        var e := j + |d|;
        SplitFromRejoins(s, d, e, e);
        RejoinAroundMatch(s, d, p, q, j);
    }
  }

  /** One step of the rejoin: the text before a match, the match's body and the rest. */
  lemma RejoinAroundMatch(s: string, d: string, p: nat, q: nat, j: nat)
    requires d != "" && p <= q < |s| && MatchAt(s, d, q) == Some(j)
    requires JoinWith(SplitFrom(s, d, j + |d|, j + |d|), d) == s[j + |d|..]
    ensures JoinWith(SplitFrom(s, d, p, q), d) == s[p..]
  {
    var e := j + |d|;
    var rest := SplitFrom(s, d, e, e);
    assert SplitFrom(s, d, p, q) == [s[p..q], s[q + |d|..j]] + rest;
    JoinWithPrefix(s[p..q], s[q + |d|..j], rest, d);
    SliceAroundMatch(s, d, p, q, j);
  }

  /** A line cut around two delimiter occurrences at `q` and `j`. */
  lemma SliceAroundMatch(s: string, d: string, p: nat, q: nat, j: nat)
    requires p <= q && q + |d| <= j && j + |d| <= |s|
    requires s[q..q + |d|] == d && s[j..j + |d|] == d
    ensures s[p..] == s[p..q] + d + s[q + |d|..j] + d + s[j + |d|..]
  {
    var e := j + |d|;
    assert s[p..] == s[p..q] + s[q..];
    assert s[q..] == s[q..q + |d|] + s[q + |d|..];
    assert s[q + |d|..] == s[q + |d|..j] + s[j..];
    assert s[j..] == s[j..e] + s[e..];
  }

  /** Splitting then putting the delimiters back gives the line. */
  lemma SplitRejoins(s: string, d: string)
    requires d != ""
    ensures JoinWith(SplitDelimited(s, d), d) == s
  {
    SplitFromRejoins(s, d, 0, 0);
  }

  /** A captured body: no line terminator (the `.` of the group stops there) and no delimiter inside. */
  predicate Captured(t: string, d: string) {
    !Contains(t, d) && forall k | 0 <= k < |t| :: !IsLineTerminator(t[k])
  }

  /** Every piece at an odd position is a captured body. */
  predicate OddPiecesCaptured(parts: seq<string>, d: string) {
    forall i | 0 <= i < |parts| && i % 2 == 1 :: Captured(parts[i], d)
  }

  /** The body of a lazy match, from `i` to its close `j`, is a captured body. */
  lemma BodyIsCaptured(s: string, d: string, i: nat, j: nat)
    requires d != "" && i <= |s| && CloseAt(s, d, i) == Some(j)
    ensures Captured(s[i..j], d)
  {
    var t := s[i..j];
    forall k: nat | k <= |t| ensures !OccursAt(t, d, k) {
      if k + |d| <= |t| {
        NoDelimiterBeforeClose(s, d, i, j, i + k);
        assert t[k..k + |d|] == s[i + k..i + k + |d|];
      }
    }
    forall k | 0 <= k < |t| ensures !IsLineTerminator(t[k]) {
      NoTerminatorBeforeClose(s, d, i, j, i + k);
    }
  }

  /** No delimiter starts between a body's start and its close. */
  lemma NoDelimiterBeforeClose(s: string, d: string, i: nat, j: nat, k: nat)
    requires i <= k < j <= |s| && CloseAt(s, d, i) == Some(j)
    ensures !OccursAt(s, d, k)
  {
  }

  /** No line terminator comes between a body's start and its close. */
  lemma NoTerminatorBeforeClose(s: string, d: string, i: nat, j: nat, k: nat)
    requires i <= k < j <= |s| && CloseAt(s, d, i) == Some(j)
    ensures !IsLineTerminator(s[k])
  {
  }

  /** Every piece at an odd position of the split loop is a captured body. */
  lemma {:induction false} SplitFromCaptures(s: string, d: string, p: nat, q: nat)
    requires d != "" && p <= q <= |s|
    ensures OddPiecesCaptured(SplitFrom(s, d, p, q), d)
    decreases |s| - q
  {
    if q < |s| {
      match MatchAt(s, d, q)
      case None =>
        SplitFromCaptures(s, d, p, q + 1);
      case Some(j) =>
        SplitFromCaptures(s, d, j + |d|, j + |d|);
        CapturesAroundMatch(s, d, p, q, j);
    }
  }

  /** One step: the body of the match at `q` joins the captured pieces of the rest. */
  lemma CapturesAroundMatch(s: string, d: string, p: nat, q: nat, j: nat)
    requires d != "" && p <= q < |s| && MatchAt(s, d, q) == Some(j)
    requires OddPiecesCaptured(SplitFrom(s, d, j + |d|, j + |d|), d)
    ensures OddPiecesCaptured(SplitFrom(s, d, p, q), d)
  {
    var e := j + |d|;
    var rest := SplitFrom(s, d, e, e);
    assert SplitFrom(s, d, p, q) == [s[p..q], s[q + |d|..j]] + rest;
    assert CloseAt(s, d, q + |d|) == Some(j);
    BodyIsCaptured(s, d, q + |d|, j);
    OddPiecesAfterPair(s[p..q], s[q + |d|..j], rest, d);
  }

  /** Putting a leading piece and a captured body in front keeps every odd piece captured. */
  lemma OddPiecesAfterPair(lead: string, body: string, rest: seq<string>, d: string)
    requires Captured(body, d) && OddPiecesCaptured(rest, d)
    ensures OddPiecesCaptured([lead, body] + rest, d)
  {
    var parts := [lead, body] + rest;
    forall i | 0 <= i < |parts| && i % 2 == 1 ensures Captured(parts[i], d) {
      if i != 1 {
        assert parts[i] == rest[i - 2] && (i - 2) % 2 == 1;
      }
    }
  }

  /** The pieces of `split` at odd positions are the captured bodies: one line each, without the delimiter. */
  lemma SplitCaptures(s: string, d: string)
    requires d != ""
    ensures OddPiecesCaptured(SplitDelimited(s, d), d)
  {
    SplitFromCaptures(s, d, 0, 0);
  }

  /** Where the delimiter never occurs from `q` on, the rest is one piece. */
  lemma {:induction false} SplitFromWithoutDelimiter(s: string, d: string, p: nat, q: nat)
    requires d != "" && p <= q <= |s|
    requires forall k | q <= k <= |s| :: !OccursAt(s, d, k)
    ensures SplitFrom(s, d, p, q) == [s[p..]]
    decreases |s| - q
  {
    if q < |s| {
      SplitFromWithoutDelimiter(s, d, p, q + 1);
    }
  }

  /** A line without the delimiter is one piece, shown unstyled. */
  lemma SplitWithoutDelimiter(s: string, d: string)
    requires d != "" && !Contains(s, d)
    ensures SplitDelimited(s, d) == [s]
  {
    forall k | 0 <= k <= |s| ensures !OccursAt(s, d, k) {
      var n: nat := k;
      assert n <= |s|;
    }
    SplitFromWithoutDelimiter(s, d, 0, 0);
  }

  // ---------------------------------------------------------------- lines

  datatype Inline = Plain(text: string) | Bold(text: string) | Code(text: string)

  datatype Style = Strong | Monospace

  /** The pieces of a split, odd ones styled, even ones plain. */
  function Styled(parts: seq<string>, style: Style): (r: seq<Inline>)
    ensures |r| == |parts|
    ensures forall i | 0 <= i < |parts| ::
              r[i] == (if i % 2 == 0 then Plain(parts[i]) else if style == Strong then Bold(parts[i]) else Code(parts[i]))
  {
    seq(|parts|, i requires 0 <= i < |parts| =>
      if i % 2 == 0 then Plain(parts[i]) else if style == Strong then Bold(parts[i]) else Code(parts[i]))
  }

  /** What a line has become: still the line's text, or a list of styled pieces. */
  datatype Processed = Text(s: string) | Pieces(pieces: seq<Inline>)

  datatype Block = ListItem(content: Processed) | Paragraph(content: Processed)

  /** `/^\d+\./`: one or more ASCII digits, then a '.'. */
  predicate NumberedMarker(t: string) {
    exists k | 0 < k < |t| :: t[k] == '.' && forall m | 0 <= m < k :: IsAsciiDigit(t[m])
  }

  /** The trimmed line starts with "- " or with a number and a '.'. */
  predicate IsListLine(line: string) {
    var t := Trim(line);
    StartsWith(t, "- ") || NumberedMarker(t)
  }

  /** One line of an assistant message. */
  function RenderLine(line: string): (b: Block)
    ensures b.ListItem? <==> IsListLine(line)
    ensures Contains(line, BoldMark) ==> b.content == Pieces(Styled(SplitDelimited(line, BoldMark), Strong))
    ensures !Contains(line, BoldMark) && b.ListItem? ==> b.content == Text(line)
    ensures !Contains(line, BoldMark) && b.Paragraph? && Contains(line, CodeMark) ==>
              b.content == Pieces(Styled(SplitDelimited(line, CodeMark), Monospace))
    ensures !Contains(line, BoldMark) && !Contains(line, CodeMark) && b.Paragraph? ==>
              b.content == Text(if line == "" then NoBreakSpace else line)
  {
    var processed := if Contains(line, BoldMark) then Pieces(Styled(SplitDelimited(line, BoldMark), Strong)) else Text(line);
    if IsListLine(line) then ListItem(processed)
    else
      var coded := if processed.Text? && Contains(processed.s, CodeMark)
                   then Pieces(Styled(SplitDelimited(processed.s, CodeMark), Monospace))
                   else processed;
      Paragraph(if coded == Text("") then Text(NoBreakSpace) else coded)
  }

  /** Only one kind of styling applies to a line: bold pieces and code pieces never mix. */
  lemma BoldOrCodeNeverBoth(line: string)
    ensures var b := RenderLine(line);
      b.content.Pieces? ==>
        (forall i | 0 <= i < |b.content.pieces| :: !b.content.pieces[i].Code?) ||
        (forall i | 0 <= i < |b.content.pieces| :: !b.content.pieces[i].Bold?)
  {
  }

  /** An empty line is shown as a single non-breaking space. */
  lemma EmptyLineIsNoBreakSpace()
    ensures RenderLine("") == Paragraph(Text(NoBreakSpace))
  {
    assert !Contains("", BoldMark) && !Contains("", CodeMark);
  }

  /** `MessageContent`: one block per '\n'-separated line, in order. */
  function RenderContent(content: string): (blocks: seq<Block>)
    ensures |blocks| == |Split(content, '\n')|
    ensures forall i | 0 <= i < |blocks| :: blocks[i] == RenderLine(Split(content, '\n')[i])
  {
    var lines := Split(content, '\n');
    seq(|lines|, i requires 0 <= i < |lines| => RenderLine(lines[i]))
  }

  /** There are as many blocks as line breaks plus one. */
  lemma BlockPerLine(content: string)
    ensures |RenderContent(content)| == Count(content, '\n') + 1
  {
    SplitLength(content, '\n');
  }

  // ---------------------------------------------------------------- bubbles

  datatype Shown = Verbatim(text: string) | Formatted(blocks: seq<Block>)

  /** `MessageBubble`: a user's words as typed; an assistant's through the line formatter. */
  function Bubble(m: ChatMessage): (r: Shown)
    ensures m.role == UserRole ==> r == Verbatim(m.content)
    ensures m.role == AssistantRole ==> r == Formatted(RenderContent(m.content))
  {
    if m.role == UserRole then Verbatim(m.content) else Formatted(RenderContent(m.content))
  }
}
