/** The overlapping text chunker of internal/knowledge/chunker.go. */
module Chunker {
  import opened Common

  datatype ChunkOptions = ChunkOptions(maxRunes: int, overlapRunes: int)

  datatype TextChunk = TextChunk(ordinal: nat, content: string, startRune: nat, endRune: nat)

  datatype ChunkError = SizeTooSmall | BadOverlap | NoText

  predicate Valid(o: ChunkOptions) {
    o.maxRunes >= 100 && 0 <= o.overlapRunes < o.maxRunes / 2
  }

  // ---------------------------------------------------------------- line endings

  function ReplaceCrLf(s: string): string {
    if s == "" then ""
    else if |s| >= 2 && s[0] == '\r' && s[1] == '\n' then "\n" + ReplaceCrLf(s[2..])
    else [s[0]] + ReplaceCrLf(s[1..])
  }

  function ReplaceCr(s: string): string {
    if s == "" then "" else [if s[0] == '\r' then '\n' else s[0]] + ReplaceCr(s[1..])
  }

  function Normalized(s: string): string { ReplaceCr(ReplaceCrLf(s)) }

  /** Some rune is not white space. */
  predicate HasText(s: string) {
    exists i | 0 <= i < |s| :: !IsSpace(s[i])
  }

  lemma {:induction false} HasTextFirst(s: string)
    requires s != ""
    ensures HasText(s) <==> !IsSpace(s[0]) || HasText(s[1..])
  {
    hide IsSpace;
    if HasText(s) && IsSpace(s[0]) {
      var i :| 0 <= i < |s| && !IsSpace(s[i]);
      assert s[1..][i - 1] == s[i];
    }
    if HasText(s[1..]) {
      var i :| 0 <= i < |s[1..]| && !IsSpace(s[1..][i]);
      assert s[i + 1] == s[1..][i];
    }
  }

  lemma {:induction false} CrLfKeepsText(s: string)
    ensures HasText(ReplaceCrLf(s)) <==> HasText(s)
  {
    if s != "" {
      HasTextFirst(s);
      if |s| >= 2 && s[0] == '\r' && s[1] == '\n' {
        HasTextFirst(s[1..]);
        assert s[1..][1..] == s[2..];
        CrLfKeepsText(s[2..]);
        HasTextFirst(ReplaceCrLf(s));
        assert ReplaceCrLf(s)[1..] == ReplaceCrLf(s[2..]);
      } else {
        CrLfKeepsText(s[1..]);
        HasTextFirst(ReplaceCrLf(s));
        assert ReplaceCrLf(s)[1..] == ReplaceCrLf(s[1..]);
      }
    }
  }

  lemma {:induction false} CrKeepsText(s: string)
    ensures HasText(ReplaceCr(s)) <==> HasText(s)
  {
    if s != "" {
      CrKeepsText(s[1..]);
      HasTextFirst(s);
      HasTextFirst(ReplaceCr(s));
      assert ReplaceCr(s)[1..] == ReplaceCr(s[1..]);
    }
  }

  /** Normalising line endings neither adds nor removes text. */
  lemma NormalizedKeepsText(s: string)
    ensures HasText(Normalized(s)) <==> HasText(s)
  {
    hide ReplaceCr, ReplaceCrLf, HasText;
    CrLfKeepsText(s);
    CrKeepsText(ReplaceCrLf(s));
  }

  lemma {:induction false} NoReturnsLeft(s: string)
    ensures '\r' !in ReplaceCr(s)
  {
    if s != "" { NoReturnsLeft(s[1..]); }
  }

  /** A carriage return before a line feed goes with it; texts that do not meet there are normalised apart. */
  predicate Apart(a: string, b: string) {
    a == "" || b == "" || a[|a| - 1] != '\r' || b[0] != '\n'
  }

  lemma CrLfFirst(s: string)
    requires s != ""
    ensures |s| >= 2 && s[0] == '\r' && s[1] == '\n' ==> ReplaceCrLf(s) == "\n" + ReplaceCrLf(s[2..])
    ensures !(|s| >= 2 && s[0] == '\r' && s[1] == '\n') ==> ReplaceCrLf(s) == [s[0]] + ReplaceCrLf(s[1..])
  {
  }

  lemma CrLfNothing(b: string)
    ensures ReplaceCrLf("" + b) == ReplaceCrLf("") + ReplaceCrLf(b)
  {
    assert "" + b == b;
  }

  /** A carriage return and line feed at the front, or any other first rune, is taken off both sides alike. */
  lemma CrLfFront(a: string, b: string, n: nat)
    requires a != "" && Apart(a, b)
    requires n == if |a| >= 2 && a[0] == '\r' && a[1] == '\n' then 2 else 1
    ensures n <= |a| && Apart(a[n..], b)
    ensures var front := if n == 2 then "\n" else [a[0]];
      ReplaceCrLf(a) == front + ReplaceCrLf(a[n..]) && ReplaceCrLf(a + b) == front + ReplaceCrLf(a[n..] + b)
  {
    hide ReplaceCrLf;
    CrLfFirst(a);
    CrLfFirst(a + b);
    assert (a + b)[n..] == a[n..] + b;
  }

  lemma {:induction false} CrLfApart(a: string, b: string)
    requires Apart(a, b)
    ensures ReplaceCrLf(a + b) == ReplaceCrLf(a) + ReplaceCrLf(b)
    decreases |a|
  {
    hide ReplaceCrLf, Apart;
    if a == "" {
      CrLfNothing(b);
    } else {
      var n := if |a| >= 2 && a[0] == '\r' && a[1] == '\n' then 2 else 1;
      CrLfFront(a, b, n);
      CrLfApart(a[n..], b);
    }
  }

  lemma {:induction false} CrApart(a: string, b: string)
    ensures ReplaceCr(a + b) == ReplaceCr(a) + ReplaceCr(b)
  {
    if a == "" {
      assert a + b == b;
    } else {
      assert (a + b)[1..] == a[1..] + b;
      CrApart(a[1..], b);
    }
  }

  /** What normalising does, rule by rule: either kind of carriage return becomes a line feed, any other rune stays, and
      pieces are normalised one by one unless the cut is inside a carriage return and line feed. */
  lemma NormalizedIs(a: string, b: string, c: char)
    ensures Normalized("") == "" && Normalized("\r\n") == "\n" && Normalized("\r") == "\n"
    ensures c != '\r' ==> Normalized([c]) == [c]
    ensures Apart(a, b) ==> Normalized(a + b) == Normalized(a) + Normalized(b)
  {
    assert "\r\n"[2..] == "" && ReplaceCrLf("\r\n") == "\n" + ReplaceCrLf("");
    assert "\n"[1..] == "" && "\r"[1..] == "" && [c][1..] == "";
    assert ReplaceCr("") == "" && ReplaceCr("\n") == "\n" + ReplaceCr("");
    if Apart(a, b) {
      CrLfApart(a, b);
      CrApart(ReplaceCrLf(a), ReplaceCrLf(b));
    }
  }

  // ---------------------------------------------------------------- boundaries

  predicate Hashes(runes: string, from: nat, to: nat)
    requires to <= |runes|
  {
    forall k | from <= k < to :: runes[k] == '#'
  }

  /** One to six '#' and a space at the beginning of a line, not on the first line. */
  predicate HeadingAt(runes: string, index: int) {
    && 0 < index < |runes| && runes[index - 1] == '\n'
    && exists end | index < end <= index + 6 && end < |runes| :: runes[end] == ' ' && Hashes(runes, index, end)
  }

  method IsMarkdownHeadingBoundary(runes: string, index: int) returns (r: bool)
    ensures r == HeadingAt(runes, index)
  {
    if index <= 0 || index >= |runes| || runes[index - 1] != '\n' || runes[index] != '#' { return false; }
    var cursor := index;
    while cursor < |runes| && cursor < index + 7
      invariant index <= cursor <= index + 7
      invariant cursor <= |runes|
      invariant Hashes(runes, index, cursor)
    {
      if runes[cursor] == ' ' { return cursor > index; }
      if runes[cursor] != '#' { return false; }
      cursor := cursor + 1;
    }
    return false;
  }

  const SENTENCE_ENDS := "。！？.!?；;"

  /** A kind of boundary, in the order in which they are tried: heading, paragraph, line, sentence, space. */
  predicate Matches(runes: string, level: nat, i: int) {
    match level
    case 0 => HeadingAt(runes, i)
    case 1 => 0 < i < |runes| && runes[i - 1] == '\n' && runes[i] == '\n'
    case 2 => 0 <= i < |runes| && runes[i] == '\n'
    case 3 => 0 < i <= |runes| && runes[i - 1] in SENTENCE_ENDS
    case _ => 0 <= i < |runes| && IsSpace(runes[i])
  }

  lemma HeadingMatches(runes: string, i: int)
    ensures Matches(runes, 0, i) == HeadingAt(runes, i)
  {
  }

  const LEVELS := 5

  predicate NoneIn(runes: string, level: nat, minimum: int, maximum: int) {
    forall i | minimum <= i <= maximum :: !Matches(runes, level, i)
  }

  ghost predicate NoneBelow(runes: string, level: nat, minimum: int, maximum: int) {
    forall l: nat | l < level :: NoneIn(runes, l, minimum, maximum)
  }

  ghost predicate LatestOf(runes: string, minimum: int, maximum: int, cut: int, level: nat) {
    Matches(runes, level, cut) && NoneIn(runes, level, cut + 1, maximum) && NoneBelow(runes, level, minimum, maximum)
  }

  /** The latest boundary of the first kind that occurs in the range; the end of the range if none does. */
  ghost predicate IsBoundary(runes: string, minimum: int, maximum: int, cut: int) {
    && minimum <= cut <= maximum
    && ((cut == maximum && NoneBelow(runes, LEVELS, minimum, maximum))
        || exists level: nat | level < LEVELS :: LatestOf(runes, minimum, maximum, cut, level))
  }

  /** The boundary for a range, from the given kind on. */
  function Boundary(runes: string, minimum: int, maximum: int, level: nat): int
    decreases LEVELS - level
  {
    if level >= LEVELS then maximum
    else
      var last := LastMatch(runes, minimum, maximum, level);
      if last >= minimum then last else Boundary(runes, minimum, maximum, level + 1)
  }

  /** The latest match in the range; below it if there is none. */
  function LastMatch(runes: string, minimum: int, maximum: int, level: nat): (i: int)
    ensures i <= maximum
    decreases maximum - minimum + 1
  {
    if maximum < minimum then maximum
    else if Matches(runes, level, maximum) then maximum
    else LastMatch(runes, minimum, maximum - 1, level)
  }

  lemma {:induction false} LastMatchIsLast(runes: string, minimum: int, maximum: int, level: nat)
    requires minimum <= maximum + 1
    ensures var i := LastMatch(runes, minimum, maximum, level);
      minimum - 1 <= i && NoneIn(runes, level, i + 1, maximum) && (i >= minimum ==> Matches(runes, level, i))
    decreases maximum - minimum + 1
  {
    hide Matches;
    if maximum >= minimum && !Matches(runes, level, maximum) { LastMatchIsLast(runes, minimum, maximum - 1, level); }
  }

  lemma {:induction false} BoundaryFrom(runes: string, minimum: int, maximum: int, level: nat)
    requires minimum <= maximum && level <= LEVELS && NoneBelow(runes, level, minimum, maximum)
    ensures IsBoundary(runes, minimum, maximum, Boundary(runes, minimum, maximum, level))
    decreases LEVELS - level
  {
    hide Matches, NoneIn, LastMatch;
    if level < LEVELS {
      LastMatchIsLast(runes, minimum, maximum, level);
      var last := LastMatch(runes, minimum, maximum, level);
      if last < minimum {
        BoundaryFrom(runes, minimum, maximum, level + 1);
      } else {
        assert LatestOf(runes, minimum, maximum, last, level);
      }
    }
  }

  lemma BoundaryIsBest(runes: string, minimum: int, maximum: int)
    requires minimum <= maximum
    ensures IsBoundary(runes, minimum, maximum, Boundary(runes, minimum, maximum, 0))
  {
    BoundaryFrom(runes, minimum, maximum, 0);
  }

  lemma LatestIsBoundary(runes: string, minimum: int, maximum: int, cut: int, level: nat)
    requires minimum <= cut <= maximum && level < LEVELS && LatestOf(runes, minimum, maximum, cut, level)
    ensures NoneIn(runes, level, cut + 1, maximum) && !NoneIn(runes, level, minimum, maximum)
    ensures forall i | cut <= i <= maximum && Matches(runes, level, i) :: i == cut
  {
    hide Matches;
    assert Matches(runes, level, cut);
  }

  /** The description leaves no choice. */
  lemma BoundaryIsUnique(runes: string, minimum: int, maximum: int, a: int, b: int)
    requires IsBoundary(runes, minimum, maximum, a) && IsBoundary(runes, minimum, maximum, b)
    ensures a == b
  {
    hide Matches, NoneIn;
    if !NoneBelow(runes, LEVELS, minimum, maximum) {
      var la: nat :| la < LEVELS && LatestOf(runes, minimum, maximum, a, la);
      var lb: nat :| lb < LEVELS && LatestOf(runes, minimum, maximum, b, lb);
      LatestIsBoundary(runes, minimum, maximum, a, la);
      LatestIsBoundary(runes, minimum, maximum, b, lb);
      assert la == lb;
      assert Matches(runes, la, a) && Matches(runes, la, b);
    } else {
      NoLatest(runes, minimum, maximum, a);
      NoLatest(runes, minimum, maximum, b);
    }
  }

  lemma NoLatest(runes: string, minimum: int, maximum: int, cut: int)
    requires NoneBelow(runes, LEVELS, minimum, maximum) && IsBoundary(runes, minimum, maximum, cut)
    ensures cut == maximum
  {
    hide Matches;
    forall level: nat | level < LEVELS
      ensures !Matches(runes, level, cut)
    {
      assert NoneIn(runes, level, minimum, maximum);
    }
  }

  predicate InRange(i: int, minimum: int, maximum: int) { minimum <= i <= maximum }

  /** What a cut within the text falls on, best first: a heading's line, a blank line, a line end, just after a
      sentence, white space; and at the very end only when the range offers none of these. */
  ghost predicate Prefers(runes: string, minimum: int, maximum: int, cut: int)
    requires 0 < minimum <= maximum < |runes|
  {
    && InRange(cut, minimum, maximum)
    && if exists i | InRange(i, minimum, maximum) :: HeadingAt(runes, i) then HeadingAt(runes, cut)
       else if exists i | InRange(i, minimum, maximum) :: runes[i - 1] == runes[i] == '\n'
         then runes[cut - 1] == runes[cut] == '\n'
       else if exists i | InRange(i, minimum, maximum) :: runes[i] == '\n' then runes[cut] == '\n'
       else if exists i | InRange(i, minimum, maximum) :: runes[i - 1] in "。！？.!?；;"
         then runes[cut - 1] in "。！？.!?；;"
       else if exists i | InRange(i, minimum, maximum) :: IsSpace(runes[i]) then IsSpace(runes[cut])
       else cut == maximum
  }

  lemma CutPrefers(runes: string, minimum: int, maximum: int)
    requires 0 < minimum <= maximum < |runes|
    ensures Prefers(runes, minimum, maximum, Boundary(runes, minimum, maximum, 0))
  {
    hide Matches, NoneIn, Prefers, Boundary;
    BoundaryIsBest(runes, minimum, maximum);
    var cut := Boundary(runes, minimum, maximum, 0);
    if !NoneBelow(runes, LEVELS, minimum, maximum) {
      var level: nat :| level < LEVELS && LatestOf(runes, minimum, maximum, cut, level);
      PrefersAt(runes, minimum, maximum, cut, level);
    } else {
      NoLatest(runes, minimum, maximum, cut);
      PrefersEnd(runes, minimum, maximum);
    }
  }

  lemma PrefersAt(runes: string, minimum: int, maximum: int, cut: int, level: nat)
    requires 0 < minimum <= cut <= maximum < |runes| && level < LEVELS && LatestOf(runes, minimum, maximum, cut, level)
    ensures Prefers(runes, minimum, maximum, cut)
  {
    hide HeadingAt, IsSpace, NoneIn, NoneBelow;
    AllLevels(runes, minimum, maximum, level);
    assert InRange(cut, minimum, maximum);
    if level == 0 {
      assert HeadingAt(runes, cut);
    } else if level == 1 {
      assert runes[cut - 1] == runes[cut] == '\n';
    } else if level == 2 {
      assert runes[cut] == '\n';
    } else if level == 3 {
      assert runes[cut - 1] in "。！？.!?；;";
    } else {
      assert IsSpace(runes[cut]);
    }
  }

  lemma PrefersEnd(runes: string, minimum: int, maximum: int)
    requires 0 < minimum <= maximum < |runes| && NoneBelow(runes, LEVELS, minimum, maximum)
    ensures Prefers(runes, minimum, maximum, maximum)
  {
    hide HeadingAt, IsSpace, NoneIn, NoneBelow;
    AllLevels(runes, minimum, maximum, LEVELS);
  }

  lemma AllLevels(runes: string, minimum: int, maximum: int, level: nat)
    requires 0 < minimum <= maximum < |runes| && level <= LEVELS && NoneBelow(runes, level, minimum, maximum)
    ensures forall i | InRange(i, minimum, maximum) ::
      && (level > 0 ==> !HeadingAt(runes, i))
      && (level > 1 ==> !(runes[i - 1] == runes[i] == '\n'))
      && (level > 2 ==> runes[i] != '\n')
      && (level > 3 ==> runes[i - 1] !in "。！？.!?；;")
      && (level > 4 ==> !IsSpace(runes[i]))
  {
    hide HeadingAt, IsSpace;
    forall i, l: nat | InRange(i, minimum, maximum) && l < level ensures !Matches(runes, l, i) {
      assert NoneIn(runes, l, minimum, maximum);
    }
    forall i | InRange(i, minimum, maximum)
      ensures level > 0 ==> !HeadingAt(runes, i)
      ensures level > 1 ==> !(runes[i - 1] == runes[i] == '\n')
      ensures level > 2 ==> runes[i] != '\n'
      ensures level > 3 ==> runes[i - 1] !in "。！？.!?；;"
      ensures level > 4 ==> !IsSpace(runes[i])
    {
      assert level > 0 ==> !Matches(runes, 0, i);
      assert level > 1 ==> !Matches(runes, 1, i);
      assert level > 2 ==> !Matches(runes, 2, i);
      assert level > 3 ==> !Matches(runes, 3, i);
      assert level > 4 ==> !Matches(runes, 4, i);
    }
  }

  method FindBoundary(runes: string, minimum: int, maximum: int) returns (cut: int)
    requires minimum <= maximum
    ensures cut == Boundary(runes, minimum, maximum, 0) && IsBoundary(runes, minimum, maximum, cut)
  {
    cut := FindBoundaryRecursive(runes, minimum, maximum, 0);
    BoundaryIsBest(runes, minimum, maximum);
  }

  method FindBoundaryRecursive(runes: string, minimum: int, maximum: int, level: nat) returns (cut: int)
    ensures cut == Boundary(runes, minimum, maximum, level)
    decreases LEVELS - level
  {
    if level >= LEVELS { return maximum; }
    var index := maximum;
    while index >= minimum
      invariant LastMatch(runes, minimum, index, level) == LastMatch(runes, minimum, maximum, level)
    {
      hide Matches;
      var found := Matches(runes, level, index);
      if level == 0 {
        assert Matches(runes, 0, index) == HeadingAt(runes, index) by { HeadingMatches(runes, index); }
        found := IsMarkdownHeadingBoundary(runes, index);
      }
      if found { return index; }
      index := index - 1;
    }
    cut := FindBoundaryRecursive(runes, minimum, maximum, level + 1);
  }

  // ---------------------------------------------------------------- trimming

  function FirstText(runes: string, start: nat, end: nat): (i: nat)
    requires start <= end <= |runes|
    ensures start <= i <= end
    decreases end - start
  {
    if start < end && IsSpace(runes[start]) then FirstText(runes, start + 1, end) else start
  }

  function LastText(runes: string, start: nat, end: nat): (i: nat)
    requires start <= end <= |runes|
    ensures start <= i <= end
  {
    if start < end && IsSpace(runes[end - 1]) then LastText(runes, start, end - 1) else end
  }

  function Trimmed(runes: string, start: nat, end: nat): (nat, nat)
    requires start <= end <= |runes|
  {
    var first := FirstText(runes, start, end);
    (first, LastText(runes, first, end))
  }

  predicate Blank(runes: string, start: nat, end: nat)
    requires end <= |runes|
  {
    forall i | start <= i < end :: IsSpace(runes[i])
  }

  lemma {:induction false} FirstTextIs(runes: string, start: nat, end: nat)
    requires start <= end <= |runes|
    ensures var i := FirstText(runes, start, end); Blank(runes, start, i) && (i < end ==> !IsSpace(runes[i]))
    decreases end - start
  {
    hide IsSpace;
    if start < end && IsSpace(runes[start]) { FirstTextIs(runes, start + 1, end); }
  }

  lemma {:induction false} LastTextIs(runes: string, start: nat, end: nat)
    requires start <= end <= |runes|
    ensures var i := LastText(runes, start, end); Blank(runes, i, end) && (i > start ==> !IsSpace(runes[i - 1]))
  {
    hide IsSpace;
    if start < end && IsSpace(runes[end - 1]) { LastTextIs(runes, start, end - 1); }
  }

  /** Trimming cuts off blanks only, and what remains begins and ends with text. */
  lemma TrimmedIs(runes: string, start: nat, end: nat)
    requires start <= end <= |runes|
    ensures var (first, last) := Trimmed(runes, start, end);
      && start <= first <= last <= end && Blank(runes, start, first) && Blank(runes, last, end)
      && (first < last ==> !IsSpace(runes[first]) && !IsSpace(runes[last - 1]))
      && (first == last ==> Blank(runes, start, end))
  {
    hide IsSpace;
    FirstTextIs(runes, start, end);
    LastTextIs(runes, FirstText(runes, start, end), end);
  }

  method TrimRuneRange(runes: string, start: nat, end: nat) returns (first: nat, last: nat)
    requires start <= end <= |runes|
    ensures (first, last) == Trimmed(runes, start, end)
  {
    first, last := start, end;
    while first < last && IsSpace(runes[first])
      invariant start <= first <= end
      invariant FirstText(runes, first, end) == FirstText(runes, start, end)
    {
      first := first + 1;
    }
    while last > first && IsSpace(runes[last - 1])
      invariant first <= last <= end
      invariant LastText(runes, first, last) == LastText(runes, first, end)
    {
      last := last - 1;
    }
  }

  // ---------------------------------------------------------------- chunks

  /** Where the window that starts here ends. */
  function WindowEnd(runes: string, o: ChunkOptions, start: nat): (end: nat)
    requires Valid(o) && start < |runes|
    ensures start < end <= |runes| && end <= start + o.maxRunes
    ensures end < |runes| ==> end > start + o.overlapRunes
  {
    if start + o.maxRunes >= |runes| then |runes|
    else
      BoundaryIsBest(runes, start + o.maxRunes / 2, start + o.maxRunes);
      Boundary(runes, start + o.maxRunes / 2, start + o.maxRunes, 0)
  }

  /** A window that does not reach the end of the text is cut in its second half, at the best place there. */
  lemma WindowPrefers(runes: string, o: ChunkOptions, start: nat)
    requires Valid(o) && start + o.maxRunes < |runes|
    ensures Prefers(runes, start + o.maxRunes / 2, start + o.maxRunes, WindowEnd(runes, o, start))
  {
    hide Prefers, Boundary;
    CutPrefers(runes, start + o.maxRunes / 2, start + o.maxRunes);
  }

  /** The chunk of a window, if it holds text. */
  function Piece(runes: string, start: nat, end: nat, ordinal: nat): seq<TextChunk>
    requires start <= end <= |runes|
  {
    var (first, last) := Trimmed(runes, start, end);
    if first < last then [TextChunk(ordinal, runes[first..last], first, last)] else []
  }

  /** The chunks of the windows from here on. */
  function Pieces(runes: string, o: ChunkOptions, start: nat, ordinal: nat): seq<TextChunk>
    requires Valid(o) && start <= |runes|
    decreases |runes| - start
  {
    if start == |runes| then []
    else
      var end := WindowEnd(runes, o, start);
      var piece := Piece(runes, start, end, ordinal);
      if end == |runes| then piece
      else piece + Pieces(runes, o, end - o.overlapRunes, ordinal + |piece|)
  }

  method ChunkText(input: string, o: ChunkOptions) returns (r: Result<seq<TextChunk>, ChunkError>)
    ensures r == Err(SizeTooSmall) <==> o.maxRunes < 100
    ensures r == Err(BadOverlap) <==> o.maxRunes >= 100 && !Valid(o)
    ensures r == Err(NoText) <==> Valid(o) && !HasText(input)
    ensures r.Ok? ==> Valid(o) && r.value == Pieces(Normalized(input), o, 0, 0)
  {
    hide IsSpace, Normalized, HasText, Boundary, Pieces, WindowEnd, Piece, PieceOf, Trimmed;
    if o.maxRunes < 100 { return Err(SizeTooSmall); }
    if o.overlapRunes < 0 || o.overlapRunes >= o.maxRunes / 2 { return Err(BadOverlap); }
    var runes := Normalized(input);
    var start, ordinal := 0, 0;
    var chunks: seq<TextChunk> := [];
    assert chunks + Pieces(runes, o, 0, 0) == Pieces(runes, o, 0, 0);
    while start < |runes|
      invariant 0 <= start <= |runes| && ordinal == |chunks|
      invariant chunks + Pieces(runes, o, start, ordinal) == Pieces(runes, o, 0, 0)
      decreases |runes| - start
    {
      ghost var at, piece, following, rest := PiecesStep(runes, o, start, ordinal);
      var end := start + o.maxRunes;
      if end >= |runes| {
        end := |runes|;
      } else {
        end := FindBoundary(runes, start + o.maxRunes / 2, end);
      }
      assert end == at by { WindowEndIs(runes, o, start); }
      ghost var before := chunks;
      var first, last := TrimRuneRange(runes, start, end);
      PieceFrom(runes, start, end, ordinal, first, last);
      if first < last {
        chunks := chunks + [TextChunk(ordinal, runes[first..last], first, last)];
        ordinal := ordinal + 1;
      }
      assert chunks == before + piece && before + (piece + rest) == chunks + rest;
      if end == |runes| {
        assert chunks + rest == chunks;
        break;
      }
      var next := end - o.overlapRunes;
      if next <= start { next := end; }
      start := next;
    }
    PiecesEnd(runes, o, ordinal);
    assert chunks + [] == chunks && chunks == Pieces(runes, o, 0, 0);
    NormalizedKeepsText(input);
    TextHasPiece(runes, o);
    if |chunks| == 0 { return Err(NoText); }
    r := Ok(chunks);
  }

  lemma WindowEndIs(runes: string, o: ChunkOptions, start: nat)
    requires Valid(o) && start < |runes|
    ensures WindowEnd(runes, o, start) ==
      if start + o.maxRunes >= |runes| then |runes| else Boundary(runes, start + o.maxRunes / 2, start + o.maxRunes, 0)
  {
    hide Boundary;
  }

  lemma PieceFrom(runes: string, start: nat, end: nat, ordinal: nat, first: nat, last: nat)
    requires start <= end <= |runes| && (first, last) == Trimmed(runes, start, end)
    ensures first <= last <= |runes|
    ensures Piece(runes, start, end, ordinal) == if first < last
      then [TextChunk(ordinal, runes[first..last], first, last)] else []
  {
    TrimmedIs(runes, start, end);
    hide Trimmed;
  }

  // ---------------------------------------------------------------- what the chunks are

  /** A chunk's limits: its slice of the text, its size, and text at both ends. */
  predicate WellCut(runes: string, o: ChunkOptions, c: TextChunk) {
    && c.startRune < c.endRune <= |runes| && c.endRune - c.startRune <= o.maxRunes
    && c.content == runes[c.startRune..c.endRune]
    && !IsSpace(runes[c.startRune]) && !IsSpace(runes[c.endRune - 1])
  }

  /** What the chunk of a window is, if there is one. */
  predicate PieceOf(runes: string, o: ChunkOptions, piece: seq<TextChunk>, start: nat, end: nat, ordinal: nat) {
    && start <= end <= |runes|
    && |piece| <= 1
    && (piece == [] ==> Blank(runes, start, end))
    && (piece != [] ==>
          && WellCut(runes, o, piece[0]) && piece[0].ordinal == ordinal && start <= piece[0].startRune
               && piece[0].endRune <= end
          && Blank(runes, start, piece[0].startRune) && Blank(runes, piece[0].endRune, end))
  }

  lemma PieceIs(runes: string, o: ChunkOptions, start: nat, end: nat, ordinal: nat)
    requires start <= end <= |runes| && end - start <= o.maxRunes
    ensures PieceOf(runes, o, Piece(runes, start, end, ordinal), start, end, ordinal)
  {
    hide IsSpace;
    TrimmedIs(runes, start, end);
  }

  lemma PiecesEnd(runes: string, o: ChunkOptions, ordinal: nat)
    requires Valid(o)
    ensures Pieces(runes, o, |runes|, ordinal) == []
  {
  }

  lemma PiecesUnfold(runes: string, o: ChunkOptions, start: nat, ordinal: nat, end: nat)
    requires Valid(o) && start < |runes| && end == WindowEnd(runes, o, start)
    ensures var piece := Piece(runes, start, end, ordinal);
      Pieces(runes, o, start, ordinal) ==
      if end == |runes| then piece else piece + Pieces(runes, o, end - o.overlapRunes, ordinal + |piece|)
  {
    hide WindowEnd, Piece;
  }

  /** The first window, its chunk, and the chunks after it. */
  lemma PiecesStep(runes: string, o: ChunkOptions, start: nat, ordinal: nat)
    returns (end: nat, piece: seq<TextChunk>, next: nat, rest: seq<TextChunk>)
    requires Valid(o) && start < |runes|
    ensures end == WindowEnd(runes, o, start) && piece == Piece(runes, start, end, ordinal)
    ensures start < next <= |runes| && next == (if end == |runes| then end else end - o.overlapRunes)
    ensures rest == Pieces(runes, o, next, ordinal + |piece|)
    ensures PieceOf(runes, o, piece, start, end, ordinal)
    ensures Pieces(runes, o, start, ordinal) == piece + rest
    ensures end == |runes| ==> rest == []
  {
    hide WindowEnd, Piece, PieceOf, Pieces;
    end := WindowEnd(runes, o, start);
    PieceIs(runes, o, start, end, ordinal);
    PiecesUnfold(runes, o, start, ordinal, end);
    PiecesEnd(runes, o, ordinal + |Piece(runes, start, end, ordinal)|);
    piece := Piece(runes, start, end, ordinal);
    next := if end == |runes| then end else end - o.overlapRunes;
    rest := Pieces(runes, o, next, ordinal + |piece|);
  }

  predicate Numbered(runes: string, o: ChunkOptions, chunks: seq<TextChunk>, start: nat, ordinal: nat) {
    forall i | 0 <= i < |chunks| ::
      WellCut(runes, o, chunks[i]) && chunks[i].ordinal == ordinal + i && start <= chunks[i].startRune
  }

  lemma NumberedAppend(runes: string, o: ChunkOptions, a: seq<TextChunk>, b: seq<TextChunk>, start: nat, later: nat,
      ordinal: nat)
    requires Numbered(runes, o, a, start, ordinal) && Numbered(runes, o, b, later, ordinal + |a|) && start <= later
    ensures Numbered(runes, o, a + b, start, ordinal)
  {
    hide WellCut;
  }

  /** Every chunk is well cut and lies from the start on, and the ordinals count up. */
  lemma {:induction false} PiecesWellCut(runes: string, o: ChunkOptions, start: nat, ordinal: nat)
    requires Valid(o) && start <= |runes|
    ensures Numbered(runes, o, Pieces(runes, o, start, ordinal), start, ordinal)
    decreases |runes| - start
  {
    hide Valid, WindowEnd, Piece, Pieces, PieceOf, Numbered;
    if start < |runes| {
      var end, piece, next, rest := PiecesStep(runes, o, start, ordinal);
      PiecesWellCut(runes, o, next, ordinal + |piece|);
      PieceNumbered(runes, o, piece, start, end, ordinal);
      NumberedAppend(runes, o, piece, rest, start, next, ordinal);
    } else {
      PiecesEnd(runes, o, ordinal);
      NothingNumbered(runes, o, start, ordinal);
    }
  }

  lemma NothingNumbered(runes: string, o: ChunkOptions, start: nat, ordinal: nat)
    ensures Numbered(runes, o, [], start, ordinal) && Overlaps(o, [])
  {
  }

  lemma PieceNumbered(runes: string, o: ChunkOptions, piece: seq<TextChunk>, start: nat, end: nat, ordinal: nat)
    requires PieceOf(runes, o, piece, start, end, ordinal)
    ensures Numbered(runes, o, piece, start, ordinal)
  {
  }

  /** Consecutive chunks share at most the overlap, and do not go back. */
  predicate Overlaps(o: ChunkOptions, chunks: seq<TextChunk>) {
    forall i | 0 <= i < |chunks| - 1 ::
      chunks[i].startRune <= chunks[i + 1].startRune && chunks[i].endRune - chunks[i + 1].startRune <= o.overlapRunes
  }

  lemma OverlapsPrepend(o: ChunkOptions, c: TextChunk, rest: seq<TextChunk>)
    requires Overlaps(o, rest)
    requires rest != [] ==> c.startRune <= rest[0].startRune && c.endRune - rest[0].startRune <= o.overlapRunes
    ensures Overlaps(o, [c] + rest)
  {
    var all := [c] + rest;
    forall i | 0 <= i < |all| - 1
      ensures all[i].startRune <= all[i + 1].startRune && all[i].endRune - all[i + 1].startRune <= o.overlapRunes
    {
      assert all[i + 1] == rest[i];
      if i > 0 { assert all[i] == rest[i - 1]; }
    }
  }

  lemma OverlapsStep(runes: string, o: ChunkOptions, piece: seq<TextChunk>, start: nat, end: nat, ordinal: nat,
      next: nat, rest: seq<TextChunk>)
    requires PieceOf(runes, o, piece, start, end, ordinal) && start < next && next >= end - o.overlapRunes
    requires Overlaps(o, rest) && Numbered(runes, o, rest, next, ordinal + |piece|)
    ensures Overlaps(o, piece + rest)
  {
    hide IsSpace, Overlaps;
    if piece == [] {
      assert piece + rest == rest;
    } else {
      if rest != [] { assert WellCut(runes, o, rest[0]) && next <= rest[0].startRune; }
      OverlapsPrepend(o, piece[0], rest);
      assert piece == [piece[0]];
    }
  }

  lemma {:induction false} PiecesOverlap(runes: string, o: ChunkOptions, start: nat, ordinal: nat)
    requires Valid(o) && start <= |runes|
    ensures Overlaps(o, Pieces(runes, o, start, ordinal))
    decreases |runes| - start
  {
    hide WindowEnd, Piece, Pieces, PieceOf, Numbered, Overlaps;
    if start < |runes| {
      var end, piece, next, rest := PiecesStep(runes, o, start, ordinal);
      PiecesOverlap(runes, o, next, ordinal + |piece|);
      PiecesWellCut(runes, o, next, ordinal + |piece|);
      OverlapsStep(runes, o, piece, start, end, ordinal, next, rest);
    } else {
      PiecesEnd(runes, o, ordinal);
      NothingNumbered(runes, o, start, ordinal);
    }
  }

  /** Between two chunks lies the end of a window, and the next chunk begins with the text from the overlap before that
      end on: blanks aside, no more and no less is repeated. */
  ghost predicate Repeats(runes: string, o: ChunkOptions, chunks: seq<TextChunk>) {
    forall i | 0 <= i < |chunks| - 1 :: Follows(runes, o, chunks[i], chunks[i + 1])
  }

  ghost predicate Follows(runes: string, o: ChunkOptions, c: TextChunk, d: TextChunk) {
    exists end | c.endRune <= end < |runes| ::
      Blank(runes, c.endRune, end) && o.overlapRunes <= end && d.startRune <= |runes|
      && end - o.overlapRunes <= d.startRune && Blank(runes, end - o.overlapRunes, d.startRune)
  }

  /** The first chunk from a place on begins with the first text from there on. */
  lemma {:induction false} FirstIsNext(runes: string, o: ChunkOptions, start: nat, ordinal: nat)
    requires Valid(o) && start <= |runes| && Pieces(runes, o, start, ordinal) != []
    ensures var first := Pieces(runes, o, start, ordinal)[0].startRune;
      start <= first <= |runes| && Blank(runes, start, first)
    decreases |runes| - start
  {
    hide WindowEnd, Piece, Pieces, IsSpace;
    if start < |runes| {
      var end, piece, next, rest := PiecesStep(runes, o, start, ordinal);
      if piece == [] { FirstIsNext(runes, o, next, ordinal); }
    } else {
      PiecesEnd(runes, o, ordinal);
    }
  }

  lemma {:induction false} PiecesRepeat(runes: string, o: ChunkOptions, start: nat, ordinal: nat)
    requires Valid(o) && start <= |runes|
    ensures Repeats(runes, o, Pieces(runes, o, start, ordinal))
    decreases |runes| - start
  {
    hide WindowEnd, Piece, Pieces, IsSpace, Follows;
    if start < |runes| {
      var end, piece, next, rest := PiecesStep(runes, o, start, ordinal);
      PiecesRepeat(runes, o, next, ordinal + |piece|);
      if piece != [] && rest != [] {
        FirstIsNext(runes, o, next, ordinal + |piece|);
        FollowsAt(runes, o, piece[0], rest[0], end);
        assert piece + rest == [piece[0]] + rest;
        RepeatsPrepend(runes, o, piece[0], rest);
      } else {
        assert piece + rest == rest || piece + rest == piece;
      }
    } else {
      PiecesEnd(runes, o, ordinal);
    }
  }

  lemma FollowsAt(runes: string, o: ChunkOptions, c: TextChunk, d: TextChunk, end: nat)
    requires c.endRune <= end < |runes| && Blank(runes, c.endRune, end) && 0 <= o.overlapRunes <= end
    requires end - o.overlapRunes <= d.startRune <= |runes| && Blank(runes, end - o.overlapRunes, d.startRune)
    ensures Follows(runes, o, c, d)
  {
    hide Blank;
  }

  lemma RepeatsPrepend(runes: string, o: ChunkOptions, c: TextChunk, rest: seq<TextChunk>)
    requires Repeats(runes, o, rest) && rest != [] && Follows(runes, o, c, rest[0])
    ensures Repeats(runes, o, [c] + rest)
  {
    hide Follows;
    var all := [c] + rest;
    forall i | 0 <= i < |all| - 1 ensures Follows(runes, o, all[i], all[i + 1]) {
      assert all[i + 1] == rest[i];
      if i > 0 { assert all[i] == rest[i - 1] && Follows(runes, o, rest[i - 1], rest[i]); }
    }
  }

  predicate Covered(chunks: seq<TextChunk>, p: nat) {
    exists i | 0 <= i < |chunks| :: chunks[i].startRune <= p < chunks[i].endRune
  }

  lemma CoveredAppend(a: seq<TextChunk>, b: seq<TextChunk>, p: nat)
    requires Covered(a, p) || Covered(b, p)
    ensures Covered(a + b, p)
  {
    if Covered(a, p) {
      var i :| 0 <= i < |a| && a[i].startRune <= p < a[i].endRune;
      assert (a + b)[i] == a[i];
    } else {
      var i :| 0 <= i < |b| && b[i].startRune <= p < b[i].endRune;
      assert (a + b)[|a| + i] == b[i];
    }
  }

  /** No rune that is not white space is left out. */
  lemma {:induction false} PiecesCover(runes: string, o: ChunkOptions, start: nat, ordinal: nat, p: nat)
    requires Valid(o) && start <= p < |runes| && !IsSpace(runes[p])
    ensures Covered(Pieces(runes, o, start, ordinal), p)
    decreases |runes| - start
  {
    hide WindowEnd, Piece, Pieces, IsSpace, Covered, PieceOf;
    var end, piece, next, rest := PiecesStep(runes, o, start, ordinal);
    if p < end {
      PieceCovers(runes, o, piece, start, end, ordinal, p);
    } else {
      PiecesCover(runes, o, next, ordinal + |piece|, p);
    }
    CoveredAppend(piece, rest, p);
  }

  lemma PieceCovers(runes: string, o: ChunkOptions, piece: seq<TextChunk>, start: nat, end: nat, ordinal: nat, p: nat)
    requires PieceOf(runes, o, piece, start, end, ordinal) && start <= p < end && !IsSpace(runes[p])
    ensures Covered(piece, p)
  {
    hide IsSpace;
    assert piece != [] ==> piece[0].startRune <= p < piece[0].endRune;
  }

  lemma TextHasPiece(runes: string, o: ChunkOptions)
    requires Valid(o)
    ensures Pieces(runes, o, 0, 0) == [] <==> !HasText(runes)
  {
    if HasText(runes) {
      var p :| 0 <= p < |runes| && !IsSpace(runes[p]);
      PiecesCover(runes, o, 0, 0, p);
    }
    PiecesWellCut(runes, o, 0, 0);
    hide Pieces, IsSpace;
    if Pieces(runes, o, 0, 0) != [] { assert WellCut(runes, o, Pieces(runes, o, 0, 0)[0]); }
  }

  /** The chunks of a text: numbered from zero, well cut, overlapping by no more than asked for, and covering
      all of the text. */
  lemma ChunksAreSound(runes: string, o: ChunkOptions)
    requires Valid(o)
    ensures var chunks := Pieces(runes, o, 0, 0);
      && Numbered(runes, o, chunks, 0, 0)
      && Overlaps(o, chunks)
      && (forall p: nat | p < |runes| && !IsSpace(runes[p]) :: Covered(chunks, p))
  {
    PiecesWellCut(runes, o, 0, 0);
    PiecesOverlap(runes, o, 0, 0);
    hide Pieces, IsSpace, WellCut, Overlaps, Covered, Numbered;
    forall p: nat | p < |runes| && !IsSpace(runes[p]) ensures Covered(Pieces(runes, o, 0, 0), p) {
      PiecesCover(runes, o, 0, 0, p);
    }
  }
}
