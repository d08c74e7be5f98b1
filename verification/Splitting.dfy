/**
  `split_message`: cutting a message body into chunks that Telegram accepts.

  `Split` is the specification; the method `SplitMessage` keeps the loops of
  `telegram.rs` and is proved equal to it. The lemmas say what a reader of the chat
  sees: nothing lost, nothing too long, no needless chunk, no short line cut.
*/
module Splitting {

  // ----- vocabulary -----

  function Concat(parts: seq<string>): string {
    if parts == [] then "" else parts[0] + Concat(parts[1..])
  }

  /** Length of the first line of `text`, its newline included. */
  function LineLength(text: string): (n: nat)
    requires text != ""
    ensures 1 <= n <= |text|
    ensures forall i :: 0 <= i < n - 1 ==> text[i] != '\n'
    ensures n == |text| || text[n - 1] == '\n'
  {
    if text[0] == '\n' || |text| == 1 then 1 else 1 + LineLength(text[1..])
  }

  predicate NoneEmpty(lines: seq<string>) {
    forall i :: 0 <= i < |lines| ==> lines[i] != ""
  }

  /** The lines of `text`, each with its terminating newline. */
  function Lines(text: string): (lines: seq<string>)
    ensures NoneEmpty(lines)
    ensures text != "" ==> lines != []
  {
    if text == "" then []
    else
      var n := LineLength(text);
      [text[..n]] + Lines(text[n..])
  }

  /** The pieces of exactly `limit` characters cut from the front of `s`. */
  function Pieces(s: string, limit: nat): seq<string> {
    if limit == 0 || |s| < limit then [] else [s[..limit]] + Pieces(s[limit..], limit)
  }

  /** What is left of `s` after cutting `Pieces`. */
  function Rest(s: string, limit: nat): (r: string)
    ensures limit > 0 ==> |r| < limit
  {
    if limit == 0 || |s| < limit then s else Rest(s[limit..], limit)
  }

  function Flushed(current: string): seq<string> {
    if current == "" then [] else [current]
  }

  /** The chunks still to be produced from `lines`, with `current` half full. */
  function SplitLines(lines: seq<string>, limit: nat, current: string): seq<string> {
    if lines == [] then Flushed(current)
    else if |lines[0]| > limit then
      Flushed(current) + Pieces(lines[0], limit) + SplitLines(lines[1..], limit, Rest(lines[0], limit))
    else if |current| + |lines[0]| > limit then
      [current] + SplitLines(lines[1..], limit, lines[0])
    else
      SplitLines(lines[1..], limit, current + lines[0])
  }

  function Split(text: string, limit: nat): seq<string> {
    if |text| <= limit then [text] else SplitLines(Lines(text), limit, "")
  }

  // ----- the loops -----

  /** Pushing one more character either completes a piece or extends the rest. */
  lemma {:induction false} PushCharacter(s: string, ch: char, limit: nat)
    ensures var piece := Rest(s, limit) + [ch];
            if |piece| == limit
            then Pieces(s + [ch], limit) == Pieces(s, limit) + [piece] && Rest(s + [ch], limit) == ""
            else Pieces(s + [ch], limit) == Pieces(s, limit) && Rest(s + [ch], limit) == piece
  {
    if limit == 0 {
    } else if |s| < limit {
      if |s| + 1 == limit {
        assert (s + [ch])[..limit] == s + [ch];
        assert (s + [ch])[limit..] == "";
      }
    } else {
      PushCharacter(s[limit..], ch, limit);
      assert (s + [ch])[..limit] == s[..limit];
      assert (s + [ch])[limit..] == s[limit..] + [ch];
    }
  }

  /** One turn of the outer loop leaves the final list of chunks unchanged. */
  lemma SplitLinesStep(done: seq<string>, lines: seq<string>, limit: nat, current: string)
    requires lines != []
    ensures done + SplitLines(lines, limit, current) ==
            if |lines[0]| > limit then
              done + Flushed(current) + Pieces(lines[0], limit) + SplitLines(lines[1..], limit, Rest(lines[0], limit))
            else if |current| + |lines[0]| > limit then
              done + [current] + SplitLines(lines[1..], limit, lines[0])
            else
              done + SplitLines(lines[1..], limit, current + lines[0])
  {
  }

  /** The inner loop: hard-split a line that is longer than the limit. */
  method HardSplit(line: string, limit: nat, done: seq<string>)
    returns (chunks: seq<string>, piece: string, pieceLen: nat)
    ensures chunks == done + Pieces(line, limit)
    ensures piece == Rest(line, limit) && pieceLen == |piece|
  {
    chunks, piece, pieceLen := done, "", 0;
    for j := 0 to |line|
      invariant pieceLen == |piece| && piece == Rest(line[..j], limit)
      invariant chunks == done + Pieces(line[..j], limit)
    {
      PushCharacter(line[..j], line[j], limit);
      assert line[..j + 1] == line[..j] + [line[j]];
      piece := piece + [line[j]];
      pieceLen := pieceLen + 1;
      if pieceLen == limit {
        chunks := chunks + [piece];
        piece := "";
        pieceLen := 0;
      }
    }
    assert line[..|line|] == line;
  }

  /** The body of the outer loop: one line goes into the chunks. */
  method AddLine(line: string, limit: nat, done: seq<string>, held: string)
    returns (chunks: seq<string>, current: string)
    ensures |line| > limit ==> chunks == done + Flushed(held) + Pieces(line, limit) && current == Rest(line, limit)
    ensures |line| <= limit < |held| + |line| ==> chunks == done + [held] && current == line
    ensures |held| + |line| <= limit ==> chunks == done && current == held + line
  {
    chunks, current := done, held;
    var currentLen, lineLen := |current|, |line|;
    if lineLen > limit {
      if currentLen > 0 {
        chunks := chunks + [current];
        current := "";
        currentLen := 0;
      }
      var piece, pieceLen;
      chunks, piece, pieceLen := HardSplit(line, limit, chunks);
      if pieceLen > 0 {
        current := piece;
      }
    } else {
      if currentLen + lineLen > limit {
        chunks := chunks + [current];
        current := "";
      }
      current := current + line;
    }
  }

  method SplitMessage(text: string, limit: nat) returns (chunks: seq<string>)
    ensures chunks == Split(text, limit)
  {
    if |text| <= limit {
      return [text];
    }
    chunks := [];
    var current := "";
    var lines := Lines(text);
    ghost var goal := SplitLines(lines, limit, "");
    for i := 0 to |lines|
      invariant chunks + SplitLines(lines[i..], limit, current) == goal
    {
      assert lines[i..][0] == lines[i] && lines[i..][1..] == lines[i + 1..];
      SplitLinesStep(chunks, lines[i..], limit, current);
      chunks, current := AddLine(lines[i], limit, chunks, current);
    }
    assert lines[|lines|..] == [];
    if current != "" {
      chunks := chunks + [current];
    }
  }

  // ----- nothing is lost -----

  lemma {:induction false} ConcatAppend(a: seq<string>, b: seq<string>)
    ensures Concat(a + b) == Concat(a) + Concat(b)
  {
    if a == [] {
      assert a + b == b;
    } else {
      calc {
        Concat(a + b);
        { assert (a + b)[0] == a[0] && (a + b)[1..] == a[1..] + b; }
        a[0] + Concat(a[1..] + b);
        { ConcatAppend(a[1..], b); }
        a[0] + (Concat(a[1..]) + Concat(b));
        Concat(a) + Concat(b);
      }
    }
  }

  /** Total number of characters of `parts`. */
  function Size(parts: seq<string>): nat {
    if parts == [] then 0 else |parts[0]| + Size(parts[1..])
  }

  lemma {:induction false} SizeIsLength(parts: seq<string>)
    ensures Size(parts) == |Concat(parts)|
  {
    if parts == [] {
    } else {
      SizeIsLength(parts[1..]);
    }
  }

  lemma {:induction false} SizeAppend(a: seq<string>, b: seq<string>)
    ensures Size(a + b) == Size(a) + Size(b)
  {
    if a == [] {
      assert a + b == b;
    } else {
      SizeAppend(a[1..], b);
      assert (a + b)[1..] == a[1..] + b;
    }
  }

  lemma SizeOfPrefix(a: seq<string>, b: seq<string>, j: nat)
    requires j <= |a| + |b|
    ensures Size((a + b)[..j]) == if j <= |a| then Size(a[..j]) else Size(a) + Size(b[..j - |a|])
  {
    if j <= |a| {
      assert (a + b)[..j] == a[..j];
    } else {
      assert (a + b)[..j] == a + b[..j - |a|];
      SizeAppend(a, b[..j - |a|]);
    }
  }

  lemma {:induction false} LinesConcat(text: string)
    ensures Concat(Lines(text)) == text
  {
    if text == "" {
    } else {
      var n := LineLength(text);
      var rest := text[n..];
      LinesConcat(rest);
      calc {
        Concat(Lines(text));
        { LinesStep(text); }
        Lines(text)[0] + Concat(Lines(rest));
        text[..n] + rest;
        text;
      }
    }
  }

  lemma LinesStep(text: string)
    requires text != ""
    ensures var n := LineLength(text);
            Lines(text) != [] && Lines(text)[0] == text[..n] && Lines(text)[1..] == Lines(text[n..])
  {
  }

  lemma {:induction false} PiecesConcat(s: string, limit: nat)
    ensures Concat(Pieces(s, limit)) + Rest(s, limit) == s
  {
    if limit == 0 || |s| < limit {
    } else {
      PiecesConcat(s[limit..], limit);
      assert ([s[..limit]] + Pieces(s[limit..], limit))[1..] == Pieces(s[limit..], limit);
    }
  }

  lemma {:induction false} SplitLinesConcat(lines: seq<string>, limit: nat, current: string)
    ensures Concat(SplitLines(lines, limit, current)) == current + Concat(lines)
  {
    if lines == [] {
    } else if |lines[0]| > limit {
      var pieces, rest := Pieces(lines[0], limit), Rest(lines[0], limit);
      var tail := SplitLines(lines[1..], limit, rest);
      calc {
        Concat(Flushed(current) + pieces + tail);
        { ConcatAppend(Flushed(current) + pieces, tail); ConcatAppend(Flushed(current), pieces); }
        Concat(Flushed(current)) + Concat(pieces) + Concat(tail);
        { assert Concat(Flushed(current)) == current; SplitLinesConcat(lines[1..], limit, rest); }
        current + Concat(pieces) + (rest + Concat(lines[1..]));
        { Regroup(current, Concat(pieces), rest, Concat(lines[1..])); }
        current + ((Concat(pieces) + rest) + Concat(lines[1..]));
        { PiecesConcat(lines[0], limit); }
        current + Concat(lines);
      }
    } else if |current| + |lines[0]| > limit {
      SplitLinesConcat(lines[1..], limit, lines[0]);
      assert ([current] + SplitLines(lines[1..], limit, lines[0]))[1..] == SplitLines(lines[1..], limit, lines[0]);
    } else {
      SplitLinesConcat(lines[1..], limit, current + lines[0]);
      Regroup(current, lines[0], Concat(lines[1..]), "");
    }
  }

  lemma Regroup(a: string, b: string, c: string, d: string)
    ensures a + b + (c + d) == a + ((b + c) + d)
  {
  }

  /** The chunks read one after the other are the text, whatever the limit. */
  lemma SplitConcat(text: string, limit: nat)
    ensures Concat(Split(text, limit)) == text
  {
    SplitLinesConcat(Lines(text), limit, "");
    LinesConcat(text);
  }

  // ----- nothing is too long, and no chunk is wasted -----

  /** Every chunk is non-empty and fits, and no two neighbours would fit together. */
  ghost predicate WellPacked(chunks: seq<string>, limit: nat) {
    && (forall i :: 0 <= i < |chunks| ==> 1 <= |chunks[i]| <= limit)
    && (forall i :: 0 < i < |chunks| ==> |chunks[i - 1]| + |chunks[i]| > limit)
  }

  lemma {:induction false} PiecesAreFull(s: string, limit: nat)
    requires limit > 0
    ensures forall i :: 0 <= i < |Pieces(s, limit)| ==> |Pieces(s, limit)[i]| == limit
    ensures |s| >= limit ==> Pieces(s, limit) != []
  {
    if |s| < limit {
    } else {
      PiecesAreFull(s[limit..], limit);
    }
  }

  lemma {:induction false} SplitLinesPacked(lines: seq<string>, limit: nat, current: string)
    requires limit >= 1 && |current| <= limit
    requires NoneEmpty(lines)
    ensures var r := SplitLines(lines, limit, current);
            && WellPacked(r, limit)
            && (current != "" ==> r != [] && current <= r[0])
            && (current == "" && lines != [] ==> r != [] && |r[0]| >= if |lines[0]| > limit then limit else |lines[0]|)
  {
    if lines == [] {
    } else if |lines[0]| > limit {
      var front := Flushed(current) + Pieces(lines[0], limit);
      SplitLinesPacked(lines[1..], limit, Rest(lines[0], limit));
      PiecesAreFull(lines[0], limit);
      JoinPacked(Flushed(current), Pieces(lines[0], limit), limit);
      JoinPacked(front, SplitLines(lines[1..], limit, Rest(lines[0], limit)), limit);
    } else if |current| + |lines[0]| > limit {
      SplitLinesPacked(lines[1..], limit, lines[0]);
      JoinPacked([current], SplitLines(lines[1..], limit, lines[0]), limit);
    } else {
      SplitLinesPacked(lines[1..], limit, current + lines[0]);
    }
  }

  lemma JoinPacked(a: seq<string>, b: seq<string>, limit: nat)
    requires WellPacked(a, limit) && WellPacked(b, limit)
    requires a != [] && b != [] ==> |a[|a| - 1]| + |b[0]| > limit
    ensures WellPacked(a + b, limit)
  {
  }

  /** A text over the limit is split into well-packed chunks; any other is left whole. */
  lemma SplitPacked(text: string, limit: nat)
    requires limit >= 1
    ensures forall i :: 0 <= i < |Split(text, limit)| ==> |Split(text, limit)[i]| <= limit
    ensures |text| > limit ==> WellPacked(Split(text, limit), limit)
    ensures |text| <= limit ==> Split(text, limit) == [text]
  {
    if |text| > limit {
      SplitLinesPacked(Lines(text), limit, "");
    }
  }

  /** A text is left in one piece exactly when it fits the limit. */
  lemma OneChunkExactly(text: string, limit: nat)
    requires limit >= 1
    ensures |Split(text, limit)| == 1 <==> |text| <= limit
  {
    var chunks := Split(text, limit);
    SplitPacked(text, limit);
    SplitConcat(text, limit);
    if |chunks| == 1 {
      assert chunks[1..] == [];
      assert Concat(chunks) == chunks[0];
    }
  }

  lemma {:induction false} PackedWeight(chunks: seq<string>, limit: nat)
    requires WellPacked(chunks, limit)
    ensures |chunks| / 2 * (limit + 1) <= Size(chunks)
  {
    if |chunks| < 2 {
    } else {
      var tail := chunks[2..];
      assert WellPacked(tail, limit) by {
        assert forall i :: 0 <= i < |tail| ==> tail[i] == chunks[i + 2];
      }
      PackedWeight(tail, limit);
      assert chunks[1..][0] == chunks[1] && chunks[1..][1..] == tail;
      assert |chunks[0]| + |chunks[1]| > limit;
      Distribute(|tail| / 2, limit + 1);
    }
  }

  lemma Distribute(half: nat, weight: nat)
    ensures (half + 1) * weight == half * weight + weight
  {
  }

  lemma QuotientBound(half: nat, limit: nat, n: nat)
    requires half * (limit + 1) <= n
    ensures half <= n / (limit + 1)
  {
    var q := n / (limit + 1);
    if half > q {
      Monotone(q + 1, half, limit + 1);
      assert false;
    }
  }

  lemma Monotone(a: nat, b: nat, w: nat)
    requires a <= b
    ensures a * w <= b * w
  {
  }

  /** How many API calls a body of n characters can cost. */
  lemma SplitCount(text: string, limit: nat)
    requires limit >= 1
    ensures 1 <= |Split(text, limit)| <= 2 * (|text| / (limit + 1)) + 1
  {
    if |text| > limit {
      SplitPacked(text, limit);
      SplitConcat(text, limit);
      assert Split(text, limit) != [];
      PackedWeight(Split(text, limit), limit);
      SizeIsLength(Split(text, limit));
      QuotientBound(|Split(text, limit)| / 2, limit, |text|);
    }
  }

  // ----- no line that fits is ever cut -----

  /** `text[a..b]` is one whole line of `text`. */
  ghost predicate IsLine(text: string, a: nat, b: nat) {
    && a < b <= |text|
    && (a == 0 || text[a - 1] == '\n')
    && (b == |text| || text[b - 1] == '\n')
    && (forall i :: a <= i < b - 1 ==> text[i] != '\n')
  }

  /** Position `p` of the concatenated lines is a line start, the end, or inside a line over the limit. */
  ghost predicate CutAllowed(lines: seq<string>, limit: nat, p: int) {
    || p == 0
    || (lines != [] && 0 < p < |lines[0]| && |lines[0]| > limit)
    || (lines != [] && p >= |lines[0]| && CutAllowed(lines[1..], limit, p - |lines[0]|))
  }

  /** Every boundary between two of `chunks`, counted from `held` characters on, is allowed. */
  ghost predicate CutsAllowed(chunks: seq<string>, lines: seq<string>, limit: nat, held: nat) {
    forall j :: 0 < j < |chunks| ==> CutAllowed(lines, limit, Size(chunks[..j]) - held)
  }

  lemma {:induction false} SplitLinesCuts(lines: seq<string>, limit: nat, current: string)
    requires limit >= 1 && |current| <= limit
    requires NoneEmpty(lines)
    ensures CutsAllowed(SplitLines(lines, limit, current), lines, limit, |current|)
  {
    if lines == [] {
    } else if |lines[0]| > limit {
      var tail := SplitLines(lines[1..], limit, Rest(lines[0], limit));
      SplitLinesCuts(lines[1..], limit, Rest(lines[0], limit));
      SplitLinesPacked(lines[1..], limit, Rest(lines[0], limit));
      LongLineCuts(lines, limit, current, tail);
    } else if |current| + |lines[0]| > limit {
      SplitLinesCuts(lines[1..], limit, lines[0]);
      FlushCuts(lines, limit, current);
    } else {
      var r := SplitLines(lines[1..], limit, current + lines[0]);
      SplitLinesCuts(lines[1..], limit, current + lines[0]);
      SplitLinesPacked(lines[1..], limit, current + lines[0]);
      forall j | 0 < j < |r| ensures CutAllowed(lines, limit, Size(r[..j]) - |current|) {
        StartsWith(r, j);
        Shift(lines, limit, Size(r[..j]) - |current|);
      }
    }
  }

  lemma StartsWith(chunks: seq<string>, j: nat)
    requires 0 < j <= |chunks|
    ensures Size(chunks[..j]) >= |chunks[0]|
  {
  }

  lemma Shift(lines: seq<string>, limit: nat, p: int)
    requires lines != [] && p >= |lines[0]| && CutAllowed(lines[1..], limit, p - |lines[0]|)
    ensures CutAllowed(lines, limit, p)
  {
  }

  /** Boundaries inside `front` and inside `tail` are the boundaries of `front + tail`. */
  lemma JoinedCuts(lines: seq<string>, limit: nat, front: seq<string>, tail: seq<string>, rest: string, held: nat)
    requires lines != [] && Size(front) - held == |lines[0]| - |rest|
    requires forall j :: 0 < j <= |front| ==> CutAllowed(lines, limit, Size(front[..j]) - held)
    requires CutsAllowed(tail, lines[1..], limit, |rest|)
    requires tail != [] && rest != "" ==> rest <= tail[0]
    ensures CutsAllowed(front + tail, lines, limit, held)
  {
    var r := front + tail;
    forall j | 0 < j < |r| ensures CutAllowed(lines, limit, Size(r[..j]) - held) {
      SizeOfPrefix(front, tail, j);
      if j > |front| {
        TailCut(lines, limit, tail, rest, j - |front|);
      }
    }
  }

  lemma FlushCuts(lines: seq<string>, limit: nat, current: string)
    requires limit >= 1 && |current| <= limit
    requires lines != [] && |lines[0]| <= limit < |current| + |lines[0]|
    requires NoneEmpty(lines)
    requires CutsAllowed(SplitLines(lines[1..], limit, lines[0]), lines[1..], limit, |lines[0]|)
    ensures CutsAllowed(SplitLines(lines, limit, current), lines, limit, |current|)
  {
    var front := [current];
    assert front[..1] == front && Size(front) == |current|;
    SplitLinesPacked(lines[1..], limit, lines[0]);
    JoinedCuts(lines, limit, front, SplitLines(lines[1..], limit, lines[0]), lines[0], |current|);
  }

  /** A long line: cuts before it, inside it, and in the `tail` that starts with its rest. */
  lemma LongLineCuts(lines: seq<string>, limit: nat, current: string, tail: seq<string>)
    requires lines != [] && |lines[0]| > limit
    requires CutsAllowed(tail, lines[1..], limit, |Rest(lines[0], limit)|)
    requires tail != [] && Rest(lines[0], limit) != "" ==> Rest(lines[0], limit) <= tail[0]
    ensures CutsAllowed(Flushed(current) + Pieces(lines[0], limit) + tail, lines, limit, |current|)
  {
    var rest := Rest(lines[0], limit);
    var front := Flushed(current) + Pieces(lines[0], limit);
    FrontSize(lines[0], limit, current);
    forall j | 0 < j <= |front| ensures CutAllowed(lines, limit, Size(front[..j]) - |current|) {
      FrontCut(lines, limit, current, j);
    }
    JoinedCuts(lines, limit, front, tail, rest, |current|);
  }

  lemma TailCut(lines: seq<string>, limit: nat, tail: seq<string>, rest: string, j: nat)
    requires lines != [] && 0 < j < |tail| && (rest != "" ==> rest <= tail[0])
    requires CutsAllowed(tail, lines[1..], limit, |rest|)
    ensures CutAllowed(lines, limit, |lines[0]| - |rest| + Size(tail[..j]))
  {
  }

  lemma FrontSize(line: string, limit: nat, current: string)
    ensures Size(Flushed(current) + Pieces(line, limit)) == |current| + |line| - |Rest(line, limit)|
  {
    SizeAppend(Flushed(current), Pieces(line, limit));
    SizeIsLength(Pieces(line, limit));
    PiecesConcat(line, limit);
  }

  lemma FrontCut(lines: seq<string>, limit: nat, current: string, j: nat)
    requires lines != [] && |lines[0]| > limit
    requires 0 < j <= |Flushed(current) + Pieces(lines[0], limit)|
    ensures CutAllowed(lines, limit, Size((Flushed(current) + Pieces(lines[0], limit))[..j]) - |current|)
  {
    var line := lines[0];
    var front := Flushed(current) + Pieces(line, limit);
    FrontSize(line, limit, current);
    assert front == front[..j] + front[j..];
    SizeAppend(front[..j], front[j..]);
    if current != "" {
      StartsWith(front, j);
    }
    var p := Size(front[..j]) - |current|;
    if p == |line| {
      Shift(lines, limit, p);
    }
  }

  lemma {:induction false} AllowedCutInLine(text: string, limit: nat, done: nat, p: nat, a: nat, b: nat)
    requires IsLine(text, a, b) && done <= a < p < b
    requires CutAllowed(Lines(text[done..]), limit, p - done)
    ensures b - a > limit
    decreases |text| - done
  {
    var end := done + LineLength(text[done..]);
    LineEdges(text, done, a, b);
    FirstCut(text, limit, done, end, p);
    if a > done {
      AllowedCutInLine(text, limit, end, p, a, b);
    }
  }

  /** A cut is either in the line at `done`, which must be over the limit, or in what follows it. */
  lemma FirstCut(text: string, limit: nat, done: nat, end: nat, p: nat)
    requires done < |text| && end == done + LineLength(text[done..])
    requires CutAllowed(Lines(text[done..]), limit, p - done) && p > done
    ensures if p < end then end - done > limit else CutAllowed(Lines(text[end..]), limit, p - end)
  {
    DropDrop(text, done, end);
    CutInFirstLine(text[done..], text[end..], limit, p - done);
  }

  lemma CutInFirstLine(text: string, rest: string, limit: nat, p: nat)
    requires text != "" && rest == text[LineLength(text)..]
    requires CutAllowed(Lines(text), limit, p) && p > 0
    ensures var n := LineLength(text); if p < n then n > limit else CutAllowed(Lines(rest), limit, p - n)
  {
    LinesStep(text);
  }

  lemma DropDrop(text: string, a: nat, b: nat)
    requires a <= b <= |text|
    ensures text[a..][b - a..] == text[b..]
  {
  }

  /** A line that starts at `done` or later either starts there or after the line that does. */
  lemma LineEdges(text: string, done: nat, a: nat, b: nat)
    requires IsLine(text, a, b) && done <= a
    ensures var end := done + LineLength(text[done..]); if a == done then b == end else end <= a
  {
  }

  /**
    A boundary between two chunks lies strictly inside a line only if that line
    alone is over the limit.
  */
  lemma NoFittingLineIsCut(text: string, limit: nat, j: nat, a: nat, b: nat)
    requires limit >= 1
    requires 0 < j < |Split(text, limit)|
    requires IsLine(text, a, b)
    requires a < |Concat(Split(text, limit)[..j])| < b
    ensures b - a > limit
  {
    SplitLinesCuts(Lines(text), limit, "");
    SizeIsLength(Split(text, limit)[..j]);
    assert text[0..] == text;
    AllowedCutInLine(text, limit, 0, |Concat(Split(text, limit)[..j])|, a, b);
  }

  // ----- characters against UTF-16 code units -----

  predicate IsAstral(c: char) {
    c as int > 0xFFFF
  }

  /** Length in UTF-16 code units: two for a character outside the basic plane. */
  function Utf16Length(s: string): nat {
    if s == "" then 0 else (if IsAstral(s[0]) then 2 else 1) + Utf16Length(s[1..])
  }

  /** The characters outside the basic plane. */
  function Astral(s: string): nat {
    if s == "" then 0 else (if IsAstral(s[0]) then 1 else 0) + Astral(s[1..])
  }

  /** Every such character costs one code unit more than counting characters says. */
  lemma {:induction false} Utf16Counts(s: string)
    ensures Utf16Length(s) == |s| + Astral(s) && Astral(s) <= |s|
  {
    if s == "" {
    } else {
      Utf16Counts(s[1..]);
    }
  }

  lemma {:induction false} AstralAppend(a: string, b: string)
    ensures Astral(a + b) == Astral(a) + Astral(b)
  {
    if a == "" {
      assert a + b == b;
    } else {
      assert (a + b)[1..] == a[1..] + b;
      AstralAppend(a[1..], b);
    }
  }

  lemma {:induction false} AstralInChunk(chunks: seq<string>, i: nat)
    requires i < |chunks|
    ensures Astral(chunks[i]) <= Astral(Concat(chunks))
    decreases i
  {
    AstralAppend(chunks[0], Concat(chunks[1..]));
    if i == 0 {
    } else {
      AstralInChunk(chunks[1..], i - 1);
    }
  }

  /** The message meets Telegram's own count: no chunk is over `limit` code units. */
  ghost predicate Fits(text: string, limit: nat) {
    forall i :: 0 <= i < |Split(text, limit)| ==> Utf16Length(Split(text, limit)[i]) <= limit
  }

  /**
    A text sent as one message is within Telegram's limit exactly when its characters
    and its characters outside the basic plane together are.
  */
  lemma OneMessageFits(text: string, limit: nat)
    requires limit >= 1 && |text| <= limit
    ensures Fits(text, limit) <==> |text| + Astral(text) <= limit
  {
    SplitPacked(text, limit);
    Utf16Counts(text);
    assert Split(text, limit)[0] == text;
  }

  /** Counting characters is not conservative: a chunk is only sure to have at most twice the limit in code units. */
  lemma ChunkCodeUnits(text: string, limit: nat, i: nat)
    requires limit >= 1 && i < |Split(text, limit)|
    ensures var chunk := Split(text, limit)[i];
            && Utf16Length(chunk) <= 2 * limit
            && (Utf16Length(chunk) <= limit <==> Astral(chunk) <= limit - |chunk|)
  {
    SplitPacked(text, limit);
    Utf16Counts(Split(text, limit)[i]);
  }

  /** A text of the basic plane always fits, and it alone fits under every limit. */
  lemma BasicPlaneFits(text: string)
    ensures Astral(text) == 0 <==> forall limit: nat :: limit >= 1 ==> Fits(text, limit)
  {
    if Astral(text) == 0 {
      forall limit: nat | limit >= 1 ensures Fits(text, limit) {
        BasicPlaneFitsUnder(text, limit);
      }
    } else {
      SingleCharacters(text);
    }
  }

  lemma BasicPlaneFitsUnder(text: string, limit: nat)
    requires limit >= 1 && Astral(text) == 0
    ensures Fits(text, limit)
  {
    SplitConcat(text, limit);
    SplitPacked(text, limit);
    forall i | 0 <= i < |Split(text, limit)| ensures Utf16Length(Split(text, limit)[i]) <= limit {
      AstralInChunk(Split(text, limit), i);
      Utf16Counts(Split(text, limit)[i]);
    }
  }

  /** Under the limit of one, a character outside the basic plane never fits. */
  lemma SingleCharacters(text: string)
    requires Astral(text) > 0
    ensures !Fits(text, 1)
  {
    var i := AstralChunk(Split(text, 1), text);
    Utf16Counts(Split(text, 1)[i]);
    AstralNonempty(Split(text, 1)[i]);
  }

  lemma AstralNonempty(s: string)
    requires Astral(s) > 0
    ensures |s| >= 1
  {
  }

  lemma AstralChunk(chunks: seq<string>, text: string) returns (i: nat)
    requires chunks == Split(text, 1) && Astral(text) > 0
    ensures i < |chunks| && Astral(chunks[i]) > 0
  {
    SplitConcat(text, 1);
    i := SomeAstral(chunks);
  }

  lemma {:induction false} SomeAstral(chunks: seq<string>) returns (i: nat)
    requires Astral(Concat(chunks)) > 0
    ensures i < |chunks| && Astral(chunks[i]) > 0
  {
    AstralAppend(chunks[0], Concat(chunks[1..]));
    if Astral(chunks[0]) > 0 {
      i := 0;
    } else {
      var k := SomeAstral(chunks[1..]);
      i := k + 1;
    }
  }

  /** The factor two is reached for every limit: the documented claim fails. */
  lemma {:induction false} CharacterCountIsNotConservative(limit: nat) returns (text: string)
    requires limit >= 1
    ensures Split(text, limit) == [text] && Utf16Length(text) == 2 * limit > limit
  {
    text := seq(limit, _ => '\U{1F600}');
    AllWide(text);
  }

  lemma {:induction false} AllWide(s: string)
    requires forall i :: 0 <= i < |s| ==> s[i] == '\U{1F600}'
    ensures Utf16Length(s) == 2 * |s|
  {
    if s == "" {
    } else {
      AllWide(s[1..]);
    }
  }
}
