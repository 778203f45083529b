/** `_split_markdown_row` of the task index: splitting a Markdown table row at the pipes that are
    neither escaped nor inside a code span. */
module MarkdownRow {
  import opened Text

  // ---------------------------------------------------------------- where a row is cut

  /** The number of backslashes directly before position i. */
  function Backslashes(s: string, i: nat): nat
    requires i <= |s|
  {
    if i == 0 || s[i - 1] != '\\' then 0 else Backslashes(s, i - 1) + 1
  }

  /** An odd number of backslashes before a character escapes it. */
  predicate Escaped(s: string, i: nat)
    requires i <= |s|
  {
    Backslashes(s, i) % 2 == 1
  }

  predicate PlainTick(s: string, i: nat)
    requires i < |s|
  {
    s[i] == '`' && !Escaped(s, i)
  }

  /** A maximal run of backticks starts here. */
  predicate Delimiter(s: string, i: nat)
    requires i < |s|
  {
    PlainTick(s, i) && (i == 0 || !PlainTick(s, i - 1))
  }

  /** The end of the backticks from i on. */
  function TicksEnd(s: string, i: nat): (r: nat)
    requires i <= |s|
    ensures i <= r <= |s| && (r < |s| ==> s[r] != '`')
    ensures i < |s| && s[i] == '`' ==> i < r
    decreases |s| - i
  {
    if i == |s| || s[i] != '`' then i else TicksEnd(s, i + 1)
  }

  /** The state after a delimiter: an open code span (its delimiter length) is closed only by a
      delimiter of the same length; 0 is "no code span". */
  function Toggle(open': nat, length: nat): nat
  {
    if open' == 0 then length else if open' == length then 0 else open'
  }

  /** The delimiter length of the code span around position i, or 0. */
  function SpanAt(s: string, i: nat): nat
    requires i <= |s|
  {
    if i == 0 then 0
    else
      var before := SpanAt(s, i - 1);
      if Delimiter(s, i - 1) then Toggle(before, TicksEnd(s, i - 1) - (i - 1)) else before
  }

  /** A pipe that is not escaped and not inside a code span. */
  predicate CutAt(s: string, i: nat)
    requires i < |s|
  {
    s[i] == '|' && !Escaped(s, i) && SpanAt(s, i) == 0
  }

  /** The text from i on, taken apart at the cuts. */
  function Pieces(s: string, i: nat): (r: seq<string>)
    requires i <= |s|
    ensures |r| > 0
    decreases |s| - i
  {
    if i == |s| then [""]
    else if CutAt(s, i) then [""] + Pieces(s, i + 1)
    else OnFirst(s[i], Pieces(s, i + 1))
  }

  function Stripped(pieces: seq<string>): (r: seq<string>)
    ensures |r| == |pieces| && forall i :: 0 <= i < |pieces| ==> r[i] == Strip(pieces[i])
  {
    seq(|pieces|, i requires 0 <= i < |pieces| => Strip(pieces[i]))
  }

  /** The text between the outer pipes of a row. */
  function Body(row: string): string
    requires row != ""
  {
    if row[|row| - 1] == '|' && |row| >= 2 then row[1..|row| - 1] else row[1..]
  }

  /** The cells of a line, or none if it is not a table row. */
  function Cells(line: string): seq<string>
  {
    var row := Strip(line);
    if row == "" || row[0] != '|' then [] else Stripped(Pieces(Body(row), 0))
  }

  // ---------------------------------------------------------------- nothing is lost

  /** The pieces joined by pipes are the text: no character is dropped, moved or cut away. */
  lemma {:induction false} PiecesLoseNothing(s: string, i: nat)
    requires i <= |s|
    ensures Join(Pieces(s, i), "|") == s[i..]
    decreases |s| - i
  {
    if i < |s| {
      PiecesLoseNothing(s, i + 1);
      assert s[i..] == [s[i]] + s[i + 1..];
      if CutAt(s, i) {
        JoinCons("", Pieces(s, i + 1), "|");
      } else {
        JoinPrefix(s[i], Pieces(s, i + 1), "|");
      }
    }
  }

  /** The positions from i to n that have the property, from left to right. */
  function Where(P: nat -> bool, i: nat, n: nat): seq<nat>
    requires i <= n
    decreases n - i
  {
    if i == n then [] else if P(i) then [i] + Where(P, i + 1, n) else Where(P, i + 1, n)
  }

  lemma InFront(x: nat, s: seq<nat>, c: nat)
    ensures c in [x] + s <==> c == x || c in s
  {
  }

  lemma {:induction false} WhereMember(P: nat -> bool, i: nat, n: nat, c: nat)
    requires i <= n
    ensures c in Where(P, i, n) <==> i <= c < n && P(c)
    decreases n - i
  {
    if i < n {
      WhereMember(P, i + 1, n, c);
      InFront(i, Where(P, i + 1, n), c);
    }
  }

  lemma {:induction false} WhereIncreases(P: nat -> bool, i: nat, n: nat)
    requires i <= n
    ensures forall k, l :: 0 <= k < l < |Where(P, i, n)| ==> Where(P, i, n)[k] < Where(P, i, n)[l]
    decreases n - i
  {
    if i < n {
      WhereIncreases(P, i + 1, n);
      var later := Where(P, i + 1, n);
      forall l | 0 <= l < |later| ensures i < later[l] {
        WhereMember(P, i + 1, n, later[l]);
      }
    }
  }

  function Cutting(s: string): nat -> bool
  {
    (k: nat) => k < |s| && CutAt(s, k)
  }

  /** The positions of the cuts from i on. */
  function Cuts(s: string, i: nat): seq<nat>
    requires i <= |s|
  {
    Where(Cutting(s), i, |s|)
  }

  /** They are exactly the pipes that are neither escaped nor in a code span, from left to right. */
  lemma CutsAreTheBarePipes(s: string, i: nat)
    requires i <= |s|
    ensures forall c: nat :: c in Cuts(s, i) <==> i <= c < |s| && CutAt(s, c)
    ensures forall k, l :: 0 <= k < l < |Cuts(s, i)| ==> Cuts(s, i)[k] < Cuts(s, i)[l]
  {
    forall c: nat ensures c in Cuts(s, i) <==> i <= c < |s| && CutAt(s, c) {
      WhereMember(Cutting(s), i, |s|, c);
    }
    WhereIncreases(Cutting(s), i, |s|);
  }

  /** Piece k reaches from behind the cut before it, or from i, to the next cut or the end. */
  predicate PieceBetween(s: string, i: nat, cuts: seq<nat>, piece: string, k: nat)
    requires k <= |cuts|
  {
    var start := if k == 0 then i else cuts[k - 1] + 1;
    var end := if k == |cuts| then |s| else cuts[k];
    start <= end <= |s| && piece == s[start..end]
  }

  lemma BehindCut(s: string, i: nat, later: seq<nat>, piece: string, k: nat)
    requires k <= |later| && PieceBetween(s, i + 1, later, piece, k)
    ensures PieceBetween(s, i, [i] + later, piece, k + 1)
  {
  }

  lemma BehindChar(s: string, i: nat, later: seq<nat>, piece: string, k: nat)
    requires i < |s| && k <= |later| && PieceBetween(s, i + 1, later, piece, k)
    ensures PieceBetween(s, i, later, if k == 0 then [s[i]] + piece else piece, k)
  {
    if k == 0 {
      var end := if |later| == 0 then |s| else later[0];
      assert s[i..end] == [s[i]] + s[i + 1..end];
    }
  }

  /** Every piece lies between its cuts. */
  ghost predicate Between(s: string, i: nat, cuts: seq<nat>, pieces: seq<string>)
  {
    |pieces| == |cuts| + 1 && forall k :: 0 <= k < |pieces| ==> PieceBetween(s, i, cuts, pieces[k], k)
  }

  lemma BetweenCut(s: string, i: nat, below: seq<string>, later: seq<nat>)
    requires i < |s| && Between(s, i + 1, later, below)
    ensures Between(s, i, [i] + later, [""] + below)
  {
    forall k | 0 <= k < |below| + 1 ensures PieceBetween(s, i, [i] + later, ([""] + below)[k], k) {
      if k > 0 {
        BehindCut(s, i, later, below[k - 1], k - 1);
      }
    }
  }

  lemma BetweenChar(s: string, i: nat, below: seq<string>, later: seq<nat>)
    requires i < |s| && Between(s, i + 1, later, below)
    ensures Between(s, i, later, OnFirst(s[i], below))
  {
    forall k | 0 <= k < |below| ensures PieceBetween(s, i, later, OnFirst(s[i], below)[k], k) {
      BehindChar(s, i, later, below[k], k);
    }
  }

  lemma {:induction false} PiecesLieBetweenCuts(s: string, i: nat)
    requires i <= |s|
    ensures Between(s, i, Cuts(s, i), Pieces(s, i))
    decreases |s| - i
  {
    if i < |s| {
      PiecesLieBetweenCuts(s, i + 1);
      if CutAt(s, i) {
        BetweenCut(s, i, Pieces(s, i + 1), Cuts(s, i + 1));
      } else {
        BetweenChar(s, i, Pieces(s, i + 1), Cuts(s, i + 1));
        assert Cuts(s, i) == Cuts(s, i + 1);
      }
    }
  }

  // ---------------------------------------------------------------- the scanner's tokens

  /** The scanner may stand here: not on an escaped character, not within a run of backticks. */
  predicate Boundary(s: string, i: nat)
    requires i <= |s|
  {
    !Escaped(s, i) && (0 < i < |s| && s[i] == '`' ==> !PlainTick(s, i - 1))
  }

  /** An escape pair holds no cut and no delimiter. */
  lemma EscapePair(s: string, i: nat)
    requires i + 1 < |s| && s[i] == '\\' && Boundary(s, i)
    ensures !CutAt(s, i) && !CutAt(s, i + 1)
    ensures SpanAt(s, i + 2) == SpanAt(s, i) && Boundary(s, i + 2)
  {
    assert Backslashes(s, i + 1) == Backslashes(s, i) + 1;
    assert Escaped(s, i + 1);
    assert s[i + 1] == '\\' ==> Backslashes(s, i + 2) == Backslashes(s, i) + 2;
    assert s[i + 1] != '\\' ==> Backslashes(s, i + 2) == 0;
    assert SpanAt(s, i + 1) == SpanAt(s, i);
  }

  /** A single character that is neither a backtick nor the start of an escape pair. */
  lemma SingleStep(s: string, i: nat)
    requires i < |s| && s[i] != '`' && (s[i] == '\\' ==> i + 1 == |s|) && Boundary(s, i)
    ensures SpanAt(s, i + 1) == SpanAt(s, i)
    ensures i + 1 < |s| ==> Boundary(s, i + 1)
  {
    assert s[i] != '\\' ==> Backslashes(s, i + 1) == 0;
  }

  /** Within a run of backticks there are no cuts, and only its start is a delimiter. */
  lemma {:induction false} TickRun(s: string, i: nat, j: nat)
    requires i < j <= |s| && Boundary(s, i) && forall k :: i <= k < j ==> s[k] == '`'
    ensures Backslashes(s, j) == 0 && PlainTick(s, j - 1)
    ensures SpanAt(s, j) == Toggle(SpanAt(s, i), TicksEnd(s, i) - i)
    decreases j
  {
    if i + 1 == j {
      assert Delimiter(s, i);
    } else {
      TickRun(s, i, j - 1);
      assert !Delimiter(s, j - 1);
    }
  }

  lemma {:induction false} AllTicks(s: string, i: nat, k: nat)
    requires i <= |s| && i <= k < TicksEnd(s, i)
    ensures s[k] == '`'
    decreases k - i
  {
    if i < k {
      AllTicks(s, i + 1, k);
    }
  }

  lemma TickStep(s: string, i: nat)
    requires i < |s| && s[i] == '`' && Boundary(s, i)
    ensures var j := TicksEnd(s, i);
            && (forall k :: i <= k < j ==> !CutAt(s, k))
            && SpanAt(s, j) == Toggle(SpanAt(s, i), j - i) && (j < |s| ==> Boundary(s, j))
  {
    forall k | i <= k < TicksEnd(s, i) ensures s[k] == '`' {
      AllTicks(s, i, k);
    }
    TickRun(s, i, TicksEnd(s, i));
  }

  lemma {:induction false} NoCutsPrepend(s: string, i: nat, j: nat)
    requires i <= j <= |s| && forall k :: i <= k < j ==> !CutAt(s, k)
    ensures Pieces(s, i) == Put(s[i..j], Pieces(s, j))
    decreases j - i
  {
    if i == j {
      PutNothing(Pieces(s, j));
    } else {
      NoCutsPrepend(s, i + 1, j);
      assert s[i..j] == [s[i]] + s[i + 1..j];
      PutCons(s[i], s[i + 1..j], Pieces(s, j));
    }
  }

  /** Put a text in front of the first piece. */
  function Put(t: string, pieces: seq<string>): (r: seq<string>)
    requires |pieces| > 0
    ensures |r| == |pieces|
  {
    [t + pieces[0]] + pieces[1..]
  }

  lemma PutNothing(pieces: seq<string>)
    requires |pieces| > 0
    ensures Put("", pieces) == pieces
  {
    assert "" + pieces[0] == pieces[0];
  }

  lemma PutCons(c: char, t: string, pieces: seq<string>)
    requires |pieces| > 0
    ensures OnFirst(c, Put(t, pieces)) == Put([c] + t, pieces)
  {
    assert [c] + (t + pieces[0]) == [c] + t + pieces[0];
  }

  lemma PutTwice(a: string, b: string, pieces: seq<string>)
    requires |pieces| > 0
    ensures Put(a, Put(b, pieces)) == Put(a + b, pieces)
  {
    assert a + (b + pieces[0]) == a + b + pieces[0];
  }

  /** What is done: the finished pieces, then the buffer in front of the pieces to come. */
  ghost predicate Progress(s: string, i: nat, done: seq<string>, buffer: string)
  {
    i <= |s| && Pieces(s, 0) == done + Put(buffer, Pieces(s, i))
  }

  lemma ProgressOver(s: string, i: nat, j: nat, done: seq<string>, buffer: string)
    requires Progress(s, i, done, buffer) && i <= j <= |s| && forall k :: i <= k < j ==> !CutAt(s, k)
    ensures Progress(s, j, done, buffer + s[i..j])
  {
    NoCutsPrepend(s, i, j);
    PutTwice(buffer, s[i..j], Pieces(s, j));
  }

  lemma ProgressChar(s: string, i: nat, done: seq<string>, buffer: string)
    requires Progress(s, i, done, buffer) && i < |s| && !CutAt(s, i)
    ensures Progress(s, i + 1, done, buffer + [s[i]])
  {
    assert s[i..i + 1] == [s[i]];
    ProgressOver(s, i, i + 1, done, buffer);
  }

  lemma ProgressCut(s: string, i: nat, done: seq<string>, buffer: string)
    requires Progress(s, i, done, buffer) && i < |s| && CutAt(s, i)
    ensures Progress(s, i + 1, done + [buffer], "")
  {
    var rest := Pieces(s, i + 1);
    assert buffer + "" == buffer;
    assert ([""] + rest)[1..] == rest;
    assert Put(buffer, [""] + rest) == [buffer] + rest;
    PutNothing(rest);
    assert done + ([buffer] + rest) == done + [buffer] + rest;
  }

  /** The scanner stands at i, with this code span open and these pieces done. */
  ghost predicate Scanned(s: string, i: nat, code: nat, done: seq<string>, buffer: string)
  {
    i <= |s| && Progress(s, i, done, buffer) && code == SpanAt(s, i) && (i < |s| ==> Boundary(s, i))
  }

  lemma ScanStarts(s: string)
    ensures Scanned(s, 0, 0, [], "")
  {
    PutNothing(Pieces(s, 0));
  }

  lemma ScanPair(s: string, i: nat, code: nat, done: seq<string>, buffer: string)
    requires Scanned(s, i, code, done, buffer) && i + 1 < |s| && s[i] == '\\'
    ensures Scanned(s, i + 2, code, done, buffer + [s[i], s[i + 1]])
  {
    EscapePair(s, i);
    ProgressOver(s, i, i + 2, done, buffer);
    assert s[i..i + 2] == [s[i], s[i + 1]];
  }

  lemma ScanTicks(s: string, i: nat, code: nat, done: seq<string>, buffer: string, j: nat)
    requires Scanned(s, i, code, done, buffer) && i < |s| && s[i] == '`' && j == TicksEnd(s, i)
    ensures Scanned(s, j, Toggle(code, j - i), done, buffer + s[i..j])
  {
    TickStep(s, i);
    ProgressOver(s, i, j, done, buffer);
  }

  lemma ScanCut(s: string, i: nat, code: nat, done: seq<string>, buffer: string)
    requires Scanned(s, i, code, done, buffer) && code == 0 && i < |s| && s[i] == '|'
    ensures Scanned(s, i + 1, code, done + [buffer], "")
    ensures Stripped(done + [buffer]) == Stripped(done) + [Strip(buffer)]
  {
    SingleStep(s, i);
    ProgressCut(s, i, done, buffer);
  }

  lemma ScanChar(s: string, i: nat, code: nat, done: seq<string>, buffer: string)
    requires Scanned(s, i, code, done, buffer) && i < |s| && s[i] != '`'
    requires (s[i] == '\\' ==> i + 1 == |s|) && (s[i] == '|' ==> code != 0)
    ensures Scanned(s, i + 1, code, done, buffer + [s[i]])
  {
    SingleStep(s, i);
    assert !CutAt(s, i);
    ProgressChar(s, i, done, buffer);
  }

  lemma ScanEnds(s: string, code: nat, done: seq<string>, buffer: string)
    requires Scanned(s, |s|, code, done, buffer)
    ensures Stripped(Pieces(s, 0)) == Stripped(done) + [Strip(buffer)]
  {
    assert buffer + "" == buffer;
    assert Put(buffer, [""]) == [buffer];
  }

  /** The inner loop over a run of backticks. */
  method RunEnd(body: string, start: nat) returns (end: nat)
    requires start <= |body|
    ensures end == TicksEnd(body, start)
  {
    end := start;
    while end < |body| && body[end] == '`'
      invariant start <= end <= |body| && TicksEnd(body, end) == TicksEnd(body, start)
    {
      end := end + 1;
    }
  }

  method SplitBody(body: string, ghost wanted: seq<string>) returns (cells: seq<string>)
    requires wanted == Stripped(Pieces(body, 0))
    ensures cells == wanted
  {
    cells := [];
    var buffer := "";
    var code: nat := 0;
    var index := 0;
    ghost var done: seq<string> := [];
    ScanStarts(body);
    while index < |body|
      invariant index <= |body| && Scanned(body, index, code, done, buffer) && cells == Stripped(done)
    {
      index, code, cells, buffer, done := TakeToken(body, index, code, cells, buffer, done);
    }
    ScanEnds(body, code, done, buffer);
    cells := cells + [Strip(buffer)];
  }

  /** The loop body: one escape pair, one run of backticks or one character. */
  method TakeToken(body: string, index: nat, code: nat, cells: seq<string>, buffer: string, ghost done: seq<string>)
    returns (index': nat, code': nat, cells': seq<string>, buffer': string, ghost done': seq<string>)
    requires index < |body| && Scanned(body, index, code, done, buffer) && cells == Stripped(done)
    ensures index < index' <= |body| && Scanned(body, index', code', done', buffer') && cells' == Stripped(done')
  {
    index', code', cells', buffer', done' := index + 1, code, cells, buffer, done;
    var c := body[index];
    if c == '\\' && index + 1 < |body| {
      ScanPair(body, index, code, done, buffer);
      index', buffer' := index + 2, buffer + [c, body[index + 1]];
    } else if c == '`' {
      var end := RunEnd(body, index);
      ScanTicks(body, index, code, done, buffer, end);
      code' := if code == 0 then end - index else if code == end - index then 0 else code;
      index', buffer' := end, buffer + body[index..end];
    } else if c == '|' && code == 0 {
      ScanCut(body, index, code, done, buffer);
      cells', done', buffer' := cells + [Strip(buffer)], done + [buffer], "";
    } else {
      ScanChar(body, index, code, done, buffer);
      buffer' := buffer + [c];
    }
  }

  /** `_split_markdown_row` */
  method SplitMarkdownRow(line: string) returns (cells: seq<string>)
    ensures cells == Cells(line)
  {
    var row := Strip(line);
    if row == "" || row[0] != '|' {
      return [];
    }
    var body := if row[|row| - 1] == '|' && |row| >= 2 then row[1..|row| - 1] else row[1..];
    cells := SplitBody(body, Cells(line));
  }

  // ---------------------------------------------------------------- printing

  /** A row as the tools print it. */
  function PrintRow(cells: seq<string>): string
  {
    "| " + Join(cells, " | ") + " |"
  }

  function Spaced(cell: string): string
  {
    " " + cell + " "
  }

  /** Scanned on its own, the text has no cut. */
  ghost predicate Uncut(s: string)
  {
    forall i :: 0 <= i < |s| ==> !CutAt(s, i)
  }

  /** Every pipe of a cell is escaped or inside a code span, and every code span closes before the
      next cell. */
  ghost predicate RowOk(cells: seq<string>)
  {
    && (forall i :: 0 <= i < |cells| ==> Trimmed(cells[i]) && Uncut(Spaced(cells[i])))
    && (forall i :: 0 <= i < |cells| - 1 ==> SpanAt(Spaced(cells[i]), |Spaced(cells[i])|) == 0)
  }

  // ---------------------------------------------------------------- scanning is local

  /** The text cannot influence what follows it by a backslash or a backtick at its end. */
  predicate Sealed(a: string)
  {
    a != "" && a[|a| - 1] != '\\' && a[|a| - 1] != '`'
  }

  lemma {:induction false} BackslashesBefore(a: string, b: string, i: nat)
    requires i <= |a|
    ensures Backslashes(a + b, i) == Backslashes(a, i)
  {
    if i > 0 {
      BackslashesBefore(a, b, i - 1);
    }
  }

  lemma {:induction false} BackslashesAfter(a: string, b: string, j: nat)
    requires Sealed(a) && j <= |b|
    ensures Backslashes(a + b, |a| + j) == Backslashes(b, j)
  {
    if j == 0 {
      assert (a + b)[|a| - 1] == a[|a| - 1];
    } else {
      BackslashesAfter(a, b, j - 1);
    }
  }

  lemma {:induction false} TicksEndBefore(a: string, b: string, i: nat)
    requires Sealed(a) && i < |a|
    ensures TicksEnd(a + b, i) == TicksEnd(a, i) < |a|
    decreases |a| - i
  {
    if a[i] == '`' {
      TicksEndBefore(a, b, i + 1);
    }
  }

  lemma {:induction false} TicksEndAfter(a: string, b: string, j: nat)
    requires j <= |b|
    ensures TicksEnd(a + b, |a| + j) == |a| + TicksEnd(b, j)
    decreases |b| - j
  {
    if j < |b| && b[j] == '`' {
      TicksEndAfter(a, b, j + 1);
    }
  }

  lemma DelimiterBefore(a: string, b: string, i: nat)
    requires i < |a|
    ensures Delimiter(a + b, i) == Delimiter(a, i)
  {
    BackslashesBefore(a, b, i);
    if i > 0 {
      BackslashesBefore(a, b, i - 1);
    }
  }

  lemma DelimiterAfter(a: string, b: string, j: nat)
    requires Sealed(a) && j < |b|
    ensures Delimiter(a + b, |a| + j) == Delimiter(b, j)
  {
    BackslashesAfter(a, b, j);
    if j > 0 {
      BackslashesAfter(a, b, j - 1);
    }
  }

  lemma {:induction false} SpanBefore(a: string, b: string, i: nat)
    requires Sealed(a) && i <= |a|
    ensures SpanAt(a + b, i) == SpanAt(a, i)
  {
    if i > 0 {
      SpanBefore(a, b, i - 1);
      DelimiterBefore(a, b, i - 1);
      TicksEndBefore(a, b, i - 1);
    }
  }

  lemma {:induction false} SpanAfter(a: string, b: string, j: nat)
    requires Sealed(a) && SpanAt(a, |a|) == 0 && j <= |b|
    ensures SpanAt(a + b, |a| + j) == SpanAt(b, j)
  {
    if j == 0 {
      SpanBefore(a, b, |a|);
    } else {
      SpanAfter(a, b, j - 1);
      DelimiterAfter(a, b, j - 1);
      TicksEndAfter(a, b, j - 1);
    }
  }

  lemma CutBefore(a: string, b: string, i: nat)
    requires Sealed(a) && i < |a|
    ensures CutAt(a + b, i) == CutAt(a, i)
  {
    BackslashesBefore(a, b, i);
    SpanBefore(a, b, i);
  }

  lemma CutAfter(a: string, b: string, j: nat)
    requires Sealed(a) && SpanAt(a, |a|) == 0 && j < |b|
    ensures CutAt(a + b, |a| + j) == CutAt(b, j)
  {
    BackslashesAfter(a, b, j);
    SpanAfter(a, b, j);
  }

  lemma {:induction false} PiecesAfter(a: string, b: string, j: nat)
    requires Sealed(a) && SpanAt(a, |a|) == 0 && j <= |b|
    ensures Pieces(a + b, |a| + j) == Pieces(b, j)
    decreases |b| - j
  {
    if j < |b| {
      PiecesAfter(a, b, j + 1);
      CutAfter(a, b, j);
    }
  }

  /** A closed text, a pipe and the rest: the text is one piece. */
  lemma PieceThenRest(t: string, rest: string)
    requires Sealed(t) && Uncut(t) && SpanAt(t, |t|) == 0
    ensures Pieces(t + ("|" + rest), 0) == [t] + Pieces(rest, 0)
  {
    var b := "|" + rest;
    UncutPrefix(t, b);
    PiecesAfter(t, b, 0);
    PipeThenRest(rest);
    PutOnEmpty(t, Pieces(rest, 0));
  }

  lemma UncutPrefix(t: string, b: string)
    requires Sealed(t) && Uncut(t)
    ensures Pieces(t + b, 0) == Put(t, Pieces(t + b, |t| + 0))
  {
    forall k | 0 <= k < |t| ensures !CutAt(t + b, k) {
      CutBefore(t, b, k);
    }
    NoCutsPrepend(t + b, 0, |t|);
    assert (t + b)[0..|t|] == t;
  }

  lemma PipeThenRest(rest: string)
    ensures Pieces("|" + rest, 0) == [""] + Pieces(rest, 0)
  {
    var b := "|" + rest;
    assert CutAt(b, 0);
    assert !Delimiter("|", 0);
    assert SpanAt("|", 1) == 0;
    PiecesAfter("|", rest, 0);
  }

  lemma PutOnEmpty(t: string, pieces: seq<string>)
    ensures Put(t, [""] + pieces) == [t] + pieces
  {
    assert t + "" == t;
    assert ([""] + pieces)[1..] == pieces;
  }

  lemma LonePiece(t: string)
    requires Uncut(t)
    ensures Pieces(t, 0) == [t]
  {
    NoCutsPrepend(t, 0, |t|);
    assert t[0..|t|] == t;
    assert t + "" == t;
  }

  /** The cells with a space on both sides. */
  function Padded(cells: seq<string>): (r: seq<string>)
    ensures |r| == |cells| && forall i :: 0 <= i < |cells| ==> r[i] == Spaced(cells[i])
  {
    seq(|cells|, i requires 0 <= i < |cells| => Spaced(cells[i]))
  }

  lemma RowText(cells: seq<string>)
    requires |cells| > 1
    ensures var first, rest := Spaced(cells[0]), Padded(cells[1..]);
            Padded(cells) == [first] + rest && Join(Padded(cells), "|") == first + ("|" + Join(rest, "|"))
  {
    var first, rest := Spaced(cells[0]), Padded(cells[1..]);
    assert Padded(cells) == [first] + rest;
    JoinCons(first, rest, "|");
    assert first + "|" + Join(rest, "|") == first + ("|" + Join(rest, "|"));
  }

  lemma {:induction false} RowPieces(cells: seq<string>)
    requires |cells| > 0 && RowOk(cells)
    ensures Pieces(Join(Padded(cells), "|"), 0) == Padded(cells)
  {
    var first, rest := Spaced(cells[0]), cells[1..];
    if |cells| == 1 {
      LonePiece(first);
      assert Padded(cells) == [first];
    } else {
      RowPieces(rest);
      RowText(cells);
      PieceThenRest(first, Join(Padded(rest), "|"));
    }
  }

  lemma {:induction false} BodyIsJoin(cells: seq<string>)
    requires |cells| > 0
    ensures " " + Join(cells, " | ") + " " == Join(Padded(cells), "|")
  {
    if |cells| > 1 {
      var rest := cells[1..];
      BodyIsJoin(rest);
      assert Padded(cells) == [Spaced(cells[0])] + Padded(rest);
      JoinCons(Spaced(cells[0]), Padded(rest), "|");
      Regroup(cells[0], Join(rest, " | "));
    }
  }

  lemma Regroup(a: string, b: string)
    ensures " " + (a + " | " + b) + " " == " " + a + " " + "|" + (" " + b + " ")
  {
  }

  lemma PaddedStripped(cells: seq<string>)
    requires forall i :: 0 <= i < |cells| ==> Trimmed(cells[i])
    ensures Stripped(Padded(cells)) == cells
  {
    forall i | 0 <= i < |cells| ensures Strip(Padded(cells)[i]) == cells[i] {
      StripSpaced(cells[i]);
    }
  }

  lemma StripSpaced(c: string)
    requires Trimmed(c)
    ensures Strip(" " + c + " ") == c
  {
    var s := " " + c + " ";
    assert s[1..] == c + " " && IsSpace(s[0]);
    if c == "" {
      assert s[1..] == " " && " "[1..] == "" && IsSpace(' ');
      assert StripLeft(s) == StripLeft(" ") == StripLeft("");
    } else {
      assert StripLeft(s) == c + " ";
      assert (c + " ")[..|c|] == c;
      assert StripRight(c + " ") == c;
    }
  }

  lemma PrintedBody(cells: seq<string>)
    ensures Strip(PrintRow(cells)) == PrintRow(cells) && PrintRow(cells)[0] == '|'
    ensures Body(PrintRow(cells)) == " " + Join(cells, " | ") + " "
  {
    var row := PrintRow(cells);
    assert row[0] == '|' && row[|row| - 1] == '|';
    StripOfTrimmed(row);
    assert row[1..|row| - 1] == " " + Join(cells, " | ") + " ";
  }

  /** Splitting inverts printing for every row whose cells keep their pipes escaped or in code. */
  lemma SplitInvertsPrint(cells: seq<string>)
    requires |cells| > 0 && RowOk(cells)
    ensures Cells(PrintRow(cells)) == cells
  {
    PrintedBody(cells);
    BodyIsJoin(cells);
    RowPieces(cells);
    PaddedStripped(cells);
  }

  predicate PlainCell(cell: string)
  {
    Trimmed(cell) && '|' !in cell && '`' !in cell && '\\' !in cell
  }

  /** In particular for cells without pipes, backticks and backslashes. */
  lemma SplitInvertsPlainPrint(cells: seq<string>)
    requires |cells| > 0 && forall i :: 0 <= i < |cells| ==> PlainCell(cells[i])
    ensures Cells(PrintRow(cells)) == cells
  {
    forall i | 0 <= i < |cells| ensures Uncut(Spaced(cells[i])) && SpanAt(Spaced(cells[i]), |Spaced(cells[i])|) == 0 {
      PlainSpan(Spaced(cells[i]), |Spaced(cells[i])|);
      assert forall k :: 0 <= k < |Spaced(cells[i])| ==> Spaced(cells[i])[k] != '|';
    }
    SplitInvertsPrint(cells);
  }

  lemma {:induction false} PlainSpan(s: string, i: nat)
    requires i <= |s| && '`' !in s && '\\' !in s
    ensures !Escaped(s, i) && SpanAt(s, i) == 0
  {
    if i > 0 {
      PlainSpan(s, i - 1);
      assert s[i - 1] in s;
    }
  }
}
