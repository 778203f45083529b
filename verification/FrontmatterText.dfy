/** The line and delimiter handling that the three frontmatter readers share. */
module FrontmatterText {
  import opened Text

  /** A member of a `relations` list: a plain item or the keys of an entry. */
  datatype Item = Bare(text: string) | Dict(fields: map<string, string>)

  predicate StartsWith(s: string, prefix: string)
  {
    prefix <= s
  }

  /** `s.split(c, 1)` for a string that holds c: the parts around its first occurrence. */
  function Cut(s: string, c: char): (r: (string, string))
    requires c in s
    ensures s == r.0 + [c] + r.1 && c !in r.0
  {
    if s[0] == c then ("", s[1..])
    else
      var rest := Cut(s[1..], c);
      ([s[0]] + rest.0, rest.1)
  }

  /** The cut is the only one at a first occurrence. */
  lemma {:induction false} CutAt(k: string, v: string, c: char)
    requires c !in k
    ensures Cut(k + [c] + v, c) == (k, v)
  {
    var s := k + [c] + v;
    if k == "" {
      assert s[1..] == v;
    } else {
      CutAt(k[1..], v, c);
      assert s[1..] == k[1..] + [c] + v;
      assert [k[0]] + k[1..] == k;
    }
  }

  predicate IsQuote(c: char)
  {
    c == '"' || c == '\''
  }

  /** Both ends of the value carry the same quote. */
  predicate Quoted(v: string)
  {
    |v| >= 2 && v[0] == v[|v| - 1] && IsQuote(v[0])
  }

  /** `_strip_quotes` */
  function Unquote(v: string): (r: string)
    ensures r == v <==> !Quoted(v)
  {
    if Quoted(v) then v[1..|v| - 1] else v
  }

  // ---------------------------------------------------------------- whitespace around a text

  predicate AllSpace(s: string)
  {
    forall i :: 0 <= i < |s| ==> IsSpace(s[i])
  }

  lemma {:induction false} StripLeftPad(pad: string, s: string)
    requires AllSpace(pad)
    ensures StripLeft(pad + s) == StripLeft(s)
  {
    if pad == "" {
      assert pad + s == s;
    } else {
      StripLeftPad(pad[1..], s);
      assert (pad + s)[1..] == pad[1..] + s;
    }
  }

  lemma {:induction false} StripRightPad(s: string, pad: string)
    requires AllSpace(pad)
    ensures StripRight(s + pad) == StripRight(s)
  {
    if pad == "" {
      assert s + pad == s;
    } else {
      var t := pad[..|pad| - 1];
      StripRightPad(s, t);
      assert (s + pad)[..|s + pad| - 1] == s + t;
    }
  }

  lemma StripPadded(pad: string, core: string)
    requires AllSpace(pad) && Trimmed(core)
    ensures Strip(pad + core) == core
  {
    StripLeftPad(pad, core);
  }

  lemma StripSpaces(pad: string)
    requires AllSpace(pad)
    ensures StripLeft(pad) == "" && Strip(pad) == ""
  {
    StripLeftPad(pad, "");
    assert pad + "" == pad;
  }

  // ---------------------------------------------------------------- lines

  /** The line boundaries of `str.splitlines`. */
  predicate IsBreak(c: char)
  {
    var n := c as int;
    10 <= n <= 13 || 28 <= n <= 30 || n == 0x85 || n == 0x2028 || n == 0x2029
  }

  predicate OneLine(s: string)
  {
    forall i :: 0 <= i < |s| ==> !IsBreak(s[i])
  }

  function LineEnd(s: string): (n: nat)
    ensures n <= |s| && OneLine(s[..n]) && (n < |s| ==> IsBreak(s[n]))
  {
    if s == "" || IsBreak(s[0]) then 0
    else
      var n := LineEnd(s[1..]);
      assert s[..n + 1] == [s[0]] + s[1..][..n];
      n + 1
  }

  /** `s.splitlines()` */
  function SplitLines(s: string): seq<string>
  {
    if s == "" then []
    else
      var n := LineEnd(s);
      if n == |s| then [s]
      else if s[n] == '\r' && n + 1 < |s| && s[n + 1] == '\n' then [s[..n]] + SplitLines(s[n + 2..])
      else [s[..n]] + SplitLines(s[n + 1..])
  }

  lemma LineEndAt(l: string, rest: string)
    requires OneLine(l) && (rest != "" ==> IsBreak(rest[0]))
    ensures LineEnd(l + rest) == |l|
  {
    var s := l + rest;
    assert s[..|l|] == l && (rest != "" ==> s[|l|] == rest[0]);
  }

  lemma SplitLinesHead(l: string, rest: string)
    requires OneLine(l)
    ensures SplitLines(l + "\n" + rest) == [l] + SplitLines(rest)
  {
    var s := l + "\n" + rest;
    LineEndAt(l, "\n" + rest);
    assert s == l + ("\n" + rest);
    assert s[..|l|] == l && s[|l| + 1..] == rest;
  }

  lemma SplitLinesLast(l: string)
    requires OneLine(l)
    ensures SplitLines(l) == if l == "" then [] else [l]
  {
    LineEndAt(l, "");
    assert l + "" == l;
  }

  ghost predicate Lines(ls: seq<string>)
  {
    forall i :: 0 <= i < |ls| ==> OneLine(ls[i])
  }

  /** The lines, each closed by a newline. */
  function Closed(ls: seq<string>): string
  {
    if |ls| == 0 then "" else ls[0] + "\n" + Closed(ls[1..])
  }

  lemma {:induction false} ClosedIsJoin(ls: seq<string>)
    requires |ls| > 0
    ensures Closed(ls) == Join(ls, "\n") + "\n"
  {
    if |ls| > 1 {
      ClosedIsJoin(ls[1..]);
    }
  }

  /** Reading lines back from a text that continues after them. */
  lemma {:induction false} SplitLinesClosed(ls: seq<string>, rest: string)
    requires Lines(ls)
    ensures SplitLines(Closed(ls) + rest) == ls + SplitLines(rest)
  {
    if |ls| == 0 {
      assert Closed(ls) + rest == rest;
      assert ls + SplitLines(rest) == SplitLines(rest);
    } else {
      calc {
        SplitLines(Closed(ls) + rest);
        { assert Closed(ls) + rest == ls[0] + "\n" + (Closed(ls[1..]) + rest); }
        SplitLines(ls[0] + "\n" + (Closed(ls[1..]) + rest));
        { SplitLinesHead(ls[0], Closed(ls[1..]) + rest); }
        [ls[0]] + SplitLines(Closed(ls[1..]) + rest);
        { SplitLinesClosed(ls[1..], rest); }
        [ls[0]] + (ls[1..] + SplitLines(rest));
        { assert [ls[0]] + ls[1..] == ls; }
        ls + SplitLines(rest);
      }
    }
  }

  /** Reading lines back from a text that ends with them: an empty last line is not seen. */
  lemma {:induction false} SplitLinesOfJoin(ls: seq<string>)
    requires Lines(ls) && |ls| > 0
    ensures SplitLines(Join(ls, "\n")) == if ls[|ls| - 1] == "" then ls[..|ls| - 1] else ls
  {
    var init, last := ls[..|ls| - 1], ls[|ls| - 1];
    SplitLinesLast(last);
    if |ls| == 1 {
      assert ls == [last];
    } else {
      assert ls == init + [last];
      JoinConcat(init, [last], "\n");
      ClosedIsJoin(init);
      SplitLinesClosed(init, last);
    }
  }

  // ---------------------------------------------------------------- the --- delimiter

  /** `---` stands at position i. */
  predicate RuleAt(s: string, i: nat)
  {
    i + 3 <= |s| && s[i] == '-' && s[i + 1] == '-' && s[i + 2] == '-'
  }

  ghost predicate NoRule(s: string)
  {
    forall i: nat :: !RuleAt(s, i)
  }

  /** `s.find("---", i)`, with |s| for "not found". */
  function FindRule(s: string, i: nat): (r: nat)
    requires i <= |s|
    ensures i <= r <= |s| && (r < |s| ==> RuleAt(s, r))
    ensures forall j :: i <= j < r ==> !RuleAt(s, j)
    ensures r == |s| ==> forall j :: i <= j ==> !RuleAt(s, j)
    decreases |s| - i
  {
    if i == |s| || RuleAt(s, i) then i else FindRule(s, i + 1)
  }

  /** No line carries a delimiter, so neither does the text they make up. */
  lemma {:induction false} NoRuleInLines(ls: seq<string>)
    requires forall i :: 0 <= i < |ls| ==> NoRule(ls[i])
    ensures NoRule("\n" + Join(ls, "\n") + "\n")
  {
    if |ls| == 0 {
    } else if |ls| == 1 {
      NoRuleBetween("", ls[0], "");
      assert "" + "\n" + ls[0] + "\n" + "" == "\n" + Join(ls, "\n") + "\n";
    } else {
      var rest := Join(ls[1..], "\n") + "\n";
      NoRuleInLines(ls[1..]);
      assert "\n" + Join(ls[1..], "\n") + "\n" == "\n" + rest;
      NoRuleTail("\n" + rest);
      NoRuleBetween("", ls[0], rest);
      assert "" + "\n" + ls[0] + "\n" + rest == "\n" + Join(ls, "\n") + "\n";
    }
  }

  lemma NoRuleTail(s: string)
    requires NoRule(s) && s != ""
    ensures NoRule(s[1..])
  {
    forall i: nat ensures !RuleAt(s[1..], i) {
      assert !RuleAt(s, i + 1);
    }
  }

  lemma NoRuleBetween(a: string, l: string, b: string)
    requires NoRule(a) && NoRule(l) && NoRule(b)
    ensures NoRule(a + "\n" + l + "\n" + b)
  {
    var s := a + "\n" + l + "\n" + b;
    forall i: nat ensures !RuleAt(s, i) {
      assert !RuleAt(a, i);
      if i > |a| {
        assert !RuleAt(l, i - |a| - 1);
        if i > |a| + 1 + |l| {
          assert !RuleAt(b, i - |a| - |l| - 2);
        }
      }
    }
  }

  // ---------------------------------------------------------------- line loops

  /** The state after a line-by-line loop. */
  function Fold<S>(step: (S, string) -> S, start: S, lines: seq<string>): S
  {
    if |lines| == 0 then start else step(Fold(step, start, lines[..|lines| - 1]), lines[|lines| - 1])
  }

  lemma {:induction false} FoldConcat<S>(step: (S, string) -> S, start: S, a: seq<string>, b: seq<string>)
    ensures Fold(step, start, a + b) == Fold(step, Fold(step, start, a), b)
  {
    if |b| == 0 {
      assert a + b == a;
    } else {
      FoldConcat(step, start, a, b[..|b| - 1]);
      assert (a + b)[..|a + b| - 1] == a + b[..|b| - 1];
    }
  }

  lemma FoldSnoc<S>(step: (S, string) -> S, start: S, a: seq<string>, l: string)
    ensures Fold(step, start, a + [l]) == step(Fold(step, start, a), l)
  {
    assert (a + [l])[..|a|] == a;
  }

  lemma FoldCons<S>(step: (S, string) -> S, start: S, l: string, rest: seq<string>)
    ensures Fold(step, start, [l] + rest) == Fold(step, step(start, l), rest)
  {
    FoldConcat(step, start, [l], rest);
    FoldOne(step, start, l);
  }

  lemma FoldOne<S>(step: (S, string) -> S, start: S, l: string)
    ensures Fold(step, start, [l]) == step(start, l)
  {
  }

  /** A line loop that starts at i and stops at the first line that does not stay: the state and
      the index where it stops. */
  function Scan<S>(stays: string -> bool, step: (S, string) -> S, lines: seq<string>, i: nat, st: S): (r: (S, nat))
    requires i <= |lines|
    ensures i <= r.1 <= |lines|
    decreases |lines| - i
  {
    if i == |lines| || !stays(lines[i]) then (st, i)
    else Scan(stays, step, lines, i + 1, step(st, lines[i]))
  }

  /** The lines ls stand at i, all stay, and the next line does not. */
  ghost predicate Run(stays: string -> bool, lines: seq<string>, i: nat, ls: seq<string>)
  {
    && i + |ls| <= |lines| && (forall j :: 0 <= j < |ls| ==> lines[i + j] == ls[j] && stays(ls[j]))
    && (i + |ls| < |lines| ==> !stays(lines[i + |ls|]))
  }

  lemma {:induction false} ScanFolds<S>(
      stays: string -> bool, step: (S, string) -> S, lines: seq<string>, i: nat, st: S, ls: seq<string>)
    requires Run(stays, lines, i, ls)
    ensures Scan(stays, step, lines, i, st) == (Fold(step, st, ls), i + |ls|)
    decreases |ls|
  {
    if |ls| > 0 {
      var rest := ls[1..];
      assert lines[i + 0] == ls[0];
      forall j | 0 <= j < |rest| ensures lines[i + 1 + j] == rest[j] && stays(rest[j]) {
        assert lines[i + (j + 1)] == ls[j + 1];
      }
      ScanFolds(stays, step, lines, i + 1, step(st, ls[0]), rest);
      FoldCons(step, st, ls[0], rest);
      assert ls == [ls[0]] + rest;
    }
  }

  // ---------------------------------------------------------------- index loops

  /** The state after an index loop; each turn gives the next state and the next index. */
  function Loop<S>(turn: (nat, S) -> (S, nat), n: nat, i: nat, st: S): S
    decreases n - i
  {
    if i >= n then st
    else
      var r := turn(i, st);
      if r.1 <= i then r.0 else Loop(turn, n, r.1, r.0)
  }

  /** The loop that stands at i with st goes on as the one that stands at j with st'. */
  ghost predicate Leads<S>(turn: (nat, S) -> (S, nat), n: nat, i: nat, st: S, j: nat, st': S)
  {
    Loop(turn, n, i, st) == Loop(turn, n, j, st')
  }

  lemma LeadsOn<S>(turn: (nat, S) -> (S, nat), n: nat, i: nat, st: S, j: nat, st': S, k: nat, st'': S)
    requires Leads(turn, n, i, st, j, st') && Leads(turn, n, j, st', k, st'')
    ensures Leads(turn, n, i, st, k, st'')
  {
  }

  lemma LeadsTurn<S>(turn: (nat, S) -> (S, nat), n: nat, i: nat, st: S, st': S, j: nat)
    requires i < n && turn(i, st) == (st', j) && i < j
    ensures Leads(turn, n, i, st, j, st')
  {
  }
}
