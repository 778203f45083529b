/** `audit_account_email_uniqueness.py`: classifying account records and grouping them by the
    current and by the proposed key of their email. */
module EmailKeys {
  import opened Options
  import opened Text

  /** A JSON field as the script tells it apart. */
  datatype Field = Missing | Null | Str(text: string) | Other

  /** A non-blank line of the input, as `json.loads` sees it. */
  datatype Record = Invalid | NonObject | Account(id: Field, email: Field)

  /** Where a record stands and its id. */
  datatype Item = Item(source: string, line: nat, id: string)

  /** A record with a text for its email. */
  datatype Entry = Entry(item: Item, email: string)

  // ---------------------------------------------------------------- keys

  function LowerChar(c: char): char
  {
    if 'A' <= c <= 'Z' then ((c as int) + 32) as char else c
  }

  /** `normalize_ascii_lower` */
  function Lower(s: string): (r: string)
    ensures |r| == |s| && forall i :: 0 <= i < |s| ==> r[i] == LowerChar(s[i])
  {
    seq(|s|, i requires 0 <= i < |s| => LowerChar(s[i]))
  }

  lemma LowerKeepsSpace(c: char)
    ensures IsSpace(LowerChar(c)) <==> IsSpace(c)
  {
  }

  lemma {:induction false} LowerStripLeft(s: string)
    ensures Lower(StripLeft(s)) == StripLeft(Lower(s))
  {
    if s != "" {
      LowerKeepsSpace(s[0]);
      LowerStripLeft(s[1..]);
      assert Lower(s)[1..] == Lower(s[1..]);
    }
  }

  lemma {:induction false} LowerStripRight(s: string)
    ensures Lower(StripRight(s)) == StripRight(Lower(s))
  {
    if s != "" {
      var init := s[..|s| - 1];
      LowerKeepsSpace(s[|s| - 1]);
      LowerStripRight(init);
      assert Lower(s)[..|s| - 1] == Lower(init);
    }
  }

  /** Lowering ASCII letters commutes with trimming. */
  lemma LowerCommutesWithStrip(s: string)
    ensures Lower(Strip(s)) == Strip(Lower(s))
  {
    LowerStripLeft(s);
    LowerStripRight(StripLeft(s));
  }

  /** `ascii_lower(raw_email)` */
  function CurrentKey(e: Entry): string
  {
    Lower(e.email)
  }

  /** Nothing is left of the email after trimming. */
  predicate Blank(e: Entry)
  {
    Strip(e.email) == ""
  }

  /** `ascii_lower(trim(raw_email))` */
  function ProposedKey(e: Entry): string
  {
    Lower(Strip(e.email))
  }

  // ---------------------------------------------------------------- groups

  type Groups = map<string, seq<Item>>

  /** `groups[key].append(item)` on a `defaultdict(list)` */
  function AddToGroup(groups: Groups, key: string, item: Item): Groups
  {
    groups[key := (if key in groups then groups[key] else []) + [item]]
  }

  /** The entries that the grouping takes, with their key. */
  type Grouping = Entry -> Option<string>

  function Current(e: Entry): Option<string>
  {
    Some(CurrentKey(e))
  }

  function Proposed(e: Entry): Option<string>
  {
    if Blank(e) then None else Some(ProposedKey(e))
  }

  /** The items of the entries with this key, in order. */
  function ItemsOf(key: Grouping, es: seq<Entry>, k: string): seq<Item>
  {
    if |es| == 0 then []
    else
      var e := es[|es| - 1];
      ItemsOf(key, es[..|es| - 1], k) + (if key(e) == Some(k) then [e.item] else [])
  }

  /** The groups are the fibres of the key: exactly the keys that occur, each with its items. */
  ghost predicate GroupedBy(key: Grouping, es: seq<Entry>, groups: Groups)
  {
    forall k :: (k in groups <==> ItemsOf(key, es, k) != []) && (k in groups ==> groups[k] == ItemsOf(key, es, k))
  }

  lemma AppendGroups(key: Grouping, es: seq<Entry>, groups: Groups, e: Entry, groups': Groups)
    requires GroupedBy(key, es, groups)
    requires groups' == if key(e).None? then groups else AddToGroup(groups, key(e).value, e.item)
    ensures GroupedBy(key, es + [e], groups')
  {
    assert (es + [e])[..|es|] == es;
    forall k
      ensures k in groups' <==> ItemsOf(key, es + [e], k) != []
      ensures k in groups' ==> groups'[k] == ItemsOf(key, es + [e], k)
    {
      assert k in groups <==> ItemsOf(key, es, k) != [];
    }
  }

  /** Two records with different ids share the key. */
  predicate Duplicate(items: seq<Item>)
  {
    exists i, j :: 0 <= i < |items| && 0 <= j < |items| && items[i].id != items[j].id
  }

  ghost predicate Within(a: seq<Item>, b: seq<Item>)
  {
    forall x :: x in a ==> x in b
  }

  lemma WithinDuplicate(a: seq<Item>, b: seq<Item>)
    requires Within(a, b) && Duplicate(a)
    ensures Duplicate(b)
  {
    var i, j :| 0 <= i < |a| && 0 <= j < |a| && a[i].id != a[j].id;
    assert a[i] in b && a[j] in b;
    var i' :| 0 <= i' < |b| && b[i'] == a[i];
    var j' :| 0 <= j' < |b| && b[j'] == a[j];
    assert b[i'].id != b[j'].id;
  }

  /** The current key of an entry determines whether it is blank and what its proposed key is. */
  lemma CurrentDeterminesProposed(e: Entry)
    ensures Blank(e) <==> Strip(CurrentKey(e)) == ""
    ensures ProposedKey(e) == Strip(CurrentKey(e))
  {
    LowerCommutesWithStrip(e.email);
  }

  lemma {:induction false} ItemsNest(es: seq<Entry>, k: string)
    requires Strip(k) != ""
    ensures Within(ItemsOf(Current, es, k), ItemsOf(Proposed, es, Strip(k)))
  {
    if |es| > 0 {
      ItemsNest(es[..|es| - 1], k);
      CurrentDeterminesProposed(es[|es| - 1]);
    }
  }

  /** Every group of the current key that is not blank lies inside one group of the proposed key, so
      a duplicate under the current key is a duplicate under the proposed one. */
  lemma CurrentGroupsNest(es: seq<Entry>, current: Groups, proposed: Groups, k: string)
    requires GroupedBy(Current, es, current) && GroupedBy(Proposed, es, proposed)
    requires k in current && Strip(k) != ""
    ensures Strip(k) in proposed && Within(current[k], proposed[Strip(k)])
    ensures Duplicate(current[k]) ==> Duplicate(proposed[Strip(k)])
  {
    ItemsNest(es, k);
    assert ItemsOf(Current, es, k)[0] in ItemsOf(Current, es, k);
    assert ItemsOf(Proposed, es, Strip(k)) != [];
    if Duplicate(current[k]) {
      WithinDuplicate(current[k], proposed[Strip(k)]);
    }
  }

  ghost function DuplicateKeys(groups: Groups): set<string>
  {
    set k | k in groups && Duplicate(groups[k])
  }

  lemma DuplicatesNest(es: seq<Entry>, current: Groups, proposed: Groups, k: string)
    requires GroupedBy(Current, es, current) && GroupedBy(Proposed, es, proposed)
    requires k in DuplicateKeys(current)
    ensures Strip(k) == "" || Strip(k) in DuplicateKeys(proposed)
  {
    if Strip(k) != "" {
      CurrentGroupsNest(es, current, proposed, k);
    }
  }

  /** Without duplicates under the proposed key, what is duplicated under the current key is blank. */
  lemma OnlyBlankDuplicatesRemain(es: seq<Entry>, current: Groups, proposed: Groups)
    requires GroupedBy(Current, es, current) && GroupedBy(Proposed, es, proposed)
    requires DuplicateKeys(proposed) == {}
    ensures forall k :: k in DuplicateKeys(current) ==> Strip(k) == ""
  {
    forall k | k in DuplicateKeys(current) ensures Strip(k) == "" {
      DuplicatesNest(es, current, proposed, k);
    }
  }

  // ---------------------------------------------------------------- the record loop

  datatype Counter =
    | Total | WithEmail | MissingEmail | NullEmail | EmptyAfterTrim | InvalidJson | NonObjectJson
    | MissingId | NonStringId | NonStringEmail | TrimChanges | CaseChanges

  const COUNTERS := {Total, WithEmail, MissingEmail, NullEmail, EmptyAfterTrim, InvalidJson, NonObjectJson,
    MissingId, NonStringId, NonStringEmail, TrimChanges, CaseChanges}

  lemma AllCounters()
    ensures forall c: Counter :: c in COUNTERS
  {
    forall c: Counter ensures c in COUNTERS {
      assert c.Total? || c.WithEmail? || c.MissingEmail? || c.NullEmail? || c.EmptyAfterTrim? || c.InvalidJson? ||
             c.NonObjectJson? || c.MissingId? || c.NonStringId? || c.NonStringEmail? || c.TrimChanges? || c.CaseChanges?;
    }
  }

  /** The `summary` dictionary: every counter is there from the start. */
  type Summary = m: map<Counter, nat> | forall c: Counter :: c in m witness map c: Counter | true :: 0

  /** `summary[c] += 1` */
  function Bump(s: Summary, c: Counter): (r: Summary)
    ensures forall d: Counter :: r[d] == if d == c then s[d] + 1 else s[d]
  {
    s[c := s[c] + 1]
  }

  /** The records that take no part in the grouping. */
  function Rejected(s: Summary): nat
  {
    s[InvalidJson] + s[NonObjectJson] + s[MissingId] + s[NonStringId] +
    s[MissingEmail] + s[NullEmail] + s[NonStringEmail]
  }

  /** Every record is counted in exactly one class. */
  predicate Conserved(s: Summary)
  {
    s[Total] == Rejected(s) + s[WithEmail]
  }

  function BlankCount(es: seq<Entry>): nat
  {
    if |es| == 0 then 0 else BlankCount(es[..|es| - 1]) + (if Blank(es[|es| - 1]) then 1 else 0)
  }

  function TrimCount(es: seq<Entry>): nat
  {
    if |es| == 0 then 0
    else
      var e := es[|es| - 1];
      TrimCount(es[..|es| - 1]) + (if !Blank(e) && Strip(e.email) != e.email then 1 else 0)
  }

  function CaseCount(es: seq<Entry>): nat
  {
    if |es| == 0 then 0
    else
      var e := es[|es| - 1];
      CaseCount(es[..|es| - 1]) + (if !Blank(e) && Lower(e.email) != e.email then 1 else 0)
  }

  /** The record takes part in the grouping. */
  predicate HasEmail(r: Record)
  {
    r.Account? && r.id.Str? && r.email.Str?
  }

  /** A line of a source with what `json.loads` makes of it. */
  datatype Line = Line(source: string, number: nat, record: Record)

  function EntryOf(l: Line): Entry
    requires HasEmail(l.record)
  {
    Entry(Item(l.source, l.number, l.record.id.text), l.record.email.text)
  }

  /** The entries of the lines, in order. */
  function Entries(ls: seq<Line>): seq<Entry>
  {
    if |ls| == 0 then []
    else
      Entries(ls[..|ls| - 1]) + (if HasEmail(ls[|ls| - 1].record) then [EntryOf(ls[|ls| - 1])] else [])
  }

  /** The counters that concern entries agree with them. */
  ghost predicate CountsEntries(s: Summary, es: seq<Entry>)
  {
    && s[WithEmail] == |es| && s[EmptyAfterTrim] == BlankCount(es)
    && s[TrimChanges] == TrimCount(es) && s[CaseChanges] == CaseCount(es)
  }

  /** The counters after a record with an email. */
  function Counted(s: Summary, e: Entry): Summary
  {
    var s1 := Bump(s, WithEmail);
    if Blank(e) then Bump(s1, EmptyAfterTrim)
    else
      var s2 := if e.email != Strip(e.email) then Bump(s1, TrimChanges) else s1;
      if Lower(e.email) != e.email then Bump(s2, CaseChanges) else s2
  }

  lemma CountedEntries(s: Summary, es: seq<Entry>, e: Entry)
    requires CountsEntries(s, es)
    ensures CountsEntries(Counted(s, e), es + [e])
    ensures Counted(s, e)[Total] == s[Total] && Rejected(Counted(s, e)) == Rejected(s)
  {
    assert (es + [e])[..|es|] == es;
  }

  /** The branch for a record with an email. */
  method AddEntry(s: Summary, current: Groups, proposed: Groups, e: Entry, ghost es: seq<Entry>)
    returns (s': Summary, current': Groups, proposed': Groups)
    requires GroupedBy(Current, es, current) && GroupedBy(Proposed, es, proposed)
    ensures s' == Counted(s, e)
    ensures GroupedBy(Current, es + [e], current') && GroupedBy(Proposed, es + [e], proposed')
  {
    s', proposed' := Bump(s, WithEmail), proposed;
    var trimmed, key := Strip(e.email), Lower(e.email);
    current' := AddToGroup(current, key, e.item);
    AppendGroups(Current, es, current, e, current');
    if trimmed == "" {
      s' := Bump(s', EmptyAfterTrim);
    } else {
      if e.email != trimmed {
        s' := Bump(s', TrimChanges);
      }
      if key != e.email {
        s' := Bump(s', CaseChanges);
      }
      proposed' := AddToGroup(proposed, Lower(trimmed), e.item);
    }
    AppendGroups(Proposed, es, proposed, e, proposed');
  }

  /** The counter for a record without an email. */
  function Class(r: Record): Counter
    requires !HasEmail(r)
  {
    match r
    case Invalid => InvalidJson
    case NonObject => NonObjectJson
    case Account(id, email) =>
      if id.Missing? || id.Null? then MissingId
      else if id.Other? then NonStringId
      else if email.Missing? then MissingEmail
      else if email.Null? then NullEmail
      else NonStringEmail
  }

  lemma CountedClass(s: Summary, es: seq<Entry>, r: Record)
    requires !HasEmail(r) && CountsEntries(s, es)
    ensures var s' := Bump(s, Class(r));
            CountsEntries(s', es) && Rejected(s') == Rejected(s) + 1 && s'[Total] == s[Total] && s'[WithEmail] == s[WithEmail]
  {
  }

  /** What holds after every line. */
  ghost predicate Audited(ls: seq<Line>, s: Summary, current: Groups, proposed: Groups)
  {
    && s[Total] == |ls| && Conserved(s) && CountsEntries(s, Entries(ls))
    && GroupedBy(Current, Entries(ls), current) && GroupedBy(Proposed, Entries(ls), proposed)
  }

  lemma EntriesSnoc(ls: seq<Line>, l: Line)
    ensures Entries(ls + [l]) == if HasEmail(l.record) then Entries(ls) + [EntryOf(l)] else Entries(ls)
  {
    assert (ls + [l])[..|ls|] == ls;
    assert Entries(ls) + [] == Entries(ls);
  }

  lemma AuditedOther(ls: seq<Line>, s: Summary, current: Groups, proposed: Groups, l: Line)
    requires Audited(ls, s, current, proposed) && !HasEmail(l.record)
    ensures Audited(ls + [l], Bump(Bump(s, Total), Class(l.record)), current, proposed)
  {
    EntriesSnoc(ls, l);
    CountedClass(Bump(s, Total), Entries(ls), l.record);
  }

  lemma AuditedEntry(ls: seq<Line>, s: Summary, l: Line, current: Groups, proposed: Groups)
    requires s[Total] == |ls| && Conserved(s) && CountsEntries(s, Entries(ls)) && HasEmail(l.record)
    requires GroupedBy(Current, Entries(ls) + [EntryOf(l)], current)
    requires GroupedBy(Proposed, Entries(ls) + [EntryOf(l)], proposed)
    ensures Audited(ls + [l], Counted(Bump(s, Total), EntryOf(l)), current, proposed)
  {
    EntriesSnoc(ls, l);
    CountedEntries(Bump(s, Total), Entries(ls), EntryOf(l));
    CountedOne(Bump(s, Total), EntryOf(l));
  }

  lemma CountedOne(s: Summary, e: Entry)
    ensures Counted(s, e)[WithEmail] == s[WithEmail] + 1
  {
  }

  method AuditLine(s: Summary, current: Groups, proposed: Groups, l: Line, ghost ls: seq<Line>)
    returns (s': Summary, current': Groups, proposed': Groups)
    requires Audited(ls, s, current, proposed)
    ensures Audited(ls + [l], s', current', proposed')
  {
    s', current', proposed' := Bump(s, Total), current, proposed;
    if HasEmail(l.record) {
      s', current', proposed' := AddEntry(s', current, proposed, EntryOf(l), Entries(ls));
      AuditedEntry(ls, s, l, current', proposed');
    } else {
      s' := Bump(s', Class(l.record));
      AuditedOther(ls, s, current, proposed, l);
    }
  }

  /** The main loop over the non-blank lines of all sources, then the duplicate counts. */
  method Audit(lines: seq<Line>)
    returns (s: Summary, current: Groups, proposed: Groups, duplicateCurrent: nat, duplicateProposed: nat)
    ensures Audited(lines, s, current, proposed)
    ensures duplicateCurrent == |DuplicateKeys(current)| && duplicateProposed == |DuplicateKeys(proposed)|
  {
    current, proposed := map[], map[];
    AllCounters();
    s := map c | c in COUNTERS :: 0;
    ghost var done: seq<Line> := [];
    for n := 0 to |lines|
      invariant done == lines[..n] && Audited(done, s, current, proposed)
    {
      s, current, proposed := AuditLine(s, current, proposed, lines[n], done);
      done := done + [lines[n]];
    }
    assert done == lines;
    duplicateCurrent := CountDuplicates(current);
    duplicateProposed := CountDuplicates(proposed);
  }

  /** The loop over the groups that counts those with more than one id. */
  method CountDuplicates(groups: Groups) returns (n: nat)
    ensures n == |DuplicateKeys(groups)|
  {
    n := 0;
    var rest := groups.Keys;
    ghost var found: set<string> := {};
    while rest != {}
      invariant rest <= groups.Keys && n == |found|
      invariant found == set k | k in groups && k !in rest && Duplicate(groups[k])
      decreases rest
    {
      var k :| k in rest;
      rest := rest - {k};
      var items := groups[k];
      var ids := set i | 0 <= i < |items| :: items[i].id;
      ManyIds(items);
      if |ids| > 1 {
        n, found := n + 1, found + {k};
      }
    }
    assert found == DuplicateKeys(groups);
  }

  /** `len(set(i["id"] for i in items)) > 1` */
  lemma ManyIds(items: seq<Item>)
    ensures |set i | 0 <= i < |items| :: items[i].id| > 1 <==> Duplicate(items)
  {
    var ids := set i | 0 <= i < |items| :: items[i].id;
    if Duplicate(items) {
      var i, j :| 0 <= i < |items| && 0 <= j < |items| && items[i].id != items[j].id;
      assert items[i].id in ids && items[j].id in ids;
      assert {items[i].id, items[j].id} <= ids;
      SubsetSize({items[i].id, items[j].id}, ids);
    } else if |items| > 0 {
      forall x | x in ids ensures x == items[0].id {
      }
      assert ids <= {items[0].id};
      SubsetSize(ids, {items[0].id});
    } else {
      assert ids == {};
    }
  }

  lemma {:induction false} SubsetSize(a: set<string>, b: set<string>)
    requires a <= b
    ensures |a| <= |b|
  {
    if a != {} {
      var x :| x in a;
      SubsetSize(a - {x}, b - {x});
    }
  }
}
