/** The record stream that `repository_state_bytes` feeds to its hasher. */
module HashRecords {
  import opened Options
  import opened Ordering

  type Byte = x: int | 0 <= x < 256

  /** 2 to the power of 64: the lengths that `to_bytes(8, ...)` accepts lie below it. */
  const LIMIT := 0x1_0000_0000_0000_0000

  function Power(n: nat): (p: nat)
    ensures p > 0
  {
    if n == 0 then 1 else 256 * Power(n - 1)
  }

  lemma PowerEight()
    ensures Power(8) == LIMIT
  {
    assert Power(2) == 0x1_0000;
    assert Power(4) == 256 * (256 * Power(2)) == 0x1_0000_0000;
    assert Power(6) == 256 * (256 * Power(4)) == 0x1_0000_0000_0000;
    assert Power(8) == 256 * (256 * Power(6));
  }

  /** `n.to_bytes(width, byteorder="big")` for a number that fits. */
  function BigEndian(n: nat, width: nat): (r: seq<Byte>)
    requires n < Power(width)
    ensures |r| == width
  {
    if width == 0 then []
    else
      assert n / 256 < Power(width - 1) by { Quotient(n, Power(width - 1)); }
      BigEndian(n / 256, width - 1) + [n % 256]
  }

  lemma Quotient(n: nat, p: nat)
    requires n < 256 * p
    ensures n / 256 < p
  {
  }

  /** `int.from_bytes(b, byteorder="big")` */
  function Number(b: seq<Byte>): nat
  {
    if |b| == 0 then 0 else 256 * Number(b[..|b| - 1]) + b[|b| - 1]
  }

  lemma {:induction false} NumberInvertsBigEndian(n: nat, width: nat)
    requires n < Power(width)
    ensures Number(BigEndian(n, width)) == n
  {
    if width > 0 {
      Quotient(n, Power(width - 1));
      NumberInvertsBigEndian(n / 256, width - 1);
      NumberSnoc(BigEndian(n / 256, width - 1), n % 256);
    }
  }

  lemma NumberSnoc(high: seq<Byte>, low: Byte)
    ensures Number(high + [low]) == 256 * Number(high) + low
  {
    assert (high + [low])[..|high|] == high;
  }

  // ---------------------------------------------------------------- records

  datatype Record = Record(tag: seq<Byte>, payload: seq<Byte>)

  /** The part has a length that eight bytes can hold; longer ones raise OverflowError. */
  predicate Fits(part: seq<Byte>)
  {
    |part| < LIMIT
  }

  ghost predicate AllFit(rs: seq<Record>)
  {
    forall i :: 0 <= i < |rs| ==> Fits(rs[i].tag) && Fits(rs[i].payload)
  }

  /** A length in eight bytes, then the part. */
  function Frame(part: seq<Byte>): (r: seq<Byte>)
    requires Fits(part)
    ensures |r| == 8 + |part|
  {
    PowerEight();
    BigEndian(|part|, 8) + part
  }

  function RecordBytes(r: Record): seq<Byte>
    requires Fits(r.tag) && Fits(r.payload)
  {
    Frame(r.tag) + Frame(r.payload)
  }

  /** Everything the hasher has been updated with. */
  function Stream(rs: seq<Record>): seq<Byte>
    requires AllFit(rs)
  {
    if |rs| == 0 then [] else RecordBytes(rs[0]) + Stream(rs[1..])
  }

  /** The bytes given to a hasher so far; SHA-256 is a function of them. */
  class Hasher {
    var fed: seq<Byte>

    constructor ()
      ensures fed == []
    {
      fed := [];
    }

    method Update(bytes: seq<Byte>)
      modifies this
      ensures fed == old(fed) + bytes
    {
      fed := fed + bytes;
    }
  }

  method HashPart(hasher: Hasher, part: seq<Byte>)
    requires Fits(part)
    modifies hasher
    ensures hasher.fed == old(hasher.fed) + Frame(part)
  {
    PowerEight();
    hasher.Update(BigEndian(|part|, 8));
    hasher.Update(part);
  }

  /** `_hash_record`, with its loop over the two parts unrolled. */
  method HashRecord(hasher: Hasher, r: Record)
    requires Fits(r.tag) && Fits(r.payload)
    modifies hasher
    ensures hasher.fed == old(hasher.fed) + RecordBytes(r)
  {
    HashPart(hasher, r.tag);
    HashPart(hasher, r.payload);
  }

  // ---------------------------------------------------------------- decoding

  /** The first part of a stream and the rest. */
  function Unframe(b: seq<Byte>): Option<(seq<Byte>, seq<Byte>)>
  {
    if |b| < 8 || |b| - 8 < Number(b[..8]) then None
    else
      var n := Number(b[..8]);
      Some((b[8..8 + n], b[8 + n..]))
  }

  lemma UnframeInvertsFrame(part: seq<Byte>, rest: seq<Byte>)
    requires Fits(part)
    ensures Unframe(Frame(part) + rest) == Some((part, rest))
  {
    PowerEight();
    var b := Frame(part) + rest;
    NumberInvertsBigEndian(|part|, 8);
    assert b[..8] == BigEndian(|part|, 8);
    assert b[8..8 + |part|] == part && b[8 + |part|..] == rest;
  }

  /** The records of a stream. */
  function Decode(b: seq<Byte>): Option<seq<Record>>
    decreases |b|
  {
    if |b| == 0 then Some([])
    else
      var tag := Unframe(b);
      if tag.None? then None
      else
        var payload := Unframe(tag.value.1);
        if payload.None? then None
        else
          var rest := Decode(payload.value.1);
          if rest.None? then None else Some([Record(tag.value.0, payload.value.0)] + rest.value)
  }

  /** Reading the stream gives the records back. */
  lemma {:induction false} DecodeInvertsStream(rs: seq<Record>)
    requires AllFit(rs)
    ensures Decode(Stream(rs)) == Some(rs)
  {
    if |rs| > 0 {
      var r, rest := rs[0], Stream(rs[1..]);
      DecodeInvertsStream(rs[1..]);
      assert Stream(rs) == Frame(r.tag) + (Frame(r.payload) + rest);
      UnframeInvertsFrame(r.tag, Frame(r.payload) + rest);
      UnframeInvertsFrame(r.payload, rest);
      assert rs == [r] + rs[1..];
    }
  }

  /** Different record sequences give different streams: no record boundary can be shifted. */
  lemma StreamIsInjective(a: seq<Record>, b: seq<Record>)
    requires AllFit(a) && AllFit(b)
    ensures Stream(a) == Stream(b) <==> a == b
  {
    DecodeInvertsStream(a);
    DecodeInvertsStream(b);
  }

  // ---------------------------------------------------------------- the repository state

  /** The bytes of an ASCII literal. */
  function Ascii(s: string): (r: seq<Byte>)
    requires forall i :: 0 <= i < |s| ==> s[i] as int < 128
  {
    seq(|s|, i requires 0 <= i < |s| => s[i] as int)
  }

  /** An untracked path with its kind, mode and content digest. */
  datatype Untracked = Untracked(path: seq<Byte>, kind: seq<Byte>, mode: seq<Byte>, digest: seq<Byte>)

  /** What Git shows of the repository: the head, both diffs and the untracked paths in order. */
  datatype State = State(head: seq<Byte>, indexDiff: seq<Byte>, worktreeDiff: seq<Byte>, untracked: seq<Untracked>)

  // ---------------------------------------------------------------- the untracked paths

  /** What `_untracked_record` reads of a path. */
  datatype Attributes = Attributes(kind: seq<Byte>, mode: seq<Byte>, digest: seq<Byte>)

  /** Reading a path may fail, or find that it changes meanwhile. */
  type Reader = seq<Byte> -> Option<Attributes>

  /** Bytes as code points, to compare them as Python compares `bytes`. */
  function Chars(p: seq<Byte>): string
  {
    seq(|p|, i requires 0 <= i < |p| => p[i] as char)
  }

  predicate PathLe(a: seq<Byte>, b: seq<Byte>)
  {
    LexLe(Chars(a), Chars(b))
  }

  lemma PathLeIsTotalPreorder()
    ensures TotalPreorder(PathLe)
  {
    LexIsTotalPreorder();
  }

  lemma PathLeAntisymmetric(a: seq<Byte>, b: seq<Byte>)
    requires PathLe(a, b) && PathLe(b, a)
    ensures a == b
  {
    LexAntisymmetric(Chars(a), Chars(b));
    assert |Chars(a)| == |a| && |Chars(b)| == |b|;
    forall i | 0 <= i < |a| ensures a[i] == b[i] {
      assert Chars(a)[i] == a[i] as char && Chars(b)[i] == b[i] as char;
    }
  }

  /** The pieces of Git's listing that are not empty. */
  function NonEmpty(pieces: seq<seq<Byte>>): seq<seq<Byte>>
  {
    if |pieces| == 0 then []
    else
      var last := pieces[|pieces| - 1];
      NonEmpty(pieces[..|pieces| - 1]) + if last == [] then [] else [last]
  }

  /** `sorted(path for path in ... if path)` */
  function Paths(pieces: seq<seq<Byte>>): seq<seq<Byte>>
  {
    StableSort(PathLe, NonEmpty(pieces))
  }

  /** The untracked entries of the paths, or None if reading one of them raises. */
  function Entries(paths: seq<seq<Byte>>, read: Reader): Option<seq<Untracked>>
  {
    if |paths| == 0 then Some([])
    else
      var last := paths[|paths| - 1];
      match Entries(paths[..|paths| - 1], read)
      case None => None
      case Some(us) =>
        match read(last)
        case None => None
        case Some(a) => Some(us + [Untracked(last, a.kind, a.mode, a.digest)])
  }

  lemma {:induction false} NonEmptyCounts(pieces: seq<seq<Byte>>, p: seq<Byte>)
    ensures multiset(NonEmpty(pieces))[p] == if p == [] then 0 else multiset(pieces)[p]
  {
    if |pieces| > 0 {
      NonEmptyCounts(pieces[..|pieces| - 1], p);
      assert pieces == pieces[..|pieces| - 1] + [pieces[|pieces| - 1]];
    }
  }

  /** The order in which Git lists the paths does not matter. */
  lemma ListingOrderIsIrrelevant(a: seq<seq<Byte>>, b: seq<seq<Byte>>)
    requires multiset(a) == multiset(b)
    ensures Paths(a) == Paths(b)
  {
    var s, t := NonEmpty(a), NonEmpty(b);
    forall p ensures multiset(s)[p] == multiset(t)[p] {
      NonEmptyCounts(a, p);
      NonEmptyCounts(b, p);
    }
    assert multiset(s) == multiset(t);
    PathLeIsTotalPreorder();
    StableSortSorted(PathLe, s);
    StableSortSorted(PathLe, t);
    StableSortPermutes(PathLe, s);
    StableSortPermutes(PathLe, t);
    forall x, y | PathLe(x, y) && PathLe(y, x) ensures x == y {
      PathLeAntisymmetric(x, y);
    }
    SortedArrangementUnique(PathLe, Paths(a), Paths(b));
  }

  // ---------------------------------------------------------------- the records of a state

  function PathRecords(u: Untracked): seq<Record>
  {
    [Record(Ascii("untracked-path"), u.path), Record(Ascii("untracked-kind"), u.kind),
     Record(Ascii("untracked-mode"), u.mode), Record(Ascii("untracked-content-sha256"), u.digest)]
  }

  function UntrackedRecords(us: seq<Untracked>): seq<Record>
  {
    if |us| == 0 then [] else UntrackedRecords(us[..|us| - 1]) + PathRecords(us[|us| - 1])
  }

  function HeadRecords(s: State): seq<Record>
  {
    [Record(Ascii("head"), s.head), Record(Ascii("index-diff"), s.indexDiff),
     Record(Ascii("worktree-diff"), s.worktreeDiff)]
  }

  /** What Git prints; the listing holds the pieces between the NUL bytes. */
  datatype GitOutput = GitOutput(head: seq<Byte>, indexDiff: seq<Byte>, worktreeDiff: seq<Byte>, listing: seq<seq<Byte>>)

  function HeadOf(g: GitOutput): seq<Record>
  {
    HeadRecords(State(g.head, g.indexDiff, g.worktreeDiff, []))
  }

  ghost predicate PathFits(p: seq<Byte>, read: Reader)
  {
    Fits(p) && (read(p).Some? ==> Fits(read(p).value.kind) && Fits(read(p).value.mode) && Fits(read(p).value.digest))
  }

  function StateRecords(s: State): seq<Record>
  {
    HeadRecords(s) + UntrackedRecords(s.untracked)
  }

  lemma {:induction false} StreamConcat(a: seq<Record>, b: seq<Record>)
    requires AllFit(a) && AllFit(b)
    ensures AllFit(a + b) && Stream(a + b) == Stream(a) + Stream(b)
  {
    if |a| == 0 {
      assert a + b == b;
    } else {
      StreamConcat(a[1..], b);
      assert (a + b)[1..] == a[1..] + b;
      assert RecordBytes(a[0]) + (Stream(a[1..]) + Stream(b)) == RecordBytes(a[0]) + Stream(a[1..]) + Stream(b);
    }
  }

  lemma StreamSnoc(rs: seq<Record>, r: Record)
    requires AllFit(rs) && Fits(r.tag) && Fits(r.payload)
    ensures AllFit(rs + [r]) && Stream(rs + [r]) == Stream(rs) + RecordBytes(r)
  {
    StreamConcat(rs, [r]);
    assert [r][1..] == [];
    assert RecordBytes(r) + [] == RecordBytes(r);
  }

  /** Feed records one by one. */
  method HashAll(hasher: Hasher, rs: seq<Record>)
    requires AllFit(rs)
    modifies hasher
    ensures hasher.fed == old(hasher.fed) + Stream(rs)
  {
    ghost var done: seq<Record> := [];
    for n := 0 to |rs|
      invariant done == rs[..n] && hasher.fed == old(hasher.fed) + Stream(done)
    {
      HashRecord(hasher, rs[n]);
      StreamSnoc(done, rs[n]);
      Associate(old(hasher.fed), Stream(done), RecordBytes(rs[n]));
      done := done + [rs[n]];
    }
    assert done == rs;
  }

  /** The loop over the sorted paths; it stops when reading one of them raises. */
  method HashUntracked(hasher: Hasher, paths: seq<seq<Byte>>, read: Reader) returns (ok: bool)
    requires forall n :: 0 <= n < |paths| ==> PathFits(paths[n], read)
    modifies hasher
    ensures ok == Entries(paths, read).Some?
    ensures ok ==> AllFit(UntrackedRecords(Entries(paths, read).value)) &&
                   hasher.fed == old(hasher.fed) + Stream(UntrackedRecords(Entries(paths, read).value))
  {
    ghost var done: seq<Untracked> := [];
    for n := 0 to |paths|
      invariant Entries(paths[..n], read) == Some(done) && AllFit(UntrackedRecords(done))
      invariant hasher.fed == old(hasher.fed) + Stream(UntrackedRecords(done))
    {
      assert paths[..n + 1][..n] == paths[..n];
      var a := read(paths[n]);
      if a.None? {
        StopsAt(paths, n + 1, read);
        return false;
      }
      var u := Untracked(paths[n], a.value.kind, a.value.mode, a.value.digest);
      assert PathFits(paths[n], read);
      PathRecordsFit(u);
      HashAll(hasher, PathRecords(u));
      UntrackedSnoc(done, u);
      Associate(old(hasher.fed), Stream(UntrackedRecords(done)), Stream(PathRecords(u)));
      done := done + [u];
    }
    assert paths[..|paths|] == paths;
    ok := true;
  }

  lemma {:induction false} StopsAt(paths: seq<seq<Byte>>, n: nat, read: Reader)
    requires n <= |paths| && Entries(paths[..n], read).None?
    ensures Entries(paths, read).None?
    decreases |paths| - n
  {
    if n < |paths| {
      assert paths[..n + 1][..n] == paths[..n];
      StopsAt(paths, n + 1, read);
    } else {
      assert paths[..n] == paths;
    }
  }

  lemma Associate(a: seq<Byte>, b: seq<Byte>, c: seq<Byte>)
    ensures a + b + c == a + (b + c)
  {
  }

  lemma PathRecordsFit(u: Untracked)
    requires Fits(u.path) && Fits(u.kind) && Fits(u.mode) && Fits(u.digest)
    ensures AllFit(PathRecords(u))
  {
  }

  lemma UntrackedSnoc(us: seq<Untracked>, u: Untracked)
    requires AllFit(UntrackedRecords(us)) && AllFit(PathRecords(u))
    ensures AllFit(UntrackedRecords(us + [u]))
    ensures Stream(UntrackedRecords(us + [u])) == Stream(UntrackedRecords(us)) + Stream(PathRecords(u))
  {
    assert (us + [u])[..|us|] == us;
    StreamConcat(UntrackedRecords(us), PathRecords(u));
  }

  /** The state that is fingerprinted, or None if a path cannot be read. */
  function StateOf(g: GitOutput, read: Reader): Option<State>
  {
    match Entries(Paths(g.listing), read)
    case None => None
    case Some(us) => Some(State(g.head, g.indexDiff, g.worktreeDiff, us))
  }

  /** Everything fits that Git shows and that is read of the listed paths. */
  ghost predicate OutputFits(g: GitOutput, read: Reader)
  {
    && Fits(g.head) && Fits(g.indexDiff) && Fits(g.worktreeDiff)
    && forall p :: p in g.listing ==> PathFits(p, read)
  }

  lemma {:induction false} NonEmptyMembers(pieces: seq<seq<Byte>>)
    ensures forall p :: p in NonEmpty(pieces) ==> p in pieces
  {
    if |pieces| > 0 {
      NonEmptyMembers(pieces[..|pieces| - 1]);
    }
  }

  lemma PathsFit(g: GitOutput, read: Reader)
    requires OutputFits(g, read)
    ensures forall n :: 0 <= n < |Paths(g.listing)| ==> PathFits(Paths(g.listing)[n], read)
  {
    forall n | 0 <= n < |Paths(g.listing)| ensures PathFits(Paths(g.listing)[n], read) {
      SortMember(PathLe, NonEmpty(g.listing), Paths(g.listing)[n]);
      NonEmptyMembers(g.listing);
    }
  }

  /** `repository_state_bytes`, from Git's output on: the bytes that are hashed, or nothing when a
      path could not be read or the head moved meanwhile. */
  method RepositoryState(g: GitOutput, read: Reader, headAfter: seq<Byte>) returns (fed: Option<seq<Byte>>)
    requires OutputFits(g, read)
    ensures StateOf(g, read).Some? ==> AllFit(StateRecords(StateOf(g, read).value))
    ensures fed == if StateOf(g, read).Some? && headAfter == g.head
                   then Some(Stream(StateRecords(StateOf(g, read).value))) else None
  {
    PathsFit(g, read);
    var hasher := new Hasher();
    HashAll(hasher, HeadOf(g));
    assert hasher.fed == Stream(HeadOf(g));
    var ok := HashUntracked(hasher, Paths(g.listing), read);
    if !ok {
      return None;
    }
    StateStream(g, read);
    fed := if headAfter == g.head then Some(hasher.fed) else None;
  }

  /** The head records followed by those of the paths are the records of the state. */
  lemma StateStream(g: GitOutput, read: Reader)
    requires AllFit(HeadOf(g)) && Entries(Paths(g.listing), read).Some?
    requires AllFit(UntrackedRecords(Entries(Paths(g.listing), read).value))
    ensures StateOf(g, read).Some? && AllFit(StateRecords(StateOf(g, read).value))
    ensures Stream(StateRecords(StateOf(g, read).value)) ==
            Stream(HeadOf(g)) + Stream(UntrackedRecords(Entries(Paths(g.listing), read).value))
  {
    StreamConcat(HeadOf(g), UntrackedRecords(Entries(Paths(g.listing), read).value));
  }

  /** Two listings of the same paths give the same fingerprint. */
  lemma StateIgnoresListingOrder(g: GitOutput, h: GitOutput, read: Reader)
    requires g == h.(listing := g.listing) && multiset(g.listing) == multiset(h.listing)
    ensures StateOf(g, read) == StateOf(h, read)
  {
    ListingOrderIsIrrelevant(g.listing, h.listing);
  }

  lemma {:induction false} UntrackedRecordsInjective(a: seq<Untracked>, b: seq<Untracked>)
    requires UntrackedRecords(a) == UntrackedRecords(b)
    ensures a == b
  {
    RecordCount(a);
    RecordCount(b);
    if |a| > 0 {
      var ra, rb := UntrackedRecords(a), UntrackedRecords(b);
      var a', b' := a[..|a| - 1], b[..|b| - 1];
      RecordCount(a');
      RecordCount(b');
      assert ra[..|ra| - 4] == UntrackedRecords(a') && rb[..|rb| - 4] == UntrackedRecords(b');
      UntrackedRecordsInjective(a', b');
      assert ra[|ra| - 4..] == PathRecords(a[|a| - 1]) && rb[|rb| - 4..] == PathRecords(b[|b| - 1]);
      SamePath(a[|a| - 1], b[|b| - 1]);
      assert a == a' + [a[|a| - 1]] && b == b' + [b[|b| - 1]];
    }
  }

  lemma SamePath(u: Untracked, v: Untracked)
    requires PathRecords(u) == PathRecords(v)
    ensures u == v
  {
    var p, q := PathRecords(u), PathRecords(v);
    assert p[0] == q[0] && p[1] == q[1] && p[2] == q[2] && p[3] == q[3];
  }

  lemma {:induction false} RecordCount(us: seq<Untracked>)
    ensures |UntrackedRecords(us)| == 4 * |us|
  {
    if |us| > 0 {
      RecordCount(us[..|us| - 1]);
    }
  }

  /** The hashed bytes determine the whole state: the head, both diffs and every untracked path with
      its kind, mode and content digest. */
  lemma StateIsDetermined(a: State, b: State)
    requires AllFit(StateRecords(a)) && AllFit(StateRecords(b))
    ensures Stream(StateRecords(a)) == Stream(StateRecords(b)) <==> a == b
  {
    StreamIsInjective(StateRecords(a), StateRecords(b));
    if StateRecords(a) == StateRecords(b) {
      var ra, rb := StateRecords(a), StateRecords(b);
      assert ra[0] == rb[0] && ra[1] == rb[1] && ra[2] == rb[2];
      assert ra[3..] == UntrackedRecords(a.untracked) && rb[3..] == UntrackedRecords(b.untracked);
      UntrackedRecordsInjective(a.untracked, b.untracked);
    }
  }
}
