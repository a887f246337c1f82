/** `do_output_prep`: the pre-order walk that appends one table entry and
    one name per node and writes every file's payload into the image at a
    32-byte boundary. `Prep` states what one call leaves behind;
    `OutputPrep` is the walk itself, proved to do exactly that. */
module Builder {
  import opened Bytes
  import opened Sink
  import opened Vfs
  import opened Fst

  /** What the walk threads through its calls: the entry vector, the name
      bank and the writer. */
  datatype Build = Build(entries: seq<FstEntry>, bank: seq<byte>, sink: SinkState)

  /** The outcome of `do_output_prep(n, .., parent)` on `b`. A file's entry
      records where its payload was put; a directory's placeholder entry is
      backfilled with the entry count once its children are done. */
  function Prep(n: Node, b: Build, parent: nat): (r: Build)
    decreases n
    ensures |r.entries| == |b.entries| + |Nodes(n)|
  {
    match n
    case File(name, data) =>
      var offset := PadTo32(b.sink.pos);
      var written := Put(SeekTo(b.sink, offset), data);
      var padded := Put(written, Zeros((32 - |data| % 32) % 32));
      Build(b.entries + [FstEntry(FstNodeType.File, |b.bank|, offset, |data|)],
            b.bank + name + [0], padded)
    case Directory(name, cs) =>
      var i := |b.entries|;
      var placeholder := FstEntry(FstNodeType.Directory, |b.bank|, parent, 0);
      var w := PrepSeq(cs, Build(b.entries + [placeholder], b.bank + name + [0], b.sink), i);
      w.(entries := w.entries[i := w.entries[i].(fileSizeNextDirIndex := |w.entries|)])
  }

  /** The walk over a sequence of siblings, all with the same parent. */
  function PrepSeq(cs: seq<Node>, b: Build, parent: nat): (r: Build)
    decreases cs
    ensures |r.entries| == |b.entries| + |NodesSeq(cs)|
  {
    if cs == [] then b else PrepSeq(cs[1..], Prep(cs[0], b, parent), parent)
  }

  /** One step of the walk over siblings. */
  lemma {:induction false} PrepSeqStep(cs: seq<Node>, b: Build, parent: nat)
    requires cs != []
    ensures PrepSeq(cs, b, parent) == PrepSeq(cs[1..], Prep(cs[0], b, parent), parent)
  {
  }

  // ---------------------------------------------------------------------
  // Append-only: earlier entries and bank bytes are never touched.

  /** A walk only appends: the entries that were there stay as they were,
      and the bank grows by exactly the names of the subtree, in pre-order. */
  lemma {:induction false} PrepAppends(n: Node, b: Build, parent: nat)
    decreases n
    ensures Prep(n, b, parent).entries[..|b.entries|] == b.entries
    ensures Prep(n, b, parent).bank == b.bank + Names(Nodes(n))
  {
    var r := Prep(n, b, parent);
    match n
    case File(name, _) =>
      NamesCons(n, []);
      assert Nodes(n) == [n] + [];
      assert r.bank == b.bank + (name + [0] + Names([]));
      assert r.entries[..|b.entries|] == b.entries;
    case Directory(name, cs) =>
      var i := |b.entries|;
      var b1 := Build(b.entries + [FstEntry(FstNodeType.Directory, |b.bank|, parent, 0)],
                      b.bank + name + [0], b.sink);
      PrepSeqAppends(cs, b1, i);
      var w := PrepSeq(cs, b1, i);
      assert r.entries == w.entries[i := w.entries[i].(fileSizeNextDirIndex := |w.entries|)];
      forall k | 0 <= k < i
        ensures r.entries[k] == b.entries[k]
      {
        assert w.entries[..i + 1][k] == b1.entries[k];
      }
      assert r.entries[..i] == b.entries;
      NamesCons(n, NodesSeq(cs));
      assert r.bank == b1.bank + Names(NodesSeq(cs));
      assert r.bank == b.bank + (name + [0] + Names(NodesSeq(cs)));
  }

  lemma {:induction false} PrepSeqAppends(cs: seq<Node>, b: Build, parent: nat)
    decreases cs
    ensures PrepSeq(cs, b, parent).entries[..|b.entries|] == b.entries
    ensures PrepSeq(cs, b, parent).bank == b.bank + Names(NodesSeq(cs))
  {
    if cs != [] {
      var b1 := Prep(cs[0], b, parent);
      PrepAppends(cs[0], b, parent);
      PrepSeqAppends(cs[1..], b1, parent);
      var r := PrepSeq(cs[1..], b1, parent);
      assert r.entries[..|b.entries|] == r.entries[..|b1.entries|][..|b.entries|];
      NamesConcat(Nodes(cs[0]), NodesSeq(cs[1..]));
    }
  }

  // ---------------------------------------------------------------------
  // Entry kinds, name offsets and the size / next-index field.

  /** The entry for node `n`, emitted at `index`, whose name starts at
      `nameOffset` in the bank. A file's second field is its length; a
      directory's is one past the last index of its subtree. */
  ghost predicate EntryFor(e: FstEntry, n: Node, index: nat, nameOffset: nat)
  {
    e.fileNameOffset == nameOffset &&
    match n
    case File(_, data) =>
      e.kind == FstNodeType.File && e.fileSizeNextDirIndex == |data|
    case Directory(_, _) =>
      e.kind == FstNodeType.Directory && e.fileSizeNextDirIndex == index + |Nodes(n)|
  }

  /** Entry `i + k` of `es` describes node `k` of the listing `ns`, whose
      names are packed from bank offset `o` on. */
  ghost predicate EntryAt(es: seq<FstEntry>, i: nat, ns: seq<Node>, o: nat, k: nat)
  {
    i + k < |es| && k < |ns| && EntryFor(es[i + k], ns[k], i + k, o + |Names(ns[..k])|)
  }

  /** Entries `i ..` of `es` describe the listing `ns`, with names packed
      from bank offset `o` on. */
  ghost predicate EntriesMatch(es: seq<FstEntry>, i: nat, ns: seq<Node>, o: nat)
  {
    i + |ns| <= |es| && forall k :: 0 <= k < |ns| ==> EntryAt(es, i, ns, o, k)
  }

  /** A record of the first part of a listing still describes the same
      node of a longer listing. */
  lemma {:induction false} EntryAtLeft(es: seq<FstEntry>, i: nat, a: seq<Node>, c: seq<Node>, o: nat, k: nat)
    requires EntryAt(es, i, a, o, k)
    ensures EntryAt(es, i, a + c, o, k)
  {
    assert (a + c)[..k] == a[..k] && (a + c)[k] == a[k];
  }

  /** A record of the second part describes its node in the concatenation,
      whose names start after those of the first part. */
  lemma {:induction false} EntryAtRight(es: seq<FstEntry>, i: nat, a: seq<Node>, c: seq<Node>, o: nat, k: nat)
    requires |a| <= k && EntryAt(es, i + |a|, c, o + |Names(a)|, k - |a|)
    ensures EntryAt(es, i, a + c, o, k)
  {
    var k' := k - |a|;
    assert (a + c)[..k] == a + c[..k'] && (a + c)[k] == c[k'];
    NamesConcat(a, c[..k']);
    assert i + |a| + k' == i + k;
  }

  lemma {:induction false} MatchConcat(es: seq<FstEntry>, i: nat, a: seq<Node>, c: seq<Node>, o: nat)
    requires EntriesMatch(es, i, a, o)
    requires EntriesMatch(es, i + |a|, c, o + |Names(a)|)
    ensures EntriesMatch(es, i, a + c, o)
  {
    forall k | 0 <= k < |a + c|
      ensures EntryAt(es, i, a + c, o, k)
    {
      if k < |a| {
        EntryAtLeft(es, i, a, c, o, k);
      } else {
        EntryAtRight(es, i, a, c, o, k);
      }
    }
  }

  /** Appending entries keeps the match. */
  lemma {:induction false} MatchPrefix(es: seq<FstEntry>, es': seq<FstEntry>, i: nat, ns: seq<Node>, o: nat)
    requires EntriesMatch(es, i, ns, o) && |es| <= |es'| && es'[..|es|] == es
    ensures EntriesMatch(es', i, ns, o)
  {
    forall k | 0 <= k < |ns|
      ensures EntryAt(es', i, ns, o, k)
    {
      assert EntryAt(es, i, ns, o, k);
      assert es'[..|es|][i + k] == es[i + k];
    }
  }

  /** Each node of the subtree gets an entry of its kind, in pre-order, each
      naming its own span of the bank and carrying its size field. */
  lemma {:induction false} PrepEntries(n: Node, b: Build, parent: nat)
    decreases n
    ensures EntriesMatch(Prep(n, b, parent).entries, |b.entries|, Nodes(n), |b.bank|)
  {
    var r := Prep(n, b, parent);
    var i := |b.entries|;
    match n
    case File(_, _) =>
      assert Nodes(n)[..0] == [];
      assert EntryAt(r.entries, i, Nodes(n), |b.bank|, 0);
    case Directory(name, cs) =>
      var b1 := Build(b.entries + [FstEntry(FstNodeType.Directory, |b.bank|, parent, 0)],
                      b.bank + name + [0], b.sink);
      PrepSeqEntries(cs, b1, i);
      BackfillKeeps(n, b, parent);
      DirectoryEntryAt(n, b, parent);
      NamesCons(n, []);
      assert [n] + [] == [n];
      MatchConcat(r.entries, i, [n], NodesSeq(cs), |b.bank|);
  }

  /** The backfill of a directory's entry leaves the entries of its
      descendants as the walk over its children made them. */
  lemma {:induction false} BackfillKeeps(n: Node, b: Build, parent: nat)
    requires n.Directory?
    requires EntriesMatch(PrepSeq(n.children, Build(b.entries + [FstEntry(FstNodeType.Directory, |b.bank|, parent, 0)],
                                                    b.bank + n.name + [0], b.sink), |b.entries|).entries,
                          |b.entries| + 1, NodesSeq(n.children), |b.bank| + |n.name| + 1)
    ensures EntriesMatch(Prep(n, b, parent).entries, |b.entries| + 1, NodesSeq(n.children),
                         |b.bank| + |n.name| + 1)
  {
    var i := |b.entries|;
    var b1 := Build(b.entries + [FstEntry(FstNodeType.Directory, |b.bank|, parent, 0)],
                    b.bank + n.name + [0], b.sink);
    var w := PrepSeq(n.children, b1, i);
    var r := Prep(n, b, parent);
    assert r.entries == w.entries[i := w.entries[i].(fileSizeNextDirIndex := |w.entries|)];
    MatchUpdateBefore(w.entries, i, w.entries[i].(fileSizeNextDirIndex := |w.entries|),
                      i + 1, NodesSeq(n.children), |b.bank| + |n.name| + 1);
  }

  /** Changing an entry in front of a matched range keeps the match. */
  lemma {:induction false} MatchUpdateBefore(es: seq<FstEntry>, j: nat, e: FstEntry, i: nat, ns: seq<Node>, o: nat)
    requires EntriesMatch(es, i, ns, o) && j < i
    ensures EntriesMatch(es[j := e], i, ns, o)
  {
    var es' := es[j := e];
    forall k | 0 <= k < |ns|
      ensures EntryAt(es', i, ns, o, k)
    {
      assert EntryAt(es, i, ns, o, k);
      assert es'[i + k] == es[i + k];
    }
  }

  /** A directory's own entry describes it, as the first of its listing. */
  lemma {:induction false} DirectoryEntryAt(n: Node, b: Build, parent: nat)
    requires n.Directory?
    ensures EntryAt(Prep(n, b, parent).entries, |b.entries|, [n], |b.bank|, 0)
  {
    PrepTop(n, b, parent);
    assert [n][..0] == [];
  }

  lemma {:induction false} PrepSeqEntries(cs: seq<Node>, b: Build, parent: nat)
    decreases cs
    ensures EntriesMatch(PrepSeq(cs, b, parent).entries, |b.entries|, NodesSeq(cs), |b.bank|)
  {
    if cs != [] {
      var b1 := Prep(cs[0], b, parent);
      var r := PrepSeq(cs[1..], b1, parent);
      PrepEntries(cs[0], b, parent);
      PrepAppends(cs[0], b, parent);
      PrepSeqAppends(cs[1..], b1, parent);
      PrepSeqEntries(cs[1..], b1, parent);
      MatchPrefix(b1.entries, r.entries, |b.entries|, Nodes(cs[0]), |b.bank|);
      MatchConcat(r.entries, |b.entries|, Nodes(cs[0]), NodesSeq(cs[1..]), |b.bank|);
    }
  }

  /** The entry of the node a call starts with. A directory's sits at the
      index the vector had on entry, names the parent it was given, and ends
      its subtree after all descendants, so an empty directory's ends one
      after itself. A file's records the 32-byte aligned offset its payload
      went to, and the cursor ends on the next boundary after the payload. */
  lemma {:induction false} PrepTop(n: Node, b: Build, parent: nat)
    ensures var r := Prep(n, b, parent);
      var i := |b.entries|;
      match n
      case File(_, data) =>
        r.entries[i] == FstEntry(FstNodeType.File, |b.bank|, AlignUp(b.sink.pos, 32), |data|) &&
        r.sink.pos == AlignUp(b.sink.pos, 32) + AlignUp(|data|, 32)
      case Directory(_, cs) =>
        r.entries[i] == FstEntry(FstNodeType.Directory, |b.bank|, parent, i + |Nodes(n)|) &&
        i < r.entries[i].fileSizeNextDirIndex &&
        (cs == [] ==> r.entries[i].fileSizeNextDirIndex == i + 1)
  {
    match n
    case File(_, data) =>
      PadTo32IsAlignUp(b.sink.pos);
      TrailingPad(AlignUp(b.sink.pos, 32), |data|);
    case Directory(name, cs) =>
      var b1 := Build(b.entries + [FstEntry(FstNodeType.Directory, |b.bank|, parent, 0)],
                      b.bank + name + [0], b.sink);
      PrepSeqAppends(cs, b1, |b.entries|);
      assert PrepSeq(cs, b1, |b.entries|).entries[|b.entries|] == b1.entries[|b.entries|];
  }

  /** The names before node `k` of a listing take up strictly less of the
      bank than the names before a later node `k'`. */
  lemma {:induction false} NamesPrefixGrows(ns: seq<Node>, k: nat, k': nat)
    requires k < k' <= |ns|
    ensures |Names(ns[..k])| < |Names(ns[..k'])|
  {
    assert ns[..k'] == ns[..k] + ns[k..k'];
    NamesConcat(ns[..k], ns[k..k']);
    assert ns[k..k'] != [];
  }

  /** The name offset of entry `i + k` of a matching table is where node
      `k`'s name and its 0 terminator sit in the bank of the listing. */
  lemma {:induction false} NameOfEntry(es: seq<FstEntry>, i: nat, ns: seq<Node>, k: nat)
    requires EntriesMatch(es, i, ns, 0) && k < |ns|
    ensures es[i + k].fileNameOffset == |Names(ns[..k])|
    ensures Holds(Names(ns), es[i + k].fileNameOffset, ns[k].name + [0])
  {
    assert EntryAt(es, i, ns, 0, k);
    NameInBank(ns, k);
  }

  /** Reading the bank of a listing at an entry's name offset gives the
      node's name and its 0 terminator. */
  lemma {:induction false} NamesInBank(es: seq<FstEntry>, i: nat, ns: seq<Node>)
    requires EntriesMatch(es, i, ns, 0)
    ensures forall k :: 0 <= k < |ns| ==>
      Holds(Names(ns), es[i + k].fileNameOffset, ns[k].name + [0])
  {
    forall k | 0 <= k < |ns|
      ensures Holds(Names(ns), es[i + k].fileNameOffset, ns[k].name + [0])
    {
      NameOfEntry(es, i, ns, k);
    }
  }

  /** Name offsets strictly increase in entry order, so no two entries of a
      table share a name. */
  lemma {:induction false} NameOffsetsIncrease(es: seq<FstEntry>, i: nat, ns: seq<Node>)
    requires EntriesMatch(es, i, ns, 0)
    ensures forall j, j' :: i <= j < j' < i + |ns| ==>
      es[j].fileNameOffset < es[j'].fileNameOffset
  {
    forall j, j' | i <= j < j' < i + |ns|
      ensures es[j].fileNameOffset < es[j'].fileNameOffset
    {
      OffsetsOrdered(es, i, ns, j - i, j' - i);
    }
  }

  lemma {:induction false} OffsetsOrdered(es: seq<FstEntry>, i: nat, ns: seq<Node>, k: nat, k': nat)
    requires EntriesMatch(es, i, ns, 0) && k < k' < |ns|
    ensures es[i + k].fileNameOffset < es[i + k'].fileNameOffset
  {
    assert EntryAt(es, i, ns, 0, k) && EntryAt(es, i, ns, 0, k');
    NamesPrefixGrows(ns, k, k');
  }

  // ---------------------------------------------------------------------
  // Parent links.

  /** Every directory entry in `lo .. hi` names an earlier directory entry
      as its parent. */
  ghost predicate ParentsBefore(es: seq<FstEntry>, lo: nat, hi: nat)
  {
    lo <= hi <= |es| &&
    forall j :: lo <= j < hi && es[j].kind == FstNodeType.Directory ==>
      es[j].fileOffsetParentDir < j &&
      es[es[j].fileOffsetParentDir].kind == FstNodeType.Directory
  }

  /** Following parent fields from any directory entry of a table whose
      directories all name earlier directories: the chain of indices it
      visits, which strictly decreases and ends at the root entry 0. */
  function PathToRoot(es: seq<FstEntry>, j: nat): (p: seq<nat>)
    requires ParentsBefore(es, 1, |es|) && j < |es| && es[j].kind == FstNodeType.Directory
    decreases j
    ensures |p| >= 1 && p[0] == j && p[|p| - 1] == 0
    ensures forall k :: 0 <= k < |p| ==> p[k] < |es| && es[p[k]].kind == FstNodeType.Directory
    ensures forall k :: 0 <= k < |p| - 1 ==> p[k + 1] == es[p[k]].fileOffsetParentDir < p[k]
  {
    if j == 0 then [0] else [j] + PathToRoot(es, es[j].fileOffsetParentDir)
  }

  /** `es'` agrees with `es` on the kind and parent field of entries `..n`. */
  ghost predicate SameLinks(es: seq<FstEntry>, es': seq<FstEntry>, n: nat)
  {
    n <= |es| && n <= |es'| &&
    forall j :: 0 <= j < n ==>
      es'[j].kind == es[j].kind && es'[j].fileOffsetParentDir == es[j].fileOffsetParentDir
  }

  lemma {:induction false} ParentsSame(es: seq<FstEntry>, es': seq<FstEntry>, lo: nat, hi: nat)
    requires ParentsBefore(es, lo, hi) && SameLinks(es, es', hi)
    ensures ParentsBefore(es', lo, hi)
  {
    forall j | lo <= j < hi && es'[j].kind == FstNodeType.Directory
      ensures es'[j].fileOffsetParentDir < j
      ensures es'[es'[j].fileOffsetParentDir].kind == FstNodeType.Directory
    {
      assert es[j].kind == FstNodeType.Directory;
    }
  }

  lemma {:induction false} PrefixSameLinks(es: seq<FstEntry>, es': seq<FstEntry>)
    requires |es| <= |es'| && es'[..|es|] == es
    ensures SameLinks(es, es', |es|)
  {
    forall j | 0 <= j < |es|
      ensures es'[j] == es[j]
    {
      assert es'[..|es|][j] == es[j];
    }
  }

  /** A walk given a directory entry as parent only emits directory entries
      whose parent is an earlier directory entry. */
  lemma {:induction false} PrepParents(n: Node, b: Build, parent: nat)
    requires parent < |b.entries| && b.entries[parent].kind == FstNodeType.Directory
    decreases n
    ensures ParentsBefore(Prep(n, b, parent).entries, |b.entries|, |Prep(n, b, parent).entries|)
  {
    var r := Prep(n, b, parent);
    var i := |b.entries|;
    PrepAppends(n, b, parent);
    match n
    case File(_, _) =>
    case Directory(name, cs) =>
      var b1 := Build(b.entries + [FstEntry(FstNodeType.Directory, |b.bank|, parent, 0)],
                      b.bank + name + [0], b.sink);
      var w := PrepSeq(cs, b1, i);
      PrepSeqParents(cs, b1, i);
      PrepSeqAppends(cs, b1, i);
      assert w.entries[i] == b1.entries[i];
      assert SameLinks(w.entries, r.entries, |w.entries|);
      ParentsSame(w.entries, r.entries, i + 1, |w.entries|);
      assert r.entries[parent] == b.entries[parent] by {
        assert r.entries[..i][parent] == b.entries[parent];
      }
  }

  lemma {:induction false} PrepSeqParents(cs: seq<Node>, b: Build, parent: nat)
    requires parent < |b.entries| && b.entries[parent].kind == FstNodeType.Directory
    decreases cs
    ensures ParentsBefore(PrepSeq(cs, b, parent).entries, |b.entries|, |PrepSeq(cs, b, parent).entries|)
  {
    if cs != [] {
      var b1 := Prep(cs[0], b, parent);
      var r := PrepSeq(cs[1..], b1, parent);
      PrepParents(cs[0], b, parent);
      PrepAppends(cs[0], b, parent);
      assert b1.entries[parent] == b.entries[parent] by {
        assert b1.entries[..|b.entries|][parent] == b.entries[parent];
      }
      PrepSeqParents(cs[1..], b1, parent);
      PrepSeqAppends(cs[1..], b1, parent);
      PrefixSameLinks(b1.entries, r.entries);
      ParentsSame(b1.entries, r.entries, |b.entries|, |b1.entries|);
    }
  }

  /** Each of the siblings `cs`, whose entries start at `i`, starts where
      its elder siblings' subtrees end, and a directory among them names
      `parent` as its parent. */
  ghost predicate SiblingsOf(es: seq<FstEntry>, i: nat, cs: seq<Node>, parent: nat)
  {
    forall j :: 0 <= j < |cs| ==>
      i + |NodesSeq(cs[..j])| < |es| &&
      (cs[j].Directory? ==> es[i + |NodesSeq(cs[..j])|].fileOffsetParentDir == parent)
  }

  lemma {:induction false} NodesSeqPrefixTail(cs: seq<Node>, j: nat)
    requires 1 <= j <= |cs|
    ensures NodesSeq(cs[..j]) == Nodes(cs[0]) + NodesSeq(cs[1..][..j - 1])
  {
    assert cs[..j][0] == cs[0] && cs[..j][1..] == cs[1..][..j - 1];
  }

  lemma {:induction false} SiblingsCons(es: seq<FstEntry>, i: nat, cs: seq<Node>, parent: nat)
    requires cs != [] && i < |es|
    requires cs[0].Directory? ==> es[i].fileOffsetParentDir == parent
    requires SiblingsOf(es, i + |Nodes(cs[0])|, cs[1..], parent)
    ensures SiblingsOf(es, i, cs, parent)
  {
    forall j | 0 <= j < |cs|
      ensures i + |NodesSeq(cs[..j])| < |es|
      ensures cs[j].Directory? ==> es[i + |NodesSeq(cs[..j])|].fileOffsetParentDir == parent
    {
      if j == 0 {
        assert cs[..0] == [];
      } else {
        NodesSeqPrefixTail(cs, j);
        assert cs[1..][j - 1] == cs[j];
      }
    }
  }

  lemma {:induction false} SiblingsPrefix(es: seq<FstEntry>, es': seq<FstEntry>, i: nat, cs: seq<Node>, parent: nat)
    requires SiblingsOf(es, i, cs, parent)
    requires |es| <= |es'| && es'[..|es|] == es
    ensures SiblingsOf(es', i, cs, parent)
  {
    forall j | 0 <= j < |es|
      ensures es'[j] == es[j]
    {
      assert es'[..|es|][j] == es[j];
    }
  }

  /** The siblings of one walk all name the parent they were given, and
      each starts where its elder siblings' subtrees end. */
  lemma {:induction false} PrepSeqSiblings(cs: seq<Node>, b: Build, parent: nat)
    decreases cs
    ensures SiblingsOf(PrepSeq(cs, b, parent).entries, |b.entries|, cs, parent)
  {
    if cs != [] {
      var b1 := Prep(cs[0], b, parent);
      var r := PrepSeq(cs[1..], b1, parent);
      PrepSeqSiblings(cs[1..], b1, parent);
      PrepSeqAppends(cs[1..], b1, parent);
      PrepTop(cs[0], b, parent);
      assert r.entries[|b.entries|] == r.entries[..|b1.entries|][|b.entries|];
      SiblingsCons(r.entries, |b.entries|, cs, parent);
    }
  }

  /** The children of a directory entry name it as their parent. */
  lemma {:induction false} DirectoryChildren(name: seq<byte>, cs: seq<Node>, b: Build, parent: nat)
    ensures SiblingsOf(Prep(Node.Directory(name, cs), b, parent).entries, |b.entries| + 1, cs, |b.entries|)
  {
    var i := |b.entries|;
    var b1 := Build(b.entries + [FstEntry(FstNodeType.Directory, |b.bank|, parent, 0)],
                    b.bank + name + [0], b.sink);
    var w := PrepSeq(cs, b1, i);
    var r := Prep(Node.Directory(name, cs), b, parent);
    PrepSeqSiblings(cs, b1, i);
    forall j | 0 <= j < |cs|
      ensures i + 1 + |NodesSeq(cs[..j])| < |r.entries|
      ensures r.entries[i + 1 + |NodesSeq(cs[..j])|].fileOffsetParentDir
           == w.entries[i + 1 + |NodesSeq(cs[..j])|].fileOffsetParentDir
    {
    }
  }

  // ---------------------------------------------------------------------
  // File payloads in the image.

  /** A payload followed by its trailing pad of `(32 - len % 32) % 32`
      zero bytes: it fills whole 32-byte blocks. */
  function WithPad(data: seq<byte>): (r: seq<byte>)
    ensures |r| == AlignUp(|data|, 32) && r[..|data|] == data
    ensures forall q :: |data| <= q < |r| ==> r[q] == 0
  {
    PadTo32IsAlignUp(|data|);
    data + Zeros((32 - |data| % 32) % 32)
  }

  /** A payload placed at `at`: on a 32-byte boundary, between `lo` and
      `hi` together with its trailing pad, and present in `d` followed by
      that pad (an empty payload occupies no bytes). */
  ghost predicate Placed(at: nat, data: seq<byte>, d: seq<byte>, lo: nat, hi: nat)
  {
    at % 32 == 0 && lo <= at && at + |WithPad(data)| <= hi && (data != [] ==> Holds(d, at, WithPad(data)))
  }

  /** If node `k` of the listing `ns` is a file, its payload is placed where
      entry `i + k` of `es` says. */
  ghost predicate FileAt(es: seq<FstEntry>, i: nat, ns: seq<Node>, d: seq<byte>, lo: nat, hi: nat, k: nat)
  {
    i + k < |es| && k < |ns| &&
    (ns[k].File? ==> Placed(es[i + k].fileOffsetParentDir, ns[k].data, d, lo, hi))
  }

  /** Every file of the listing `ns`, whose entries start at `i`, has its
      payload placed where its entry says. */
  ghost predicate FilesPlaced(es: seq<FstEntry>, i: nat, ns: seq<Node>, d: seq<byte>, lo: nat, hi: nat)
  {
    i + |ns| <= |es| && forall k :: 0 <= k < |ns| ==> FileAt(es, i, ns, d, lo, hi, k)
  }

  lemma {:induction false} FileAtLeft(es: seq<FstEntry>, i: nat, a: seq<Node>, c: seq<Node>, d: seq<byte>,
                   lo: nat, mid: nat, hi: nat, k: nat)
    requires mid <= hi && FileAt(es, i, a, d, lo, mid, k)
    ensures FileAt(es, i, a + c, d, lo, hi, k)
  {
    assert (a + c)[k] == a[k];
  }

  lemma {:induction false} FileAtRight(es: seq<FstEntry>, i: nat, a: seq<Node>, c: seq<Node>, d: seq<byte>,
                    lo: nat, mid: nat, hi: nat, k: nat)
    requires lo <= mid && |a| <= k && FileAt(es, i + |a|, c, d, mid, hi, k - |a|)
    ensures FileAt(es, i, a + c, d, lo, hi, k)
  {
    assert (a + c)[k] == c[k - |a|];
    assert i + |a| + (k - |a|) == i + k;
  }

  lemma {:induction false} FilesConcat(es: seq<FstEntry>, i: nat, a: seq<Node>, c: seq<Node>, d: seq<byte>,
                    lo: nat, mid: nat, hi: nat)
    requires lo <= mid <= hi
    requires FilesPlaced(es, i, a, d, lo, mid) && FilesPlaced(es, i + |a|, c, d, mid, hi)
    ensures FilesPlaced(es, i, a + c, d, lo, hi)
  {
    forall k | 0 <= k < |a + c|
      ensures FileAt(es, i, a + c, d, lo, hi, k)
    {
      if k < |a| {
        FileAtLeft(es, i, a, c, d, lo, mid, hi, k);
      } else {
        FileAtRight(es, i, a, c, d, lo, mid, hi, k);
      }
    }
  }

  /** Changing an entry in front of the listing's entries keeps the files
      placed. */
  lemma {:induction false} FilesUpdateBefore(es: seq<FstEntry>, j: nat, e: FstEntry, i: nat, ns: seq<Node>, d: seq<byte>,
                          lo: nat, hi: nat)
    requires FilesPlaced(es, i, ns, d, lo, hi) && j < i
    ensures FilesPlaced(es[j := e], i, ns, d, lo, hi)
  {
    var es' := es[j := e];
    forall k | 0 <= k < |ns|
      ensures FileAt(es', i, ns, d, lo, hi, k)
    {
      assert FileAt(es, i, ns, d, lo, hi, k);
      assert es'[i + k] == es[i + k];
    }
  }

  /** Appending entries keeps the files placed. */
  lemma {:induction false} FilesPrefix(es: seq<FstEntry>, es': seq<FstEntry>, i: nat, ns: seq<Node>, d: seq<byte>,
                    lo: nat, hi: nat)
    requires FilesPlaced(es, i, ns, d, lo, hi) && |es| <= |es'| && es'[..|es|] == es
    ensures FilesPlaced(es', i, ns, d, lo, hi)
  {
    forall k | 0 <= k < |ns|
      ensures FileAt(es', i, ns, d, lo, hi, k)
    {
      assert FileAt(es, i, ns, d, lo, hi, k);
      assert es'[..|es|][i + k] == es[i + k];
    }
  }

  /** Payloads below the cursor of `s` survive everything that keeps `s`. */
  lemma {:induction false} FilesKept(es: seq<FstEntry>, i: nat, ns: seq<Node>, s: SinkState, d: seq<byte>, lo: nat)
    requires FilesPlaced(es, i, ns, s.data, lo, s.pos) && Keeps(s, d)
    ensures FilesPlaced(es, i, ns, d, lo, s.pos)
  {
    forall k | 0 <= k < |ns|
      ensures FileAt(es, i, ns, d, lo, s.pos, k)
    {
      assert FileAt(es, i, ns, s.data, lo, s.pos, k);
      if ns[k].File? && ns[k].data != [] {
        KeepsHolds(s, d, es[i + k].fileOffsetParentDir, WithPad(ns[k].data));
      }
    }
  }

  /** The walk writes only at or after the cursor it starts with, moves the
      cursor forward (onto a 32-byte boundary once any file was written) and
      leaves every file of the subtree placed where its entry says. */
  lemma {:induction false} PrepSink(n: Node, b: Build, parent: nat)
    decreases n
    ensures var r := Prep(n, b, parent);
      b.sink.pos <= r.sink.pos && Keeps(b.sink, r.sink.data) &&
      (r.sink.pos == b.sink.pos || r.sink.pos % 32 == 0) &&
      FilesPlaced(r.entries, |b.entries|, Nodes(n), r.sink.data, b.sink.pos, r.sink.pos)
  {
    var r := Prep(n, b, parent);
    var i := |b.entries|;
    match n
    case File(name, data) =>
      FileSink(n, b, parent);
    case Directory(name, cs) =>
      var b1 := Build(b.entries + [FstEntry(FstNodeType.Directory, |b.bank|, parent, 0)],
                      b.bank + name + [0], b.sink);
      var w := PrepSeq(cs, b1, i);
      PrepSeqSink(cs, b1, i);
      assert r.entries == w.entries[i := w.entries[i].(fileSizeNextDirIndex := |w.entries|)];
      FilesUpdateBefore(w.entries, i, w.entries[i].(fileSizeNextDirIndex := |w.entries|),
                        i + 1, NodesSeq(cs), r.sink.data, b.sink.pos, r.sink.pos);
      assert FileAt(r.entries, i, [n], r.sink.data, b.sink.pos, b.sink.pos, 0);
      FilesConcat(r.entries, i, [n], NodesSeq(cs), r.sink.data, b.sink.pos, b.sink.pos, r.sink.pos);
  }

  /** `PrepSink` for a file: its payload goes to the next 32-byte boundary,
      then the padding to the boundary after it. */
  lemma {:induction false} FileSink(n: Node, b: Build, parent: nat)
    requires n.File?
    ensures var r := Prep(n, b, parent);
      b.sink.pos <= r.sink.pos && Keeps(b.sink, r.sink.data) &&
      r.sink.pos % 32 == 0 &&
      FilesPlaced(r.entries, |b.entries|, Nodes(n), r.sink.data, b.sink.pos, r.sink.pos)
  {
    FileCursor(n, b, parent);
    FilePayload(n, b, parent);
  }

  lemma {:induction false} FileCursor(n: Node, b: Build, parent: nat)
    requires n.File?
    ensures var r := Prep(n, b, parent);
      b.sink.pos <= r.sink.pos && Keeps(b.sink, r.sink.data) && r.sink.pos % 32 == 0
  {
    var data := n.data;
    var seek := SeekTo(b.sink, PadTo32(b.sink.pos));
    assert Prep(n, b, parent).sink == Put(Put(seek, data), Zeros((32 - |data| % 32) % 32));
    PaddedWrite(b.sink, data);
  }

  /** A payload written at the next 32-byte boundary and padded to the one
      after it keeps what was in front of the cursor. */
  lemma {:induction false} PaddedWrite(s: SinkState, data: seq<byte>)
    ensures var r := Put(Put(SeekTo(s, PadTo32(s.pos)), data), Zeros((32 - |data| % 32) % 32));
      s.pos <= r.pos && Keeps(s, r.data) && r.pos % 32 == 0
  {
    var offset := PadTo32(s.pos);
    PadTo32IsAlignUp(s.pos);
    var seek := SeekTo(s, offset);
    var written := Put(seek, data);
    TrailingPad(offset, |data|);
    PutKeeps(s, seek, data);
    PutKeeps(s, written, Zeros((32 - |data| % 32) % 32));
  }

  lemma {:induction false} FilePayload(n: Node, b: Build, parent: nat)
    requires n.File?
    ensures var r := Prep(n, b, parent);
      FileAt(r.entries, |b.entries|, Nodes(n), r.sink.data, b.sink.pos, r.sink.pos, 0)
  {
    var data := n.data;
    var seek := SeekTo(b.sink, PadTo32(b.sink.pos));
    var r := Prep(n, b, parent);
    assert r.sink == Put(Put(seek, data), Zeros((32 - |data| % 32) % 32));
    assert r.entries[|b.entries|].fileOffsetParentDir == PadTo32(b.sink.pos);
    PaddedPayload(b.sink, data);
  }

  /** A payload written at the next 32-byte boundary and padded sits there,
      on the boundary, followed by its zero pad, below the cursor. */
  lemma {:induction false} PaddedPayload(s: SinkState, data: seq<byte>)
    ensures var offset := PadTo32(s.pos);
      var written := Put(SeekTo(s, offset), data);
      var r := Put(written, Zeros((32 - |data| % 32) % 32));
      Placed(offset, data, r.data, s.pos, r.pos)
  {
    var offset := PadTo32(s.pos);
    PadTo32IsAlignUp(s.pos);
    var seek := SeekTo(s, offset);
    var pad := Zeros((32 - |data| % 32) % 32);
    PutPut(seek, data, pad);
    if data != [] {
      PutHolds(seek, data + pad);
    }
  }

  lemma {:induction false} PrepSeqSink(cs: seq<Node>, b: Build, parent: nat)
    decreases cs
    ensures var r := PrepSeq(cs, b, parent);
      b.sink.pos <= r.sink.pos && Keeps(b.sink, r.sink.data) &&
      (r.sink.pos == b.sink.pos || r.sink.pos % 32 == 0) &&
      FilesPlaced(r.entries, |b.entries|, NodesSeq(cs), r.sink.data, b.sink.pos, r.sink.pos)
  {
    if cs != [] {
      var b1 := Prep(cs[0], b, parent);
      var r := PrepSeq(cs[1..], b1, parent);
      PrepSink(cs[0], b, parent);
      PrepSeqSink(cs[1..], b1, parent);
      PrepSeqAppends(cs[1..], b1, parent);
      KeepsTrans(b.sink, b1.sink, r.sink.data);
      FilesKept(b1.entries, |b.entries|, Nodes(cs[0]), b1.sink, r.sink.data, b.sink.pos);
      FilesPrefix(b1.entries, r.entries, |b.entries|, Nodes(cs[0]), r.sink.data, b.sink.pos, b1.sink.pos);
      FilesConcat(r.entries, |b.entries|, Nodes(cs[0]), NodesSeq(cs[1..]), r.sink.data,
                  b.sink.pos, b1.sink.pos, r.sink.pos);
    } else {
      assert FilesPlaced(b.entries, |b.entries|, [], b.sink.data, b.sink.pos, b.sink.pos);
    }
  }

  // ---------------------------------------------------------------------
  // The walk itself.

  /** `for _ in 0..n { writer.write_all(&[0])?; }`. */
  method WriteZeros(sink: Cursor, n: nat)
    modifies sink
    ensures sink.State() == Put(old(sink.State()), Zeros(n))
  {
    var i := 0;
    while i < n
      invariant 0 <= i <= n
      invariant sink.State() == Put(old(sink.State()), Zeros(i))
    {
      PutPut(old(sink.State()), Zeros(i), [0]);
      assert Zeros(i) + [0] == Zeros(i + 1);
      sink.WriteAll([0]);
      i := i + 1;
    }
  }

  /** `do_output_prep(node, output_fst, fst_name_bank, writer, parent)`: the
      vectors passed by `&mut` come in as `entries`, `bank` and go out as
      `entries'`, `bank'`. */
  method OutputPrep(node: Node, entries: seq<FstEntry>, bank: seq<byte>, sink: Cursor, parent: nat)
    returns (entries': seq<FstEntry>, bank': seq<byte>)
    modifies sink
    decreases node
    ensures Build(entries', bank', sink.State()) == Prep(node, Build(entries, bank, old(sink.State())), parent)
  {
    match node
    case Directory(name, cs) =>
      var fstEnt := FstEntry(FstNodeType.Directory, |bank|, parent, 0);
      bank' := bank + name + [0];
      var thisDirIndex := |entries|;
      entries' := entries + [fstEnt];
      ghost var start := Build(entries', bank', sink.State());
      var k := 0;
      while k < |cs|
        invariant 0 <= k <= |cs|
        invariant PrepSeq(cs[k..], Build(entries', bank', sink.State()), thisDirIndex)
               == PrepSeq(cs, start, thisDirIndex)
      {
        assert cs[k..][0] == cs[k] && cs[k..][1..] == cs[k + 1..];
        entries', bank' := OutputPrep(cs[k], entries', bank', sink, thisDirIndex);
        k := k + 1;
      }
      assert cs[k..] == [];
      var dirEndIndex := |entries'|;
      entries' := entries'[thisDirIndex := entries'[thisDirIndex].(fileSizeNextDirIndex := dirEndIndex)];
    case File(name, data) =>
      var fstEnt := FstEntry(FstNodeType.File, |bank|, 0, |data|);
      bank' := bank + name + [0];
      var pos := sink.StreamPosition();
      var newPos := pos + (32 - pos % 32) % 32;
      sink.SeekStart(newPos);
      fstEnt := fstEnt.(fileOffsetParentDir := newPos);
      sink.WriteAll(data);
      WriteZeros(sink, (32 - |data| % 32) % 32);
      entries' := entries + [fstEnt];
  }
}
