/** `write_iso`: lays out a disc image from a virtual tree. The boot files of
    `&&systemdata` come first (header, apploader, then the executable on a
    `dolAlignment` boundary), then the file table on an `fstAlignment`
    boundary, then every other file's payload; finally the table is written
    into the space reserved for it and four header words are patched. */
module IsoWriter {
  import opened Bytes
  import opened Sink
  import opened Vfs
  import opened Fst
  import opened Builder

  /** The constants `DOL_ALIGNMENT`, `FST_ALIGNMENT` and `OFFSET_DOL_OFFSET`
      of the writer. */
  datatype Config = Config(dolAlignment: nat, fstAlignment: nat, offsetDolOffset: nat)

  predicate ValidConfig(cfg: Config)
  {
    cfg.dolAlignment > 0 && cfg.fstAlignment > 0
  }

  /** The special entries whose absence makes the call fail. */
  datatype IsoError = NoSystemData | NoIsoHeader | NoAppLoader | NoDol

  datatype Outcome = Pass | Fail(error: IsoError)

  /** What a call returns together with what it left in the writer. */
  datatype Run = Run(outcome: Outcome, sink: SinkState)

  /** What the lookups found: the three boot payloads and the top-level
      children other than `&&systemdata`, in order. */
  datatype Layout = Layout(header: seq<byte>, apploader: seq<byte>, dol: seq<byte>, top: seq<Node>)

  /** No child of `cs` is what `q` looks for. */
  predicate Lacks(cs: seq<Node>, q: Query)
  {
    forall j :: 0 <= j < |cs| ==> !Matches(q, cs[j])
  }

  /** The first child of `cs` that `q` looks for. */
  function First(cs: seq<Node>, q: Query): (n: Node)
    requires !Lacks(cs, q)
    ensures Matches(q, n) && n in cs
  {
    cs[Find(cs, q).value]
  }

  /** The lookups of `write_iso` taken together: the first `&&systemdata`
      directory among the root's children, and in it the first `iso.hdr`,
      the first `AppLoader.ldr` and the first file ending in `.dol`. */
  function Boot(root: Node): (r: Option<Layout>)
    requires root.Directory?
    ensures r.Some? <==>
      !Lacks(root.children, DirectoryNamed(SYSTEM_DATA)) &&
      var sys := First(root.children, DirectoryNamed(SYSTEM_DATA)).children;
      !Lacks(sys, FileNamed(ISO_HDR)) && !Lacks(sys, FileNamed(APP_LOADER)) &&
      !Lacks(sys, FileWithSuffix(DOL_SUFFIX))
    ensures r.Some? ==>
      var si := Find(root.children, DirectoryNamed(SYSTEM_DATA)).value;
      var sys := root.children[si].children;
      r.value == Layout(First(sys, FileNamed(ISO_HDR)).data, First(sys, FileNamed(APP_LOADER)).data,
                        First(sys, FileWithSuffix(DOL_SUFFIX)).data, Without(root.children, si))
  {
    match Find(root.children, DirectoryNamed(SYSTEM_DATA))
    case None => None
    case Some(si) =>
      var sys := root.children[si].children;
      match (Find(sys, FileNamed(ISO_HDR)), Find(sys, FileNamed(APP_LOADER)),
             Find(sys, FileWithSuffix(DOL_SUFFIX)))
      case (Some(hi), Some(ai), Some(di)) =>
        Some(Layout(sys[hi].data, sys[ai].data, sys[di].data, Without(root.children, si)))
      case _ => None
  }

  // ---------------------------------------------------------------------
  // Region offsets.

  /** `dol_offset`: header and apploader rounded up to `DOL_ALIGNMENT`. */
  function DolOffset(header: seq<byte>, apploader: seq<byte>, cfg: Config): (r: nat)
    requires ValidConfig(cfg)
    ensures |header| + |apploader| <= r < |header| + |apploader| + cfg.dolAlignment
    ensures r % cfg.dolAlignment == 0
  {
    AlignUp(|header| + |apploader|, cfg.dolAlignment)
  }

  /** `fst_list_offset`: the end of the executable rounded up to
      `FST_ALIGNMENT`. */
  function FstListOffset(l: Layout, cfg: Config): (r: nat)
    requires ValidConfig(cfg)
    ensures var dolEnd := DolOffset(l.header, l.apploader, cfg) + |l.dol|;
      dolEnd <= r < dolEnd + cfg.fstAlignment && r % cfg.fstAlignment == 0
  {
    AlignUp(DolOffset(l.header, l.apploader, cfg) + |l.dol|, cfg.fstAlignment)
  }

  /** `fst_len`: 12 bytes for the root entry, then `calculate_fst_len` over
      the top-level children other than `&&systemdata`. */
  function FstLength(l: Layout): (r: nat)
    ensures r == 12 * (1 + |NodesSeq(l.top)|) + |Names(NodesSeq(l.top))|
  {
    FstLenSeq(12, l.top)
  }

  /** Each region starts at the least multiple of its alignment at or above
      the end of what precedes it. */
  lemma {:induction false} RegionOffsets(l: Layout, cfg: Config)
    requires ValidConfig(cfg)
    ensures var dolOff := DolOffset(l.header, l.apploader, cfg);
      |l.header| + |l.apploader| <= dolOff && dolOff % cfg.dolAlignment == 0 &&
      (forall m: nat :: m >= |l.header| + |l.apploader| && m % cfg.dolAlignment == 0 ==> dolOff <= m)
    ensures var fstOff := FstListOffset(l, cfg);
      DolOffset(l.header, l.apploader, cfg) + |l.dol| <= fstOff && fstOff % cfg.fstAlignment == 0 &&
      (forall m: nat :: m >= DolOffset(l.header, l.apploader, cfg) + |l.dol| && m % cfg.fstAlignment == 0 ==>
         fstOff <= m)
  {
    forall m: nat | m >= |l.header| + |l.apploader| && m % cfg.dolAlignment == 0
      ensures DolOffset(l.header, l.apploader, cfg) <= m
    {
      AlignUpLeast(|l.header| + |l.apploader|, cfg.dolAlignment, m);
    }
    forall m: nat | m >= DolOffset(l.header, l.apploader, cfg) + |l.dol| && m % cfg.fstAlignment == 0
      ensures FstListOffset(l, cfg) <= m
    {
      AlignUpLeast(DolOffset(l.header, l.apploader, cfg) + |l.dol|, cfg.fstAlignment, m);
    }
  }

  /** The four header words: `dol_offset`, `fst_list_offset` and `fst_len`
      twice, each `as u32`, big-endian. */
  function HeaderPatch(l: Layout, cfg: Config): (r: seq<byte>)
    requires ValidConfig(cfg)
    ensures |r| == 16
  {
    BeU32(AsU32(DolOffset(l.header, l.apploader, cfg))) + BeU32(AsU32(FstListOffset(l, cfg)))
      + BeU32(AsU32(FstLength(l))) + BeU32(AsU32(FstLength(l)))
  }

  /** Reading the patch back gives the executable offset, the table offset
      and the table length twice, each reduced to 32 bits. */
  lemma {:induction false} HeaderPatchWords(l: Layout, cfg: Config)
    requires ValidConfig(cfg)
    ensures var p := HeaderPatch(l, cfg);
      DecodeU32(p[0..4]) == AsU32(DolOffset(l.header, l.apploader, cfg)) &&
      DecodeU32(p[4..8]) == AsU32(FstListOffset(l, cfg)) &&
      DecodeU32(p[8..12]) == AsU32(FstLength(l)) &&
      DecodeU32(p[12..16]) == AsU32(FstLength(l))
  {
    var a, b, c := BeU32(AsU32(DolOffset(l.header, l.apploader, cfg))), BeU32(AsU32(FstListOffset(l, cfg))),
      BeU32(AsU32(FstLength(l)));
    WordSlices(a, b, c, c);
  }

  /** The four words of a 16-byte patch are its 4-byte slices. */
  lemma {:induction false} WordSlices(a: seq<byte>, b: seq<byte>, c: seq<byte>, d: seq<byte>)
    requires |a| == |b| == |c| == |d| == 4
    ensures var p := a + b + c + d;
      p[0..4] == a && p[4..8] == b && p[8..12] == c && p[12..16] == d
  {
    var p := a + b + c + d;
    assert p[0..4] == a by { assert forall i | 0 <= i < 4 :: p[i] == a[i]; }
    assert p[4..8] == b by { assert forall i | 0 <= i < 4 :: p[4 + i] == b[i]; }
    assert p[8..12] == c by { assert forall i | 0 <= i < 4 :: p[8 + i] == c[i]; }
    assert p[12..16] == d by { assert forall i | 0 <= i < 4 :: p[12 + i] == d[i]; }
  }

  // ---------------------------------------------------------------------
  // The table.

  /** The root placeholder: a directory entry with every other field 0. */
  const ROOT_PLACEHOLDER: FstEntry := FstEntry(FstNodeType.Directory, 0, 0, 0)

  /** The walk over the top-level children with parent 0, after the root
      placeholder; the root entry is then given the entry count. */
  function BuildFst(top: seq<Node>, s: SinkState): (r: Build)
    ensures |r.entries| == 1 + |NodesSeq(top)|
  {
    var w := PrepSeq(top, Build([ROOT_PLACEHOLDER], [], s), 0);
    w.(entries := w.entries[0 := w.entries[0].(fileSizeNextDirIndex := |w.entries|)])
  }

  /** The finished table: entry 0 is the root directory with parent 0 and
      the entry count as its end index; the other entries describe the
      top-level subtrees in pre-order, names packed from bank offset 0;
      and table plus bank take exactly the bytes `fst_len` reserved. */
  lemma {:induction false} BuildFstEntries(top: seq<Node>, s: SinkState)
    ensures var b := BuildFst(top, s);
      b.entries[0] == FstEntry(FstNodeType.Directory, 0, 0, |b.entries|) &&
      b.bank == Names(NodesSeq(top)) &&
      EntriesMatch(b.entries, 1, NodesSeq(top), 0) &&
      12 * |b.entries| + |b.bank| == FstLenSeq(12, top)
  {
    var b0 := Build([ROOT_PLACEHOLDER], [], s);
    var w := PrepSeq(top, b0, 0);
    var b := BuildFst(top, s);
    PrepSeqAppends(top, b0, 0);
    assert w.entries[0] == w.entries[..1][0];
    PrepSeqEntries(top, b0, 0);
    MatchUpdateBefore(w.entries, 0, w.entries[0].(fileSizeNextDirIndex := |w.entries|), 1, NodesSeq(top), 0);
  }

  /** Every directory entry names an earlier directory entry as its parent,
      and the top-level children name the root. */
  lemma {:induction false} BuildFstLinks(top: seq<Node>, s: SinkState)
    ensures var b := BuildFst(top, s);
      b.entries[0].kind == FstNodeType.Directory &&
      ParentsBefore(b.entries, 1, |b.entries|) &&
      SiblingsOf(b.entries, 1, top, 0)
  {
    var b0 := Build([ROOT_PLACEHOLDER], [], s);
    var w := PrepSeq(top, b0, 0);
    var b := BuildFst(top, s);
    PrepSeqAppends(top, b0, 0);
    assert w.entries[0] == w.entries[..1][0];
    PrepSeqParents(top, b0, 0);
    assert SameLinks(w.entries, b.entries, |w.entries|);
    ParentsSame(w.entries, b.entries, 1, |w.entries|);
    PrepSeqSiblings(top, b0, 0);
    forall j | 0 <= j < |top|
      ensures 1 + |NodesSeq(top[..j])| < |b.entries|
      ensures b.entries[1 + |NodesSeq(top[..j])|].fileOffsetParentDir
           == w.entries[1 + |NodesSeq(top[..j])|].fileOffsetParentDir
    {
    }
  }

  /** Root closure: from every directory entry the parent links lead to
      the root entry 0. */
  lemma {:induction false} RootClosure(top: seq<Node>, s: SinkState, j: nat)
    requires j < |BuildFst(top, s).entries| && BuildFst(top, s).entries[j].kind == FstNodeType.Directory
    ensures var es := BuildFst(top, s).entries;
      ParentsBefore(es, 1, |es|) &&
      var p := PathToRoot(es, j);
      p[0] == j && p[|p| - 1] == 0
  {
    BuildFstLinks(top, s);
  }

  /** The payloads: the walk writes only at or after the cursor it starts
      with, and every file of the top-level subtrees lies where its entry
      says, on a 32-byte boundary. */
  lemma {:induction false} BuildFstSink(top: seq<Node>, s: SinkState)
    ensures var b := BuildFst(top, s);
      s.pos <= b.sink.pos && Keeps(s, b.sink.data) &&
      FilesPlaced(b.entries, 1, NodesSeq(top), b.sink.data, s.pos, b.sink.pos)
  {
    var b0 := Build([ROOT_PLACEHOLDER], [], s);
    var w := PrepSeq(top, b0, 0);
    var b := BuildFst(top, s);
    PrepSeqSink(top, b0, 0);
    FilesUpdateBefore(w.entries, 0, w.entries[0].(fileSizeNextDirIndex := |w.entries|),
                      1, NodesSeq(top), b.sink.data, s.pos, b.sink.pos);
  }

  // ---------------------------------------------------------------------
  // The writes of one call.

  /** Header and apploader, then the zero gap up to the executable. */
  function BootWrites(header: seq<byte>, apploader: seq<byte>, cfg: Config, s0: SinkState): (r: SinkState)
    requires ValidConfig(cfg)
    ensures r.pos == s0.pos + DolOffset(header, apploader, cfg)
  {
    Put(Put(Put(s0, header), apploader),
        Zeros(DolOffset(header, apploader, cfg) - (|header| + |apploader|)))
  }

  /** After the boot writes: the executable, the gap up to the table and
      `fst_len` zero bytes reserved for it. */
  function Reserve(l: Layout, cfg: Config, s: SinkState): (r: SinkState)
    requires ValidConfig(cfg)
    ensures r.pos + DolOffset(l.header, l.apploader, cfg) == s.pos + FstListOffset(l, cfg) + FstLength(l)
  {
    var dolEnd := DolOffset(l.header, l.apploader, cfg) + |l.dol|;
    Put(Put(Put(s, l.dol), Zeros(FstListOffset(l, cfg) - dolEnd)), Zeros(FstLength(l)))
  }

  /** The two back-patches: `table` at `at`, then `patch` at `p`. */
  function WriteBack(s: SinkState, at: nat, table: seq<byte>, p: nat, patch: seq<byte>): (r: SinkState)
    ensures r.pos == p + |patch|
  {
    Put(SeekTo(Put(SeekTo(s, at), table), p), patch)
  }

  /** After the boot writes: the reservation, the walk over the top-level
      children, the table and the name bank written back at
      `fst_list_offset`, then the header patch at `OFFSET_DOL_OFFSET`. */
  function Emit(l: Layout, cfg: Config, s: SinkState): (r: SinkState)
    requires ValidConfig(cfg)
    ensures r.pos == cfg.offsetDolOffset + 16
  {
    var b := BuildFst(l.top, Reserve(l, cfg, s));
    WriteBack(b.sink, FstListOffset(l, cfg), EncodeEntries(b.entries) + b.bank, cfg.offsetDolOffset,
              HeaderPatch(l, cfg))
  }

  /** The whole successful call from writer state `s0`. */
  function Finish(l: Layout, cfg: Config, s0: SinkState): (r: SinkState)
    requires ValidConfig(cfg)
    ensures r.pos == cfg.offsetDolOffset + 16
  {
    Emit(l, cfg, BootWrites(l.header, l.apploader, cfg, s0))
  }

  /** The table the successful call builds from writer state `s0`. */
  function Table(l: Layout, cfg: Config, s0: SinkState): Build
    requires ValidConfig(cfg)
  {
    BuildFst(l.top, Reserve(l, cfg, BootWrites(l.header, l.apploader, cfg, s0)))
  }

  /** `write_iso(writer, root)` from writer state `s0`. The lookups take the
      first matching child; a failed lookup ends the call, leaving what was
      written before it in the writer. */
  function WriteIsoSpec(root: Node, cfg: Config, s0: SinkState): (r: Run)
    requires root.Directory? && ValidConfig(cfg)
    ensures r.outcome == Fail(NoSystemData) <==> Lacks(root.children, DirectoryNamed(SYSTEM_DATA))
    ensures !Lacks(root.children, DirectoryNamed(SYSTEM_DATA)) ==>
      var sys := root.children[Find(root.children, DirectoryNamed(SYSTEM_DATA)).value].children;
      (r.outcome == Fail(NoIsoHeader) <==> Lacks(sys, FileNamed(ISO_HDR))) &&
      (r.outcome == Fail(NoAppLoader) <==>
         !Lacks(sys, FileNamed(ISO_HDR)) && Lacks(sys, FileNamed(APP_LOADER))) &&
      (r.outcome == Fail(NoDol) <==>
         !Lacks(sys, FileNamed(ISO_HDR)) && !Lacks(sys, FileNamed(APP_LOADER)) &&
         Lacks(sys, FileWithSuffix(DOL_SUFFIX))) &&
      (r.outcome == Fail(NoAppLoader) ==> r.sink == Put(s0, First(sys, FileNamed(ISO_HDR)).data)) &&
      (r.outcome == Fail(NoDol) ==>
         r.sink == BootWrites(First(sys, FileNamed(ISO_HDR)).data, First(sys, FileNamed(APP_LOADER)).data,
                              cfg, s0))
    ensures r.outcome == Fail(NoSystemData) || r.outcome == Fail(NoIsoHeader) ==> r.sink == s0
    ensures r.outcome.Pass? <==> Boot(root).Some?
    ensures r.outcome.Pass? ==> r.sink == Finish(Boot(root).value, cfg, s0)
  {
    match Find(root.children, DirectoryNamed(SYSTEM_DATA))
    case None => Run(Fail(NoSystemData), s0)
    case Some(si) =>
      var sys := root.children[si].children;
      match Find(sys, FileNamed(ISO_HDR))
      case None => Run(Fail(NoIsoHeader), s0)
      case Some(hi) =>
        var header := sys[hi].data;
        match Find(sys, FileNamed(APP_LOADER))
        case None => Run(Fail(NoAppLoader), Put(s0, header))
        case Some(ai) =>
          var apploader := sys[ai].data;
          match Find(sys, FileWithSuffix(DOL_SUFFIX))
          case None => Run(Fail(NoDol), BootWrites(header, apploader, cfg, s0))
          case Some(di) =>
            var l := Layout(header, apploader, sys[di].data, Without(root.children, si));
            Run(Pass, Finish(l, cfg, s0))
  }

  // ---------------------------------------------------------------------
  // The image, written from an empty writer.

  /** The bytes in front of the table's back-patch: header, apploader, the
      zero gap, the executable, the zero gap and the reserved zeros. */
  function Preamble(l: Layout, cfg: Config): (p: seq<byte>)
    requires ValidConfig(cfg)
    ensures |p| == FstListOffset(l, cfg) + FstLength(l)
  {
    var dolOff := DolOffset(l.header, l.apploader, cfg);
    l.header + l.apploader + Zeros(dolOff - (|l.header| + |l.apploader|))
      + l.dol + Zeros(FstListOffset(l, cfg) - (dolOff + |l.dol|)) + Zeros(FstLength(l))
  }

  /** On an empty writer the boot writes only append. */
  lemma {:induction false} BootFromEmpty(header: seq<byte>, apploader: seq<byte>, cfg: Config)
    requires ValidConfig(cfg)
    ensures var z1 := Zeros(DolOffset(header, apploader, cfg) - (|header| + |apploader|));
      BootWrites(header, apploader, cfg, SinkState([], 0))
        == SinkState(header + apploader + z1, |header + apploader + z1|)
  {
    var z1 := Zeros(DolOffset(header, apploader, cfg) - (|header| + |apploader|));
    PutAtEnd(SinkState([], 0), header);
    assert [] + header == header;
    PutAtEnd(SinkState(header, |header|), apploader);
    PutAtEnd(SinkState(header + apploader, |header + apploader|), z1);
  }

  /** On a writer at its end the reservation only appends. */
  lemma {:induction false} ReserveAtEnd(l: Layout, cfg: Config, d: seq<byte>)
    requires ValidConfig(cfg)
    ensures var z2 := Zeros(FstListOffset(l, cfg) - (DolOffset(l.header, l.apploader, cfg) + |l.dol|));
      Reserve(l, cfg, SinkState(d, |d|))
        == SinkState(d + l.dol + z2 + Zeros(FstLength(l)), |d + l.dol + z2 + Zeros(FstLength(l))|)
  {
    var z2 := Zeros(FstListOffset(l, cfg) - (DolOffset(l.header, l.apploader, cfg) + |l.dol|));
    PutAtEnd(SinkState(d, |d|), l.dol);
    PutAtEnd(SinkState(d + l.dol, |d + l.dol|), z2);
    PutAtEnd(SinkState(d + l.dol + z2, |d + l.dol + z2|), Zeros(FstLength(l)));
  }

  /** On an empty writer the sequential writes only append. */
  lemma {:induction false} ReserveFromEmpty(l: Layout, cfg: Config)
    requires ValidConfig(cfg)
    ensures Reserve(l, cfg, BootWrites(l.header, l.apploader, cfg, SinkState([], 0)))
         == SinkState(Preamble(l, cfg), |Preamble(l, cfg)|)
  {
    var z1 := Zeros(DolOffset(l.header, l.apploader, cfg) - (|l.header| + |l.apploader|));
    BootFromEmpty(l.header, l.apploader, cfg);
    ReserveAtEnd(l, cfg, l.header + l.apploader + z1);
  }

  /** Where each piece of the preamble sits: the header at 0, ... */
  lemma {:induction false} PreambleHeader(l: Layout, cfg: Config)
    requires ValidConfig(cfg)
    ensures Holds(Preamble(l, cfg), 0, l.header)
  {
    var dolOff := DolOffset(l.header, l.apploader, cfg);
    var z1 := Zeros(dolOff - (|l.header| + |l.apploader|));
    var z2 := Zeros(FstListOffset(l, cfg) - (dolOff + |l.dol|));
    var h := l.header;
    assert Holds(h, 0, h);
    HoldsPrefix(h, 0, h, l.apploader);
    HoldsPrefix(h + l.apploader, 0, h, z1);
    HoldsPrefix(h + l.apploader + z1, 0, h, l.dol);
    HoldsPrefix(h + l.apploader + z1 + l.dol, 0, h, z2);
    HoldsPrefix(h + l.apploader + z1 + l.dol + z2, 0, h, Zeros(FstLength(l)));
  }

  /** ... the apploader right after it, ... */
  lemma {:induction false} PreambleApploader(l: Layout, cfg: Config)
    requires ValidConfig(cfg)
    ensures Holds(Preamble(l, cfg), |l.header|, l.apploader)
  {
    var dolOff := DolOffset(l.header, l.apploader, cfg);
    var z1 := Zeros(dolOff - (|l.header| + |l.apploader|));
    var z2 := Zeros(FstListOffset(l, cfg) - (dolOff + |l.dol|));
    var x := l.header + l.apploader;
    HoldsSuffix(l.header, l.apploader);
    HoldsPrefix(x, |l.header|, l.apploader, z1);
    HoldsPrefix(x + z1, |l.header|, l.apploader, l.dol);
    HoldsPrefix(x + z1 + l.dol, |l.header|, l.apploader, z2);
    HoldsPrefix(x + z1 + l.dol + z2, |l.header|, l.apploader, Zeros(FstLength(l)));
  }

  /** ... zeros up to `dol_offset`, ... */
  lemma {:induction false} PreambleDolGap(l: Layout, cfg: Config)
    requires ValidConfig(cfg)
    ensures var dolOff := DolOffset(l.header, l.apploader, cfg);
      Holds(Preamble(l, cfg), |l.header| + |l.apploader|, Zeros(dolOff - (|l.header| + |l.apploader|)))
  {
    var dolOff := DolOffset(l.header, l.apploader, cfg);
    var z1 := Zeros(dolOff - (|l.header| + |l.apploader|));
    var z2 := Zeros(FstListOffset(l, cfg) - (dolOff + |l.dol|));
    var x := l.header + l.apploader;
    HoldsSuffix(x, z1);
    HoldsPrefix(x + z1, |x|, z1, l.dol);
    HoldsPrefix(x + z1 + l.dol, |x|, z1, z2);
    HoldsPrefix(x + z1 + l.dol + z2, |x|, z1, Zeros(FstLength(l)));
  }

  /** ... the executable at `dol_offset`, ... */
  lemma {:induction false} PreambleDol(l: Layout, cfg: Config)
    requires ValidConfig(cfg)
    ensures Holds(Preamble(l, cfg), DolOffset(l.header, l.apploader, cfg), l.dol)
  {
    var dolOff := DolOffset(l.header, l.apploader, cfg);
    var z1 := Zeros(dolOff - (|l.header| + |l.apploader|));
    var z2 := Zeros(FstListOffset(l, cfg) - (dolOff + |l.dol|));
    var x := l.header + l.apploader + z1;
    assert |x| == dolOff;
    HoldsSuffix(x, l.dol);
    HoldsPrefix(x + l.dol, |x|, l.dol, z2);
    HoldsPrefix(x + l.dol + z2, |x|, l.dol, Zeros(FstLength(l)));
  }

  /** ... and zeros up to `fst_list_offset`. */
  lemma {:induction false} PreambleFstGap(l: Layout, cfg: Config)
    requires ValidConfig(cfg)
    ensures var dolEnd := DolOffset(l.header, l.apploader, cfg) + |l.dol|;
      Holds(Preamble(l, cfg), dolEnd, Zeros(FstListOffset(l, cfg) - dolEnd))
  {
    var dolOff := DolOffset(l.header, l.apploader, cfg);
    var z1 := Zeros(dolOff - (|l.header| + |l.apploader|));
    var z2 := Zeros(FstListOffset(l, cfg) - (dolOff + |l.dol|));
    var x := l.header + l.apploader + z1 + l.dol;
    assert |x| == dolOff + |l.dol|;
    HoldsSuffix(x, z2);
    HoldsPrefix(x + z2, |x|, z2, Zeros(FstLength(l)));
  }

  /** A write that ends at or before `lo` leaves placed payloads placed. */
  lemma {:induction false} FilesThroughPut(es: seq<FstEntry>, i: nat, ns: seq<Node>, s: SinkState, x: seq<byte>,
                        lo: nat, hi: nat)
    requires FilesPlaced(es, i, ns, s.data, lo, hi) && s.pos + |x| <= lo
    ensures FilesPlaced(es, i, ns, Put(s, x).data, lo, hi)
  {
    forall k | 0 <= k < |ns|
      ensures FileAt(es, i, ns, Put(s, x).data, lo, hi, k)
    {
      assert FileAt(es, i, ns, s.data, lo, hi, k);
      if ns[k].File? && ns[k].data != [] {
        PutKeepsHolds(s, x, es[i + k].fileOffsetParentDir, WithPad(ns[k].data));
      }
    }
  }

  /** The back-patches keep every byte they do not overwrite. */
  lemma {:induction false} WriteBackKeeps(s: SinkState, at: nat, table: seq<byte>, p: nat, patch: seq<byte>,
                                          q: nat, x: seq<byte>)
    requires Holds(s.data, q, x)
    requires q + |x| <= at || at + |table| <= q
    requires q + |x| <= p || p + |patch| <= q
    ensures Holds(WriteBack(s, at, table, p, patch).data, q, x)
  {
    PutKeepsHolds(SeekTo(s, at), table, q, x);
    PutKeepsHolds(SeekTo(Put(SeekTo(s, at), table), p), patch, q, x);
  }

  /** The table is in place after the back-patches when the patch lies in
      front of it. */
  lemma {:induction false} WriteBackTable(s: SinkState, at: nat, table: seq<byte>, p: nat, patch: seq<byte>)
    requires table != [] && p + |patch| <= at
    ensures Holds(WriteBack(s, at, table, p, patch).data, at, table)
  {
    PutHolds(SeekTo(s, at), table);
    PutKeepsHolds(SeekTo(Put(SeekTo(s, at), table), p), patch, at, table);
  }

  /** Payloads placed after both back-patches stay placed. */
  lemma {:induction false} WriteBackFiles(s: SinkState, at: nat, table: seq<byte>, p: nat, patch: seq<byte>,
                                          es: seq<FstEntry>, ns: seq<Node>, lo: nat, hi: nat)
    requires FilesPlaced(es, 1, ns, s.data, lo, hi)
    requires at + |table| <= lo && p + |patch| <= lo
    ensures FilesPlaced(es, 1, ns, WriteBack(s, at, table, p, patch).data, lo, hi)
  {
    FilesThroughPut(es, 1, ns, SeekTo(s, at), table, lo, hi);
    FilesThroughPut(es, 1, ns, SeekTo(Put(SeekTo(s, at), table), p), patch, lo, hi);
  }

  /** The patch is in place after the back-patches. */
  lemma {:induction false} WriteBackPatch(s: SinkState, at: nat, table: seq<byte>, p: nat, patch: seq<byte>)
    requires patch != []
    ensures Holds(WriteBack(s, at, table, p, patch).data, p, patch)
  {
    PutHolds(SeekTo(Put(SeekTo(s, at), table), p), patch);
  }

  /** The four header words are in the image at `OFFSET_DOL_OFFSET`,
      whatever the writer held before the call. */
  lemma {:induction false} ImagePatch(l: Layout, cfg: Config, s0: SinkState)
    requires ValidConfig(cfg)
    ensures Holds(Finish(l, cfg, s0).data, cfg.offsetDolOffset, HeaderPatch(l, cfg))
  {
    var b := Table(l, cfg, s0);
    WriteBackPatch(b.sink, FstListOffset(l, cfg), EncodeEntries(b.entries) + b.bank,
                   cfg.offsetDolOffset, HeaderPatch(l, cfg));
  }

  /** The table built from an empty writer fills the reserved space
      exactly, and the walk keeps the preamble in front of it. */
  lemma {:induction false} TableFromEmpty(l: Layout, cfg: Config)
    requires ValidConfig(cfg)
    ensures var b := Table(l, cfg, SinkState([], 0));
      var lo := FstListOffset(l, cfg) + FstLength(l);
      12 * |b.entries| + |b.bank| == FstLength(l) &&
      lo <= b.sink.pos && Keeps(SinkState(Preamble(l, cfg), lo), b.sink.data)
  {
    var reserved := Reserve(l, cfg, BootWrites(l.header, l.apploader, cfg, SinkState([], 0)));
    ReserveFromEmpty(l, cfg);
    BuildFstEntries(l.top, reserved);
    BuildFstSink(l.top, reserved);
  }

  /** From an empty writer the walk places every payload after the
      reserved space. */
  lemma {:induction false} FilesFromEmpty(l: Layout, cfg: Config)
    requires ValidConfig(cfg)
    ensures var b := Table(l, cfg, SinkState([], 0));
      var lo := FstListOffset(l, cfg) + FstLength(l);
      12 * |b.entries| + |b.bank| == FstLength(l) &&
      FilesPlaced(b.entries, 1, NodesSeq(l.top), b.sink.data, lo, b.sink.pos)
  {
    var reserved := Reserve(l, cfg, BootWrites(l.header, l.apploader, cfg, SinkState([], 0)));
    ReserveFromEmpty(l, cfg);
    BuildFstEntries(l.top, reserved);
    BuildFstSink(l.top, reserved);
  }

  /** The image is the table built from an empty writer, written back. */
  lemma {:induction false} ImageIsWriteBack(l: Layout, cfg: Config)
    requires ValidConfig(cfg)
    ensures var b := Table(l, cfg, SinkState([], 0));
      Finish(l, cfg, SinkState([], 0))
        == WriteBack(b.sink, FstListOffset(l, cfg), EncodeEntries(b.entries) + b.bank,
                     cfg.offsetDolOffset, HeaderPatch(l, cfg))
  {
  }

  /** Bytes of the preamble in front of the table and clear of the patch
      are still there in the finished image. */
  lemma {:induction false} PreambleKept(l: Layout, cfg: Config, at: nat, x: seq<byte>)
    requires ValidConfig(cfg)
    requires Holds(Preamble(l, cfg), at, x) && at + |x| <= FstListOffset(l, cfg)
    requires at + |x| <= cfg.offsetDolOffset || cfg.offsetDolOffset + 16 <= at
    ensures Holds(Finish(l, cfg, SinkState([], 0)).data, at, x)
  {
    var b := Table(l, cfg, SinkState([], 0));
    var lo := FstListOffset(l, cfg) + FstLength(l);
    TableFromEmpty(l, cfg);
    KeepsHolds(SinkState(Preamble(l, cfg), lo), b.sink.data, at, x);
    ImageIsWriteBack(l, cfg);
    WriteBackKeeps(b.sink, FstListOffset(l, cfg), EncodeEntries(b.entries) + b.bank,
                   cfg.offsetDolOffset, HeaderPatch(l, cfg), at, x);
  }

  /** The table and its name bank fill the reserved space exactly and are
      in the image at `fst_list_offset`, when the patch lies in front of
      them. */
  lemma {:induction false} TableInImage(l: Layout, cfg: Config)
    requires ValidConfig(cfg) && cfg.offsetDolOffset + 16 <= FstListOffset(l, cfg)
    ensures var b := Table(l, cfg, SinkState([], 0));
      12 * |b.entries| + |b.bank| == FstLength(l) &&
      Holds(Finish(l, cfg, SinkState([], 0)).data, FstListOffset(l, cfg), EncodeEntries(b.entries) + b.bank)
  {
    TableFromEmpty(l, cfg);
    TableBytesInImage(l, cfg);
  }

  /** The table bytes alone, without their length. */
  lemma {:induction false} TableBytesInImage(l: Layout, cfg: Config)
    requires ValidConfig(cfg) && cfg.offsetDolOffset + 16 <= FstListOffset(l, cfg)
    ensures var b := Table(l, cfg, SinkState([], 0));
      Holds(Finish(l, cfg, SinkState([], 0)).data, FstListOffset(l, cfg), EncodeEntries(b.entries) + b.bank)
  {
    var b := Table(l, cfg, SinkState([], 0));
    TableFromEmpty(l, cfg);
    ImageIsWriteBack(l, cfg);
    WriteBackTable(b.sink, FstListOffset(l, cfg), EncodeEntries(b.entries) + b.bank,
                   cfg.offsetDolOffset, HeaderPatch(l, cfg));
  }

  /** Every payload lies after the table, at the offset its entry records,
      on a 32-byte boundary. */
  lemma {:induction false} FilesInImage(l: Layout, cfg: Config)
    requires ValidConfig(cfg) && cfg.offsetDolOffset + 16 <= FstListOffset(l, cfg)
    ensures var b := Table(l, cfg, SinkState([], 0));
      FilesPlaced(b.entries, 1, NodesSeq(l.top), Finish(l, cfg, SinkState([], 0)).data,
                  FstListOffset(l, cfg) + FstLength(l), b.sink.pos)
  {
    var b := Table(l, cfg, SinkState([], 0));
    FilesFromEmpty(l, cfg);
    ImageIsWriteBack(l, cfg);
    FilesInWriteBack(Finish(l, cfg, SinkState([], 0)).data, b.sink, FstListOffset(l, cfg), b.entries, b.bank,
                     cfg.offsetDolOffset, HeaderPatch(l, cfg), NodesSeq(l.top),
                     FstListOffset(l, cfg) + FstLength(l), b.sink.pos);
  }

  /** `WriteBackFiles` for a table and bank written back as one. */
  lemma {:induction false} FilesInWriteBack(f: seq<byte>, s: SinkState, at: nat, es: seq<FstEntry>, bank: seq<byte>,
                                            p: nat, patch: seq<byte>, ns: seq<Node>, lo: nat, hi: nat)
    requires f == WriteBack(s, at, EncodeEntries(es) + bank, p, patch).data
    requires FilesPlaced(es, 1, ns, s.data, lo, hi)
    requires at + 12 * |es| + |bank| <= lo && p + |patch| <= lo
    ensures FilesPlaced(es, 1, ns, f, lo, hi)
  {
    WriteBackFiles(s, at, EncodeEntries(es) + bank, p, patch, es, ns, lo, hi);
  }

  /** Record `j` of a table that holds at `at` is entry `j`'s encoding. */
  lemma {:induction false} RecordInBytes(f: seq<byte>, at: nat, es: seq<FstEntry>, bank: seq<byte>, j: nat)
    requires Holds(f, at, EncodeEntries(es) + bank) && j < |es|
    ensures Holds(f, at + 12 * j, EncodeEntry(es[j]))
  {
    var t, e := EncodeEntries(es), EncodeEntry(es[j]);
    EncodeEntriesAt(es, j);
    HoldsPrefix(t, 12 * j, e, bank);
    HoldsWithin(f, at, t + bank, 12 * j, e);
  }

  /** Record `j` of the table in the image is entry `j` encoded
      (which `Fst.EntryRoundTrip` reads back, with the kind byte, up to the
      casts): entry `j` is the 12 bytes at `fst_list_offset + 12 * j`. */
  lemma {:induction false} EntryInImage(l: Layout, cfg: Config, j: nat)
    requires ValidConfig(cfg) && cfg.offsetDolOffset + 16 <= FstListOffset(l, cfg)
    requires j < |Table(l, cfg, SinkState([], 0)).entries|
    ensures Holds(Finish(l, cfg, SinkState([], 0)).data, FstListOffset(l, cfg) + 12 * j,
                  EncodeEntry(Table(l, cfg, SinkState([], 0)).entries[j]))
  {
    var b := Table(l, cfg, SinkState([], 0));
    TableBytesInImage(l, cfg);
    RecordInBytes(Finish(l, cfg, SinkState([], 0)).data, FstListOffset(l, cfg), b.entries, b.bank, j);
  }

  /** Name-bank indexing in the written-back bytes: for a table built by
      the walk, the bank follows the last record, and at each non-root
      entry's name offset in it lie that node's name and a 0 byte. */
  lemma {:induction false} NameInTable(es: seq<FstEntry>, bank: seq<byte>, ns: seq<Node>, j: nat)
    requires bank == Names(ns) && EntriesMatch(es, 1, ns, 0) && 1 <= j < |es| == 1 + |ns|
    ensures Holds(EncodeEntries(es) + bank, 12 * |es| + es[j].fileNameOffset, ns[j - 1].name + [0])
  {
    var t := EncodeEntries(es);
    NameOfEntry(es, 1, ns, j - 1);
    assert 1 + (j - 1) == j;
    var y := ns[j - 1].name + [0];
    assert Holds(bank, es[j].fileNameOffset, y);
    HoldsSuffix(t, bank);
    HoldsWithin(t + bank, |t|, bank, es[j].fileNameOffset, y);
  }

  /** The same in the finished image, at `fst_list_offset`. */
  lemma {:induction false} NameInImage(l: Layout, cfg: Config, j: nat)
    requires ValidConfig(cfg) && cfg.offsetDolOffset + 16 <= FstListOffset(l, cfg)
    requires 1 <= j < |Table(l, cfg, SinkState([], 0)).entries|
    ensures var es := Table(l, cfg, SinkState([], 0)).entries;
      var f := Finish(l, cfg, SinkState([], 0)).data;
      Holds(f, FstListOffset(l, cfg) + 12 * |es| + es[j].fileNameOffset, NodesSeq(l.top)[j - 1].name + [0])
  {
    var b := Table(l, cfg, SinkState([], 0));
    var f := Finish(l, cfg, SinkState([], 0)).data;
    var ns := NodesSeq(l.top);
    TableInImage(l, cfg);
    BuildFstEntries(l.top, Reserve(l, cfg, BootWrites(l.header, l.apploader, cfg, SinkState([], 0))));
    NameInTable(b.entries, b.bank, ns, j);
    HoldsWithin(f, FstListOffset(l, cfg), EncodeEntries(b.entries) + b.bank,
                12 * |b.entries| + b.entries[j].fileNameOffset, ns[j - 1].name + [0]);
  }

  // A small tree: `&&systemdata` with a 4-byte header, an 8-byte
  // apploader and a 16-byte executable, and one top-level file `a.txt` of
  // 5 bytes.
  const SMALL_HEADER: seq<byte> := [0xAA, 0xAA, 0xAA, 0xAA]
  const SMALL_A_TXT: Node := Node.File(Ascii("a.txt"), [1, 2, 3, 4, 5])
  const SMALL_SYSTEM: seq<Node> :=
    [Node.File(ISO_HDR, SMALL_HEADER), Node.File(APP_LOADER, Zeros(8)), Node.File(Ascii("game.dol"), Zeros(16))]
  const SMALL_ROOT: Node := Node.Directory([], [Node.Directory(SYSTEM_DATA, SMALL_SYSTEM), SMALL_A_TXT])
  const SMALL_LAYOUT: Layout := Layout(SMALL_HEADER, Zeros(8), Zeros(16), [SMALL_A_TXT])

  /** The lookups find the three boot files and leave `a.txt` as the only
      top-level child. */
  lemma {:induction false} SmallTreeBoot()
    ensures Boot(SMALL_ROOT) == Some(SMALL_LAYOUT)
  {
    var sys := SMALL_SYSTEM;
    assert Find(SMALL_ROOT.children, DirectoryNamed(SYSTEM_DATA)) == Some(0);
    assert Find(sys, FileNamed(ISO_HDR)) == Some(0);
    assert Find(sys, FileNamed(APP_LOADER)) == Some(1) by {
      assert |ISO_HDR| != |APP_LOADER|;
      assert sys[1..][0] == sys[1];
    }
    assert Find(sys, FileWithSuffix(DOL_SUFFIX)) == Some(2) by {
      assert Ascii("game.dol")[4..] == DOL_SUFFIX;
      assert ISO_HDR[3..][1] != DOL_SUFFIX[1];
      assert APP_LOADER[9..][1] != DOL_SUFFIX[1];
      assert sys[1..][1..] == [sys[2]];
    }
    assert Without(SMALL_ROOT.children, 0) == [SMALL_A_TXT];
  }

  /** The payload of `a.txt` lies at the first 32-byte boundary after the
      30 bytes of table, followed by 27 zero bytes of pad. */
  lemma {:induction false} SmallTreePayload(cfg: Config)
    requires ValidConfig(cfg)
    ensures var b := Table(SMALL_LAYOUT, cfg, SinkState([], 0));
      Holds(b.sink.data, AlignUp(FstListOffset(SMALL_LAYOUT, cfg) + 30, 32), [1, 2, 3, 4, 5] + Zeros(27))
  {
    SmallTreeTable(cfg);
    var b := Table(SMALL_LAYOUT, cfg, SinkState([], 0));
    FilesFromEmpty(SMALL_LAYOUT, cfg);
    assert NodesSeq(SMALL_LAYOUT.top) == [SMALL_A_TXT] by {
      assert SMALL_LAYOUT.top[1..] == [];
    }
    assert FileAt(b.entries, 1, [SMALL_A_TXT], b.sink.data, FstListOffset(SMALL_LAYOUT, cfg) + 30, b.sink.pos, 0);
    assert WithPad(SMALL_A_TXT.data) == [1, 2, 3, 4, 5] + Zeros(27);
  }

  /** The table is the root entry, whose end index is 2, and one file
      entry; it takes 30 bytes, and the payload goes to the first 32-byte
      boundary after them. */
  lemma {:induction false} SmallTreeTable(cfg: Config)
    requires ValidConfig(cfg)
    ensures var b := Table(SMALL_LAYOUT, cfg, SinkState([], 0));
      var fstOff := FstListOffset(SMALL_LAYOUT, cfg);
      FstLength(SMALL_LAYOUT) == 30 &&
      b.entries == [FstEntry(FstNodeType.Directory, 0, 0, 2),
                    FstEntry(FstNodeType.File, 0, AlignUp(fstOff + 30, 32), 5)] &&
      b.bank == Ascii("a.txt") + [0]
  {
    var l := SMALL_LAYOUT;
    assert FstLength(l) == 30 by {
      assert l.top[0] == SMALL_A_TXT && l.top[1..] == [];
      assert FstLenSeq(12, l.top) == FstLenSeq(FstLen(12, SMALL_A_TXT), []);
    }
    var reserved := Reserve(l, cfg, BootWrites(l.header, l.apploader, cfg, SinkState([], 0)));
    ReserveFromEmpty(l, cfg);
    var b0 := Build([ROOT_PLACEHOLDER], [], reserved);
    PadTo32IsAlignUp(reserved.pos);
    assert l.top[1..] == [];
    assert PrepSeq(l.top, b0, 0) == Prep(SMALL_A_TXT, b0, 0);
  }

  // ---------------------------------------------------------------------
  // The writer.

  /** The five writes of one entry are one write of its encoding. */
  lemma {:induction false} PutEntry(s: SinkState, e: FstEntry)
    ensures Put(Put(Put(Put(Put(s, BeU8(KindByte(e.kind))), BeU8(0)), BeU16(AsU16(e.fileNameOffset))),
                    BeI32(AsI32(e.fileOffsetParentDir))), BeI32(AsI32(e.fileSizeNextDirIndex)))
         == Put(s, EncodeEntry(e))
  {
    var a, b, c, d, f := BeU8(KindByte(e.kind)), BeU8(0), BeU16(AsU16(e.fileNameOffset)),
      BeI32(AsI32(e.fileOffsetParentDir)), BeI32(AsI32(e.fileSizeNextDirIndex));
    PutPut(s, a, b);
    PutPut(s, a + b, c);
    PutPut(s, a + b + c, d);
    PutPut(s, a + b + c + d, f);
  }

  /** The four header words are one write of the patch. */
  lemma {:induction false} PutPatch(s: SinkState, a: seq<byte>, b: seq<byte>, c: seq<byte>, d: seq<byte>)
    ensures Put(Put(Put(Put(s, a), b), c), d) == Put(s, a + b + c + d)
  {
    PutPut(s, a, b);
    PutPut(s, a + b, c);
    PutPut(s, a + b + c, d);
  }

  /** The top-level children other than `&&systemdata` still to be visited
      once the loop over `cs` has looked at the first `j`. */
  function Pending(cs: seq<Node>, si: nat, j: nat): seq<Node>
    requires si < |cs| && j <= |cs|
  {
    if j <= si then cs[j..si] + cs[si + 1..] else cs[j..]
  }

  /** Before the loop every child but `si` is pending, in order. */
  lemma {:induction false} PendingStart(cs: seq<Node>, si: nat)
    requires si < |cs|
    ensures Pending(cs, si, 0) == Without(cs, si)
  {
    assert cs[0..si] == cs[..si];
  }

  /** One step of a loop over the children that skips `si`. */
  lemma {:induction false} PendingStep(cs: seq<Node>, si: nat, j: nat)
    requires si < |cs| && j < |cs|
    ensures j == si ==> Pending(cs, si, j + 1) == Pending(cs, si, j)
    ensures j != si ==> Pending(cs, si, j) != [] && Pending(cs, si, j)[0] == cs[j] &&
                        Pending(cs, si, j)[1..] == Pending(cs, si, j + 1)
    ensures j + 1 == |cs| ==> Pending(cs, si, j + 1) == []
  {
    if j < si {
      assert cs[j..si][1..] == cs[j + 1..si];
    } else if j == si {
      assert cs[j..si] == [];
    }
  }

  /** One step of the walk over the top-level children that skips `si`. */
  lemma {:induction false} PendingPrep(cs: seq<Node>, si: nat, j: nat, b: Build)
    requires si < |cs| && j < |cs|
    ensures PrepSeq(Pending(cs, si, j), b, 0)
         == PrepSeq(Pending(cs, si, j + 1), if j == si then b else Prep(cs[j], b, 0), 0)
  {
    PendingStep(cs, si, j);
    if j != si {
      PrepSeqStep(Pending(cs, si, j), b, 0);
    }
  }

  /** Once every child has been visited nothing is pending. */
  lemma {:induction false} PendingDone(cs: seq<Node>, si: nat, b: Build)
    requires si < |cs|
    ensures PrepSeq(Pending(cs, si, |cs|), b, 0) == b
  {
    PendingStep(cs, si, |cs| - 1);
  }

  /** The loop of `write_iso` that sums `calculate_fst_len` over the
      top-level children, skipping `&&systemdata` at `si`. */
  method TopFstLen(cs: seq<Node>, si: nat) returns (fstLen: nat)
    requires si < |cs|
    ensures fstLen == FstLenSeq(12, Without(cs, si))
  {
    fstLen := 12;
    var j := 0;
    while j < |cs|
      invariant 0 <= j <= |cs|
      invariant FstLenSeq(fstLen, Pending(cs, si, j)) == FstLenSeq(12, Pending(cs, si, 0))
    {
      PendingStep(cs, si, j);
      if j != si {
        fstLen := FstLen(fstLen, cs[j]);
      }
      j := j + 1;
    }
    PendingStep(cs, si, j - 1);
    PendingStart(cs, si);
  }

  /** The walk over the top-level children, skipping `&&systemdata` at
      `si`, all with parent 0. */
  method TopWalk(cs: seq<Node>, si: nat, sink: Cursor, entries: seq<FstEntry>, bank: seq<byte>)
    returns (entries': seq<FstEntry>, bank': seq<byte>)
    requires si < |cs|
    modifies sink
    ensures Build(entries', bank', sink.State()) == PrepSeq(Without(cs, si), Build(entries, bank, old(sink.State())), 0)
  {
    entries', bank' := entries, bank;
    ghost var start := Build(entries, bank, sink.State());
    var j := 0;
    while j < |cs|
      invariant 0 <= j <= |cs|
      invariant PrepSeq(Pending(cs, si, j), Build(entries', bank', sink.State()), 0)
             == PrepSeq(Pending(cs, si, 0), start, 0)
    {
      ghost var before := Build(entries', bank', sink.State());
      PendingPrep(cs, si, j, before);
      if j != si {
        entries', bank' := OutputPrep(cs[j], entries', bank', sink, 0);
      }
      assert Build(entries', bank', sink.State()) == if j == si then before else Prep(cs[j], before, 0);
      j := j + 1;
    }
    PendingDone(cs, si, Build(entries', bank', sink.State()));
    PendingStart(cs, si);
  }

  /** The root placeholder, the walk over the top-level children and the
      root backfill. */
  method TopPrep(cs: seq<Node>, si: nat, sink: Cursor) returns (outputFst: seq<FstEntry>, fstNameBank: seq<byte>)
    requires si < |cs|
    modifies sink
    ensures Build(outputFst, fstNameBank, sink.State()) == BuildFst(Without(cs, si), old(sink.State()))
  {
    outputFst, fstNameBank := TopWalk(cs, si, sink, [ROOT_PLACEHOLDER], []);
    outputFst := outputFst[0 := outputFst[0].(fileSizeNextDirIndex := |outputFst|)];
  }

  /** One 12-byte record, field by field. */
  method WriteEntry(sink: Cursor, entry: FstEntry)
    modifies sink
    ensures sink.State() == Put(old(sink.State()), EncodeEntry(entry))
  {
    ghost var before := sink.State();
    sink.WriteU8(KindByte(entry.kind));
    sink.WriteU8(0);
    sink.WriteU16Be(AsU16(entry.fileNameOffset));
    sink.WriteI32Be(AsI32(entry.fileOffsetParentDir));
    sink.WriteI32Be(AsI32(entry.fileSizeNextDirIndex));
    PutEntry(before, entry);
  }

  /** Writing record `k` after the first `k` extends the written table by one. */
  lemma {:induction false} TableStep(start: SinkState, es: seq<FstEntry>, k: nat)
    requires k < |es|
    ensures Put(Put(start, EncodeEntries(es[..k])), EncodeEntry(es[k])) == Put(start, EncodeEntries(es[..k + 1]))
  {
    PutPut(start, EncodeEntries(es[..k]), EncodeEntry(es[k]));
    assert es[..k + 1] == es[..k] + [es[k]];
    EncodeEntriesSnoc(es[..k], es[k]);
  }

  /** The table written back at `at`, one 12-byte record per entry, then
      the name bank. */
  method WriteTable(sink: Cursor, outputFst: seq<FstEntry>, fstNameBank: seq<byte>, at: nat)
    modifies sink
    ensures sink.State() == Put(SeekTo(old(sink.State()), at), EncodeEntries(outputFst) + fstNameBank)
  {
    sink.SeekStart(at);
    ghost var tableStart := sink.State();
    var k := 0;
    while k < |outputFst|
      invariant 0 <= k <= |outputFst|
      invariant sink.State() == Put(tableStart, EncodeEntries(outputFst[..k]))
    {
      WriteEntry(sink, outputFst[k]);
      TableStep(tableStart, outputFst, k);
      k := k + 1;
    }
    assert outputFst[..k] == outputFst;
    sink.WriteAll(fstNameBank);
    PutPut(tableStart, EncodeEntries(outputFst), fstNameBank);
  }

  /** The header patch at `at`. */
  method WritePatch(sink: Cursor, at: nat, dolOffset: nat, fstListOffset: nat, fstLen: nat)
    modifies sink
    ensures sink.State() == Put(SeekTo(old(sink.State()), at),
      BeU32(AsU32(dolOffset)) + BeU32(AsU32(fstListOffset)) + BeU32(AsU32(fstLen)) + BeU32(AsU32(fstLen)))
  {
    sink.SeekStart(at);
    ghost var patchStart := sink.State();
    sink.WriteU32Be(AsU32(dolOffset));
    sink.WriteU32Be(AsU32(fstListOffset));
    sink.WriteU32Be(AsU32(fstLen));
    sink.WriteU32Be(AsU32(fstLen));
    PutPatch(patchStart, BeU32(AsU32(dolOffset)), BeU32(AsU32(fstListOffset)), BeU32(AsU32(fstLen)),
             BeU32(AsU32(fstLen)));
  }

  /** The part of `write_iso` after the executable was found: from the
      executable itself to the header patch. */
  method WriteRest(sink: Cursor, cs: seq<Node>, si: nat, header: seq<byte>, apploader: seq<byte>,
                   dol: seq<byte>, cfg: Config, dolOffset: nat)
    requires ValidConfig(cfg) && si < |cs| && dolOffset == DolOffset(header, apploader, cfg)
    modifies sink
    ensures sink.State() == Emit(Layout(header, apploader, dol, Without(cs, si)), cfg, old(sink.State()))
  {
    ghost var l := Layout(header, apploader, dol, Without(cs, si));
    sink.WriteAll(dol);
    var fstListOffsetWithoutPadding := dolOffset + |dol|;
    var fstListOffset := (fstListOffsetWithoutPadding + (cfg.fstAlignment - 1)) / cfg.fstAlignment
      * cfg.fstAlignment;
    assert fstListOffset == FstListOffset(l, cfg);
    WriteZeros(sink, fstListOffset - fstListOffsetWithoutPadding);
    var fstLen := TopFstLen(cs, si);
    WriteZeros(sink, fstLen);
    assert sink.State() == Reserve(l, cfg, old(sink.State()));
    var outputFst, fstNameBank := TopPrep(cs, si, sink);
    WriteTable(sink, outputFst, fstNameBank, fstListOffset);
    WritePatch(sink, cfg.offsetDolOffset, dolOffset, fstListOffset, fstLen);
  }

  /** `write_iso(writer, root)`. */
  method WriteIso(sink: Cursor, root: Node, cfg: Config) returns (r: Outcome)
    requires root.Directory? && ValidConfig(cfg)
    modifies sink
    ensures Run(r, sink.State()) == WriteIsoSpec(root, cfg, old(sink.State()))
  {
    var cs := root.children;
    var sysIndex := Find(cs, DirectoryNamed(SYSTEM_DATA));
    if sysIndex.None? {
      return Fail(NoSystemData);
    }
    var si := sysIndex.value;
    var sys := cs[si].children;

    var headerIndex := Find(sys, FileNamed(ISO_HDR));
    if headerIndex.None? {
      return Fail(NoIsoHeader);
    }
    var header := sys[headerIndex.value].data;
    sink.WriteAll(header);

    var apploaderIndex := Find(sys, FileNamed(APP_LOADER));
    if apploaderIndex.None? {
      return Fail(NoAppLoader);
    }
    var apploader := sys[apploaderIndex.value].data;
    sink.WriteAll(apploader);

    var dolOffsetWithoutPadding := |header| + |apploader|;
    var dolOffset := (dolOffsetWithoutPadding + (cfg.dolAlignment - 1)) / cfg.dolAlignment * cfg.dolAlignment;
    assert dolOffset == DolOffset(header, apploader, cfg);
    WriteZeros(sink, dolOffset - dolOffsetWithoutPadding);
    assert sink.State() == BootWrites(header, apploader, cfg, old(sink.State()));

    var dolIndex := Find(sys, FileWithSuffix(DOL_SUFFIX));
    if dolIndex.None? {
      return Fail(NoDol);
    }
    WriteRest(sink, cs, si, header, apploader, sys[dolIndex.value].data, cfg, dolOffset);
    return Pass;
  }
}
