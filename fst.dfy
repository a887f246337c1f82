/** The File String Table (FST): its entries, their 12-byte big-endian
    encoding, and `calculate_fst_len`, the size of the table plus its name
    bank computed ahead of building it. */
module Fst {
  import opened Bytes
  import opened Vfs

  datatype FstNodeType = File | Directory

  /** `entry.kind as u8`: a file is 0, a directory 1. */
  function KindByte(k: FstNodeType): (r: byte)
    ensures r <= 1 && (r == 0 <==> k == FstNodeType.File)
  {
    match k
    case File => 0
    case Directory => 1
  }

  /** One table entry. For a file the two last fields are the offset of its
      payload in the image and its length; for a directory they are the
      index of its parent entry and the index one past its subtree. */
  datatype FstEntry = FstEntry(
    kind: FstNodeType,
    fileNameOffset: nat,
    fileOffsetParentDir: nat,
    fileSizeNextDirIndex: nat)

  /** The entry written back in `write_iso`: kind, a 0 byte, the name
      offset `as u16`, then the two fields `as i32`, all big-endian. */
  function EncodeEntry(e: FstEntry): (r: seq<byte>)
    ensures |r| == 12
  {
    BeU8(KindByte(e.kind)) + BeU8(0) + BeU16(AsU16(e.fileNameOffset))
      + BeI32(AsI32(e.fileOffsetParentDir)) + BeI32(AsI32(e.fileSizeNextDirIndex))
  }

  /** Reading an entry back; the fields come back as the unsigned value of
      their bits. A kind byte other than 0 or 1, or a reserved byte other
      than 0, is not an entry. */
  function DecodeEntry(r: seq<byte>): (d: Option<FstEntry>)
    requires |r| == 12
    ensures d.Some? <==> r[0] <= 1 && r[1] == 0
  {
    if r[0] > 1 || r[1] != 0 then None
    else
      Some(FstEntry(
        if r[0] == 0 then FstNodeType.File else FstNodeType.Directory,
        DecodeU16(r[2..4]), DecodeU32(r[4..8]), DecodeU32(r[8..12])))
  }

  /** What the casts keep of an entry. */
  function Truncated(e: FstEntry): FstEntry
  {
    FstEntry(e.kind, AsU16(e.fileNameOffset), AsU32(e.fileOffsetParentDir),
             AsU32(e.fileSizeNextDirIndex))
  }

  /** Decoding an encoded entry gives back the entry, up to the casts. */
  lemma {:induction false} EntryRoundTrip(e: FstEntry)
    ensures DecodeEntry(EncodeEntry(e)) == Some(Truncated(e))
  {
    var r := EncodeEntry(e);
    var head := BeU8(KindByte(e.kind)) + BeU8(0) + BeU16(AsU16(e.fileNameOffset))
      + BeI32(AsI32(e.fileOffsetParentDir));
    assert r == head + BeI32(AsI32(e.fileSizeNextDirIndex));
    assert r[8..12] == BeI32(AsI32(e.fileSizeNextDirIndex));
    assert r[2..4] == BeU16(AsU16(e.fileNameOffset));
    assert r[4..8] == BeU32(AsU32(e.fileOffsetParentDir)) by {
      I32CastBytes(e.fileOffsetParentDir);
    }
    assert r[8..12] == BeU32(AsU32(e.fileSizeNextDirIndex)) by {
      I32CastBytes(e.fileSizeNextDirIndex);
    }
  }

  /** An entry whose fields fit their casts comes back unchanged. */
  lemma {:induction false} EntryRoundTripExact(e: FstEntry)
    requires e.fileNameOffset < U16_LIMIT
    requires e.fileOffsetParentDir < U32_LIMIT && e.fileSizeNextDirIndex < U32_LIMIT
    ensures DecodeEntry(EncodeEntry(e)) == Some(e)
  {
    EntryRoundTrip(e);
  }

  /** The table, entry after entry. */
  function EncodeEntries(es: seq<FstEntry>): (r: seq<byte>)
    ensures |r| == 12 * |es|
  {
    if es == [] then [] else EncodeEntry(es[0]) + EncodeEntries(es[1..])
  }

  lemma {:induction false} EncodeEntriesSnoc(es: seq<FstEntry>, e: FstEntry)
    ensures EncodeEntries(es + [e]) == EncodeEntries(es) + EncodeEntry(e)
  {
    if es == [] {
      assert es + [e] == [e];
      assert [e][1..] == [];
    } else {
      assert (es + [e])[0] == es[0] && (es + [e])[1..] == es[1..] + [e];
      EncodeEntriesSnoc(es[1..], e);
    }
  }

  /** Entry `j` of the table is the 12 bytes at `12 * j`. */
  lemma {:induction false} EncodeEntriesAt(es: seq<FstEntry>, j: nat)
    requires j < |es|
    ensures Holds(EncodeEntries(es), 12 * j, EncodeEntry(es[j]))
  {
    var head, rest := EncodeEntry(es[0]), EncodeEntries(es[1..]);
    if j > 0 {
      EncodeEntriesAt(es[1..], j - 1);
      assert es[1..][j - 1] == es[j];
      HoldsShift(head, rest, 12 * (j - 1), EncodeEntry(es[j]));
    } else {
      assert (head + rest)[..12] == head;
    }
  }

  /** `calculate_fst_len`: adds 12 bytes of entry plus the name and its 0
      byte for `n`, then, for a directory, folds over its children. In all,
      it adds one entry for every node of the subtree and the node's name
      with its terminator. */
  function FstLen(cur: nat, n: Node): (r: nat)
    decreases n
    ensures r == cur + 12 * |Nodes(n)| + |Names(Nodes(n))|
  {
    match n
    case File(name, _) =>
      NamesCons(n, []);
      cur + 12 + |name| + 1
    case Directory(name, cs) =>
      NamesCons(n, NodesSeq(cs));
      FstLenSeq(cur + 12 + |name| + 1, cs)
  }

  /** The fold over children of `calculate_fst_len` (and over the top-level
      children in `write_iso`): one entry and one name per node of the
      forest. */
  function FstLenSeq(cur: nat, cs: seq<Node>): (r: nat)
    decreases cs
    ensures r == cur + 12 * |NodesSeq(cs)| + |Names(NodesSeq(cs))|
  {
    if cs == [] then cur
    else
      NamesConcat(Nodes(cs[0]), NodesSeq(cs[1..]));
      FstLenSeq(FstLen(cur, cs[0]), cs[1..])
  }
}
