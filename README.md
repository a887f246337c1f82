# A verified model of the disc-image writer

This project models in Dafny how the romhack compiler lays out a GameCube-style
disc image from a virtual file tree, and proves properties of that layout. It
covers `write_iso`, `calculate_fst_len` and `do_output_prep` in
`backend/src/iso/writer.rs`.

`write_iso` does the following:
- It finds the `&&systemdata` directory. In it, it finds `iso.hdr`, `AppLoader.ldr` and the first `*.dol` file.
- It writes the header and the apploader. It pads with zeros up to `DOL_ALIGNMENT` and writes the executable.
- It pads with zeros up to `FST_ALIGNMENT` and reserves `fst_len` zero bytes for the File String Table (FST).
- It walks the other top-level children with `do_output_prep`. For each node this emits one FST entry and appends the node's name to a name bank. For a file it also writes the payload on a 32-byte boundary.
- It seeks back, writes the 12-byte entries and the name bank over the reserved zeros, and patches four big-endian words into the header.

The pieces of the model:

- **Bytes**: the byte type, the Rust casts `as u16`, `as u32` and `as i32` (truncation written out), the big-endian encodings with their decoders, and the round-up arithmetic `(x + (a - 1)) / a * a`.
- **Sink**: the seekable writer as a `Cursor<Vec<u8>>`.
  - A `SinkState` value holds the bytes and the cursor. `Put` is one `write_all`.
  - The `Cursor` class has that state as fields and one method per writer call the source makes.
  - A write past the end zero-fills the gap. An empty write changes nothing. A seek moves only the cursor.
- **Vfs**: the tree. It also defines the pre-order listing `Nodes`, the packed name bank `Names`, and the lookups of `write_iso` as `Find`, the first matching child. `Without` is the listing with `&&systemdata` skipped.
- **Fst**: the entry record and its 12-byte encoding with a decoder, and `calculate_fst_len` (`FstLen`/`FstLenSeq`).
- **Builder**: `do_output_prep`. `Prep`/`PrepSeq` are the pure specifications. `OutputPrep` is the recursive method that changes the cursor and threads the entry list and bank through.
- **IsoWriter**:
  - `WriteIsoSpec` is the whole call as a function. `WriteIso` is the method proved equal to it.
  - The lemmas cover the table `BuildFst` and the finished image written from an empty writer.
  - `DOL_ALIGNMENT`, `FST_ALIGNMENT` and `OFFSET_DOL_OFFSET` are parameters (`Config`).

Two details of the code shape the model:
- Writes and lookups are interleaved. The header is written before the apploader lookup (`writer.rs:27-29`). The apploader and the zero gap up to `dol_offset` are written before the `.dol` lookup (`writer.rs:35-45`). So a failing apploader or `.dol` lookup leaves bytes in the writer, and `WriteIsoSpec` states exactly which.
- The gap in front of each payload is made by a seek (`writer.rs:255-257`), not by writing zeros. The bytes in it read as zeros only because a later write past the end of a `Cursor` zero-fills. An empty payload at the end of the walk writes nothing, so its gap is never written and the image ends before it.

## Model

| member | source | states |
|---|---|---|
| Bytes.AlignUp | backend/src/iso/writer.rs:37-39 | The rounded offset is a multiple of the alignment, at or above the unrounded one and less than one alignment above it. |
| Bytes.AlignUpLeast | backend/src/iso/writer.rs:53-55 | No multiple of the alignment at or above the offset is smaller than the rounded value. |
| Bytes.PadTo32IsAlignUp | backend/src/iso/writer.rs:255-256 | The payload placement `pos + (32 - pos % 32) % 32` is the least multiple of 32 at or above `pos`. |
| Bytes.TrailingPad | backend/src/iso/writer.rs:261-265 | A payload written at a 32-byte boundary, plus `(32 - len % 32) % 32` zero bytes, ends on a 32-byte boundary, at the start plus `len` rounded up to 32. |
| Bytes.AsU16 | backend/src/iso/writer.rs:103 | `as u16` keeps the low 16 bits: the result is below 2^16, congruent to the input modulo 2^16, and equal to it when it fits. |
| Bytes.AsU32 | backend/src/iso/writer.rs:111-114 | `as u32` keeps the low 32 bits: the result is below 2^32, congruent to the input modulo 2^32, and equal to it when it fits. |
| Bytes.AsI32 | backend/src/iso/writer.rs:104-105 | `as i32` gives a value in the i32 range, congruent to the input modulo 2^32, and equal to it when it fits. |
| Bytes.BeU16 | backend/src/iso/writer.rs:103 | `write_u16::<BE>` writes two bytes, and decoding them big-endian gives the value back. |
| Bytes.BeU32 | backend/src/iso/writer.rs:111-114 | `write_u32::<BE>` writes four bytes, and decoding them big-endian gives the value back. |
| Bytes.BeI32 | backend/src/iso/writer.rs:104-105 | `write_i32::<BE>` writes four bytes, and decoding them as a signed big-endian word gives the value back. |
| Bytes.PadTo32 | backend/src/iso/writer.rs:256 | `pos + (32 - pos % 32) % 32` is a multiple of 32, at or above `pos` and less than 32 above it. |
| Bytes.I32CastBytes | backend/src/iso/writer.rs:104-105 | `write_i32::<BE>(x as i32)` writes the same bytes as `write_u32::<BE>(x as u32)`. |
| Bytes.Zeros | backend/src/iso/writer.rs:41-43 | The padding has the requested length and every byte is 0. |
| Vfs.Matches | backend/src/iso/writer.rs:17-49 | A child matches a `&&systemdata`-style query exactly when it is a directory of that name, and a file query exactly when it is a file of that name. The `.dol` query (`writer.rs:48-49`) matches exactly the files whose name is some prefix followed by the suffix, which is `ends_with`. |
| Vfs.Find | backend/src/iso/writer.rs:13-50 | A found index matches the query and no earlier child does; nothing is found exactly when no child matches. |
| Vfs.Without | backend/src/iso/writer.rs:62-67 | Skipping index `skip` keeps every other child, in order. |
| Vfs.NameInBank | backend/src/iso/writer.rs:222-223 | In the bank of a listing, node `k`'s name and its 0 byte sit at the total length of the names before it. |
| Vfs.NamesConcat | backend/src/iso/writer.rs:252-253 | The bank of two listings is the bank of the first followed by the bank of the second. |
| Fst.KindByte | backend/src/iso/writer.rs:101 | `entry.kind as u8` is 0 for a file and 1 for a directory. |
| Fst.EncodeEntry | backend/src/iso/writer.rs:100-106 | An entry is written as exactly 12 bytes. |
| Fst.EntryRoundTrip | backend/src/iso/writer.rs:100-106 | Decoding an encoded entry gives the entry back, with the name offset cut to 16 bits and the two fields to 32 bits. The decoder accepts only a kind byte of 0 or 1 and a reserved byte 1 of 0, so the round trip also fixes the `write_u8(0)` at `writer.rs:102`. |
| Fst.EntryRoundTripExact | backend/src/iso/writer.rs:100-106 | An entry whose fields fit their casts decodes back unchanged. |
| Fst.EncodeEntries | backend/src/iso/writer.rs:100-106 | The table takes 12 bytes per entry. |
| Fst.EncodeEntriesAt | backend/src/iso/writer.rs:100-106 | Entry `j` of the table is the 12 bytes at offset `12 * j`. |
| Fst.EncodeEntriesSnoc | backend/src/iso/writer.rs:100-106 | Writing one more entry appends its 12 bytes to the table. |
| Fst.FstLen | backend/src/iso/writer.rs:187-201 | `calculate_fst_len` adds, for every node of the subtree, 12 bytes plus the node's name and its terminator: the result is the input plus 12 × the node count plus the bank length. |
| Fst.FstLenSeq | backend/src/iso/writer.rs:192-194 | The same for the fold over a sequence of children, as in the directory case and the top-level loop at `writer.rs:61-69`. |
| Sink.Put | backend/src/iso/writer.rs:27 | `write_all` moves the cursor by the length, and the written bytes are at the old cursor. An empty write leaves the bytes as they were. The buffer grows to the end of the write only if it was shorter. |
| Sink.PutFrame | backend/src/iso/writer.rs:27 | A write past the end fills the gap with zeros and keeps every byte outside the written range. |
| Sink.PutPut | backend/src/iso/writer.rs:41-43 | Two writes in a row are one write of both, so a byte-at-a-time loop is one write. |
| Sink.PutAtEnd | backend/src/iso/writer.rs:27-35 | A write at the end of the buffer appends. |
| Sink.PutKeepsHolds | backend/src/iso/writer.rs:98-114 | Bytes outside a write's range survive it. |
| Sink.PutHolds | backend/src/iso/writer.rs:108 | After a non-empty write, its bytes are at the cursor it started from. |
| Sink.SeekTo | backend/src/iso/writer.rs:257 | `seek(SeekFrom::Start(p))` moves the cursor to `p` and keeps every byte, as at `writer.rs:98` and `110`. |
| Sink.KeepsHolds | backend/src/iso/writer.rs:255-265 | Bytes below the cursor that later writes keep are still in place. |
| Sink.Cursor.WriteAll | backend/src/iso/writer.rs:27 | The writer's new state is one `write_all` of the bytes. |
| Sink.Cursor.SeekStart | backend/src/iso/writer.rs:98 | `seek(SeekFrom::Start(p))` moves the cursor to `p` and changes no byte. |
| Sink.Cursor.StreamPosition | backend/src/iso/writer.rs:255 | `seek(SeekFrom::Current(0))` returns the cursor. |
| Bytes.BeU8 | backend/src/iso/writer.rs:101-102 | `write_u8` writes exactly the one byte given. |
| Sink.Cursor.WriteU8 | backend/src/iso/writer.rs:101-102 | `write_u8` writes one byte. |
| Sink.Cursor.WriteU16Be | backend/src/iso/writer.rs:103 | `write_u16::<BE>` writes the two big-endian bytes. |
| Sink.Cursor.WriteI32Be | backend/src/iso/writer.rs:104-105 | `write_i32::<BE>` writes the four two's-complement big-endian bytes. |
| Sink.Cursor.WriteU32Be | backend/src/iso/writer.rs:111-114 | `write_u32::<BE>` writes the four big-endian bytes. |
| Builder.Prep | backend/src/iso/writer.rs:203-272 | A walk adds one entry per node of the subtree. |
| Builder.PrepSeq | backend/src/iso/writer.rs:231-239 | A walk over siblings adds one entry per node of their subtrees. |
| Builder.PrepAppends | backend/src/iso/writer.rs:215-229 | A walk keeps every earlier entry unchanged. The bank grows by exactly the names of the subtree, each followed by 0, in pre-order. |
| Builder.PrepSeqAppends | backend/src/iso/writer.rs:231-239 | The same for a walk over siblings. |
| Builder.PrepEntries | backend/src/iso/writer.rs:213-268 | The new entries describe the subtree in pre-order. Each has the node's kind and its name offset in the bank. A file's B field is its length; a directory's is one past its subtree. |
| Builder.PrepSeqEntries | backend/src/iso/writer.rs:231-239 | The same for siblings: their subtrees follow one another. |
| Builder.PrepTop | backend/src/iso/writer.rs:215-259 | A file's entry is `(File, bank length, pos rounded up to 32, length)`, and the cursor ends at that offset plus the length rounded up to 32. A directory's entry is `(Directory, bank length, parent, one past its subtree)`; the end index is above its own index, and an empty directory's is its index + 1. |
| Builder.NameOfEntry | backend/src/iso/writer.rs:217 | An entry's name offset is the length of the names before its node, and the node's name and a 0 byte sit there in the bank. |
| Builder.NamesInBank | backend/src/iso/writer.rs:222-223 | At every entry's name offset the bank holds that node's name followed by 0. |
| Builder.NameOffsetsIncrease | backend/src/iso/writer.rs:248 | Name offsets strictly increase along the table, so no two names share a start. |
| Builder.OffsetsOrdered | backend/src/iso/writer.rs:252-253 | Of two entries, the later one's name starts later in the bank. |
| Builder.PrepParents | backend/src/iso/writer.rs:218-238 | Every new directory entry names an earlier directory entry as its parent. |
| Builder.PrepSeqParents | backend/src/iso/writer.rs:231-239 | The same for a walk over siblings. |
| Builder.PathToRoot | backend/src/iso/writer.rs:218-225 | From a directory entry, following parent fields visits directory entries at strictly decreasing indices and ends at entry 0. |
| Builder.PrepSeqSiblings | backend/src/iso/writer.rs:231-239 | Each sibling's entry starts where its elder siblings' subtrees end, and a directory sibling names the shared parent. |
| Builder.DirectoryChildren | backend/src/iso/writer.rs:225-238 | The children of a directory name its entry as their parent. |
| Builder.PrepSink | backend/src/iso/writer.rs:255-265 | A walk writes only at or after the cursor and moves it forward. It stops on a 32-byte boundary if it wrote anything. Every non-empty file's payload, followed by its zero pad up to the next 32-byte boundary, is present at the offset its entry records, on a 32-byte boundary within the walk's range. |
| Builder.PrepSeqSink | backend/src/iso/writer.rs:231-239 | The same for a walk over siblings: payloads and their zero pads. |
| Builder.WithPad | backend/src/iso/writer.rs:261-265 | A payload followed by its pad has the payload as its prefix, only zeros after it, and its length rounded up to 32. |
| Builder.PaddedWrite | backend/src/iso/writer.rs:255-265 | The seek, payload and trailing pad keep the bytes below the old cursor and end on a 32-byte boundary. |
| Builder.PaddedPayload | backend/src/iso/writer.rs:259-265 | After the pad, a non-empty payload followed by its zero pad lies at the rounded offset, inside the written range. |
| Builder.WriteZeros | backend/src/iso/writer.rs:71-75 | A loop of one-byte zero writes is one write of `n` zeros. |
| Builder.OutputPrep | backend/src/iso/writer.rs:203-272 | The entries, the bank and the writer after the call are what `Prep` gives for the node, the incoming entries, bank and writer, and the parent index. |
| IsoWriter.Boot | backend/src/iso/writer.rs:13-50 | The lookups succeed exactly when `&&systemdata`, `iso.hdr`, `AppLoader.ldr` and a `*.dol` file exist. The layout is then the first of each, plus the top-level children without `&&systemdata`. |
| IsoWriter.DolOffset | backend/src/iso/writer.rs:37-39 | `dol_offset` is a multiple of `DOL_ALIGNMENT`, at or above the end of the header and apploader and less than one alignment above it. |
| IsoWriter.FstListOffset | backend/src/iso/writer.rs:53-55 | `fst_list_offset` is a multiple of `FST_ALIGNMENT`, at or above the end of the executable and less than one alignment above it. |
| IsoWriter.FstLength | backend/src/iso/writer.rs:61-69 | `fst_len` is 12 bytes per entry (the root plus every node of the top-level subtrees other than `&&systemdata`) plus the length of their name bank. |
| IsoWriter.RegionOffsets | backend/src/iso/writer.rs:37-55 | The executable and table offsets are the least multiples of their alignments at or above the end of what precedes them. |
| IsoWriter.HeaderPatch | backend/src/iso/writer.rs:110-114 | The patch is 16 bytes. |
| IsoWriter.HeaderPatchWords | backend/src/iso/writer.rs:110-114 | The patch reads back as the executable offset, the table offset and `fst_len` twice, each cut to 32 bits. |
| IsoWriter.ROOT_PLACEHOLDER | backend/src/iso/writer.rs:77-83 | The placeholder root entry is a directory with every other field 0, as from `Default::default()`. |
| IsoWriter.BuildFst | backend/src/iso/writer.rs:77-96 | The table has the root entry plus one entry per node of the top-level subtrees. |
| IsoWriter.BuildFstEntries | backend/src/iso/writer.rs:61-96 | Entry 0 is `(Directory, 0, 0, entry count)`. The rest describe the top-level subtrees in pre-order, with names packed from offset 0. 12 × entries + bank length equals the `fst_len` estimate, so the estimate matches what the builder produces. |
| IsoWriter.BuildFstLinks | backend/src/iso/writer.rs:86-93 | Every directory entry names an earlier directory as its parent, and the top-level children name the root. |
| IsoWriter.RootClosure | backend/src/iso/writer.rs:86-96 | From every directory entry, the parent links reach entry 0. |
| IsoWriter.BuildFstSink | backend/src/iso/writer.rs:86-93 | The walk keeps what was written before it. Every non-empty file of the top-level subtrees lies, with its zero pad, where its entry says, on a 32-byte boundary, after the reserved table. |
| IsoWriter.BootWrites | backend/src/iso/writer.rs:27-43 | The header, apploader and zero-gap writes move the cursor forward by `dol_offset`. |
| IsoWriter.Reserve | backend/src/iso/writer.rs:51-75 | The executable, the zero gap and the reserved table advance the cursor by `fst_list_offset + fst_len - dol_offset`, so a writer that starts empty ends at `fst_list_offset + fst_len`. |
| IsoWriter.WriteBack | backend/src/iso/writer.rs:98-114 | The two back-patches leave the cursor at the end of the header patch. |
| IsoWriter.Emit | backend/src/iso/writer.rs:51-114 | From the executable write on, the call ends with the cursor at `OFFSET_DOL_OFFSET + 16`. |
| IsoWriter.Finish | backend/src/iso/writer.rs:9-114 | A successful call ends with the cursor at `OFFSET_DOL_OFFSET + 16`, whatever the writer held before. |
| IsoWriter.WriteIsoSpec | backend/src/iso/writer.rs:9-117 | There is one failure per missing lookup, each exactly when that lookup and no earlier one fails, with the bytes written so far left in the writer. The call passes exactly when all four lookups succeed, and the writer then holds the full run. |
| IsoWriter.Preamble | backend/src/iso/writer.rs:27-75 | The sequential part ends at the table offset plus `fst_len`. |
| IsoWriter.BootFromEmpty | backend/src/iso/writer.rs:27-43 | From an empty writer, the header, the apploader and the zero gap up to `dol_offset` are appended in that order. |
| IsoWriter.ReserveAtEnd | backend/src/iso/writer.rs:51-75 | On a writer at its end, the executable, the zero gap up to `fst_list_offset` and `fst_len` reserved zeros are appended. |
| IsoWriter.ReserveFromEmpty | backend/src/iso/writer.rs:27-75 | From an empty writer the sequential writes append: header, apploader, zero gap, executable, zero gap, reserved zeros. |
| IsoWriter.PreambleHeader | backend/src/iso/writer.rs:27 | The header is at offset 0. |
| IsoWriter.PreambleApploader | backend/src/iso/writer.rs:35 | The apploader follows the header. |
| IsoWriter.PreambleDolGap | backend/src/iso/writer.rs:41-43 | Zeros fill the gap up to `dol_offset`. |
| IsoWriter.PreambleDol | backend/src/iso/writer.rs:51 | The executable is at `dol_offset`. |
| IsoWriter.PreambleFstGap | backend/src/iso/writer.rs:57-59 | Zeros fill the gap up to `fst_list_offset`. |
| IsoWriter.WriteBackKeeps | backend/src/iso/writer.rs:98-114 | The two back-patches keep every byte they do not overwrite. |
| IsoWriter.WriteBackTable | backend/src/iso/writer.rs:98-108 | The table is in place after both back-patches when the patch lies in front of it. |
| IsoWriter.WriteBackPatch | backend/src/iso/writer.rs:110-114 | The patch is in place after both back-patches. |
| IsoWriter.WriteBackFiles | backend/src/iso/writer.rs:98-114 | Payloads after both back-patches stay in place. |
| IsoWriter.TableFromEmpty | backend/src/iso/writer.rs:61-96 | From an empty writer, the table fills the reserved space exactly and the walk keeps the sequential part below the end of that space. |
| IsoWriter.FilesFromEmpty | backend/src/iso/writer.rs:86-93 | From an empty writer, every non-empty payload the walk writes, followed by its zero pad, lies after the reserved space, at the offset its entry records. |
| IsoWriter.ImageIsWriteBack | backend/src/iso/writer.rs:98-114 | The image is the built table written back at `fst_list_offset`, followed by the header patch. |
| IsoWriter.PreambleKept | backend/src/iso/writer.rs:27-59 | Any bytes of the sequential part in front of the table and clear of the patch are in the finished image. |
| IsoWriter.TableInImage | backend/src/iso/writer.rs:98-108 | The entries and the name bank are in the image at `fst_list_offset` and take exactly `fst_len` bytes. |
| IsoWriter.TableBytesInImage | backend/src/iso/writer.rs:98-108 | From an empty writer, when the header patch lies in front of the table, the entries and the name bank are in the image at `fst_list_offset`. |
| IsoWriter.FilesInImage | backend/src/iso/writer.rs:255-265 | Every non-empty file's payload, followed by its zero pad, is in the image at the offset its entry records, on a 32-byte boundary, after the table. |
| IsoWriter.ImagePatch | backend/src/iso/writer.rs:110-114 | For any starting writer, the four header words are in the image at `OFFSET_DOL_OFFSET`. |
| IsoWriter.RecordInBytes | backend/src/iso/writer.rs:100-106 | In bytes that hold a table, record `j` is the encoding of entry `j`. |
| IsoWriter.EntryInImage | backend/src/iso/writer.rs:98-106 | The 12 bytes at `fst_list_offset + 12 * j` of the image are the encoding of entry `j`, which `Fst.EntryRoundTrip` decodes back to the entry up to the casts. |
| IsoWriter.NameInTable | backend/src/iso/writer.rs:100-108 | After the last record, at each non-root entry's name offset, the written table holds that node's name and a 0 byte. |
| IsoWriter.NameInImage | backend/src/iso/writer.rs:98-108 | The same in the finished image, counted from `fst_list_offset`. |
| IsoWriter.SmallTreeBoot | backend/src/iso/writer.rs:13-50 | For a tree with the three boot files and one top-level `a.txt`, the lookups find them and leave `a.txt` as the only top-level child. |
| IsoWriter.SmallTreeTable | backend/src/iso/writer.rs:61-96 | For that tree `fst_len` is 30. The table is the root entry with end index 2, then `a.txt` at the first 32-byte boundary after the table, with length 5. |
| IsoWriter.SmallTreePayload | backend/src/iso/writer.rs:255-265 | For that tree, the table-building walk leaves the 5 bytes of `a.txt` followed by 27 zero bytes at the first 32-byte boundary after the table. |
| IsoWriter.PutEntry | backend/src/iso/writer.rs:101-105 | The five field writes of an entry are one write of its encoding. |
| IsoWriter.PutPatch | backend/src/iso/writer.rs:111-114 | The four word writes are one write of the patch. |
| IsoWriter.PendingStart | backend/src/iso/writer.rs:62-67 | Before the loop, every child but `&&systemdata` is pending, in order. |
| IsoWriter.PendingStep | backend/src/iso/writer.rs:62-67 | Each iteration either skips `&&systemdata` or takes the next pending child. |
| IsoWriter.PendingPrep | backend/src/iso/writer.rs:86-93 | One iteration of the walk loop is one step of the walk over the pending children. |
| IsoWriter.PendingDone | backend/src/iso/writer.rs:86-93 | After the loop nothing is pending. |
| IsoWriter.TopFstLen | backend/src/iso/writer.rs:61-69 | The loop computes `fst_len` as 12 plus `calculate_fst_len` folded over the children without `&&systemdata`. |
| IsoWriter.TopWalk | backend/src/iso/writer.rs:86-93 | The loop's entries, bank and writer are those of the walk over the children without `&&systemdata`, with parent 0. |
| IsoWriter.TopPrep | backend/src/iso/writer.rs:77-96 | The root placeholder, the walk and the root backfill give the table `BuildFst` describes. |
| IsoWriter.WriteEntry | backend/src/iso/writer.rs:101-105 | One iteration writes the 12-byte encoding of the entry. |
| IsoWriter.TableStep | backend/src/iso/writer.rs:100-106 | Writing entry `k` after the first `k` writes the first `k + 1`. |
| IsoWriter.WriteTable | backend/src/iso/writer.rs:98-108 | The writer ends as one write, at `fst_list_offset`, of every entry's encoding followed by the name bank. |
| IsoWriter.WritePatch | backend/src/iso/writer.rs:110-114 | The writer ends as one write, at `OFFSET_DOL_OFFSET`, of the four words. |
| IsoWriter.WriteRest | backend/src/iso/writer.rs:51-114 | From the executable write on, the method leaves the writer in the state `Emit` describes. |
| IsoWriter.WriteIso | backend/src/iso/writer.rs:9-117 | The outcome and the writer's final state are exactly `WriteIsoSpec` of the tree and the initial state. |

## Left out

- `write_fs`, `write_data_dir` (`backend/src/iso/writer.rs:157-171`), `write_data_file` (`173-185`), `write_files_recursive` and the rest of `backend/src/iso/writer.rs:119-185` and `274-302`: they mirror the tree into the host filesystem, which is I/O with no layout logic.
- Fst.KindByte: the values File = 0 and Directory = 1 are those of the disc format's FST. The discriminants of `FstNodeType` are declared outside `writer.rs` (imported at `writer.rs:2`, cast at `writer.rs:101`), and that declaration is not part of this model.
- Failures of the writer itself (the `?` on every write and seek): the model's writer never fails. Only the four lookup failures are modelled.
- Error message text: the four failures are the `IsoError` values, not the `err_msg` strings.
- `backend/src/iso/consts.rs` is not part of this model. `DOL_ALIGNMENT`, `FST_ALIGNMENT` and `OFFSET_DOL_OFFSET` are the fields of `Config`, assumed to have nonzero alignments.
- `backend/src/iso/virtual_file_system.rs` and the `FstEntry` declarations are not part of this model. The tree, the entry and its kind are local datatypes, and names are their byte strings.
- The iterator chains of the lookups are the function `Find` applied to the children, not a loop.
- `usize` and `u64` arithmetic is unbounded. Overflow of the offsets themselves is not modelled. Only the `as u16`, `as u32` and `as i32` casts truncate; `new_pos as usize` (`writer.rs:259`) and the `as u64` seek targets (`writer.rs:98`, `110`) are taken as lossless.
- The round-trip property (parsing the image back into a tree) is not stated as one theorem. The image lemmas give the parts: every entry is there encoded, every name is in the bank, every payload is at its offset.
- `PreambleKept`, `TableInImage`, `FilesInImage`, `EntryInImage` and `NameInImage` are stated for an image written from an empty writer. For a writer with earlier content, `WriteIsoSpec` still states the exact final state.
- TableBytesInImage: stated only for an image written from an empty writer, and only when the header patch lies in front of the table (`OFFSET_DOL_OFFSET + 16 <= fst_list_offset`); otherwise the patch overwrites part of the table.
- TableInImage: stated only when the header patch lies in front of the table (`OFFSET_DOL_OFFSET + 16 <= fst_list_offset`); otherwise the patch overwrites part of the table.
- FilesInImage: stated only when the header patch lies in front of the table, as above.
- EntryInImage: stated only when the header patch lies in front of the table, as above.
- NameInImage: stated only when the header patch lies in front of the table, as above. It uses the entry's name offset before the `as u16` cast; past 64 KiB of names the recorded 16-bit offset no longer points at the name.
