/** The virtual file tree the image is built from, its pre-order listing,
    the packed name bank of a listing, and the child lookups of the writer. */
module Vfs {
  import opened Bytes

  datatype Option<T> = None | Some(value: T)

  /** A node of the tree. Names are the UTF-8 bytes of the node's name. */
  datatype Node =
    | File(name: seq<byte>, data: seq<byte>)
    | Directory(name: seq<byte>, children: seq<Node>)

  /** The subtree of `n` in pre-order: `n`, then each child's subtree in
      order. This is the order the table builder emits entries in. */
  function Nodes(n: Node): (r: seq<Node>)
    decreases n
    ensures |r| >= 1 && r[0] == n
  {
    match n
    case File(_, _) => [n]
    case Directory(_, cs) => [n] + NodesSeq(cs)
  }

  /** The pre-order listing of a forest: the listings of its trees, in order. */
  function NodesSeq(cs: seq<Node>): seq<Node>
    decreases cs
  {
    if cs == [] then [] else Nodes(cs[0]) + NodesSeq(cs[1..])
  }

  /** The name bank of a listing: each name followed by a 0 byte. */
  function Names(ns: seq<Node>): seq<byte>
  {
    if ns == [] then [] else ns[0].name + [0] + Names(ns[1..])
  }

  lemma {:induction false} NamesConcat(a: seq<Node>, b: seq<Node>)
    ensures Names(a + b) == Names(a) + Names(b)
  {
    if a != [] {
      assert (a + b)[0] == a[0] && (a + b)[1..] == a[1..] + b;
      NamesConcat(a[1..], b);
      assert Names(a + b) == a[0].name + [0] + (Names(a[1..]) + Names(b));
    } else {
      assert a + b == b;
    }
  }

  lemma {:induction false} NamesCons(n: Node, rest: seq<Node>)
    ensures Names([n] + rest) == n.name + [0] + Names(rest)
  {
    assert ([n] + rest)[0] == n && ([n] + rest)[1..] == rest;
  }

  /** The name of the `k`-th node of a listing sits in the bank at the total
      length of the names before it, followed by its terminating 0. */
  lemma {:induction false} NameInBank(ns: seq<Node>, k: nat)
    requires k < |ns|
    ensures Holds(Names(ns), |Names(ns[..k])|, ns[k].name + [0])
    ensures |Names(ns[..k + 1])| == |Names(ns[..k])| + |ns[k].name| + 1
  {
    assert ns == ns[..k] + ns[k..];
    NamesConcat(ns[..k], ns[k..]);
    assert ns[k..][1..] == ns[k + 1..];
    assert ns[..k + 1] == ns[..k] + [ns[k]];
    NamesConcat(ns[..k], [ns[k]]);
    assert [ns[k]][1..] == [];
  }

  /** What the writer looks for among a directory's children. */
  datatype Query =
    | DirectoryNamed(name: seq<byte>)
    | FileNamed(name: seq<byte>)
    | FileWithSuffix(suffix: seq<byte>)

  /** The `as_directory`/`as_file` filter and the `find` closure of one
      lookup; `ends_with(suffix)` holds when the name is some prefix
      followed by `suffix`. */
  function Matches(q: Query, n: Node): (r: bool)
    ensures q.DirectoryNamed? ==> (r <==> n.Directory? && n.name == q.name)
    ensures q.FileNamed? ==> (r <==> n.File? && n.name == q.name)
    ensures q.FileWithSuffix? ==> (r <==> n.File? && exists p :: p + q.suffix == n.name)
  {
    match q
    case DirectoryNamed(name) => n.Directory? && n.name == name
    case FileNamed(name) => n.File? && n.name == name
    case FileWithSuffix(suffix) =>
      if n.File? && |suffix| <= |n.name| && n.name[|n.name| - |suffix|..] == suffix then
        assert n.name[..|n.name| - |suffix|] + suffix == n.name;
        true
      else
        assert forall p :: p + suffix == n.name ==> (p + suffix)[|p|..] == suffix;
        false
  }

  /** `children.iter().filter_map(..).find(..)`: the index of the first
      child that matches, if there is one. */
  function Find(cs: seq<Node>, q: Query): (r: Option<nat>)
    ensures r.Some? ==> r.value < |cs| && Matches(q, cs[r.value])
    ensures r.Some? ==> forall j :: 0 <= j < r.value ==> !Matches(q, cs[j])
    ensures r.None? <==> forall j :: 0 <= j < |cs| ==> !Matches(q, cs[j])
  {
    if cs == [] then None
    else if Matches(q, cs[0]) then Some(0)
    else
      match Find(cs[1..], q)
      case None => None
      case Some(j) => Some(j + 1)
  }

  /** `children.iter().enumerate().filter(|&(i, _)| i != skip)`. */
  function Without(cs: seq<Node>, skip: nat): (r: seq<Node>)
    requires skip < |cs|
    ensures |r| == |cs| - 1
    ensures forall j :: 0 <= j < skip ==> r[j] == cs[j]
    ensures forall j :: skip <= j < |r| ==> r[j] == cs[j + 1]
  {
    cs[..skip] + cs[skip + 1..]
  }

  /** The reserved directory that holds the boot files. */
  const SYSTEM_DATA: seq<byte> := Ascii("&&systemdata")
  const ISO_HDR: seq<byte> := Ascii("iso.hdr")
  const APP_LOADER: seq<byte> := Ascii("AppLoader.ldr")
  const DOL_SUFFIX: seq<byte> := Ascii(".dol")
}
