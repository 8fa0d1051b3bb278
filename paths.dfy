/** The path resolver of FilesOrganizer: where a folder and a file live.
    A path is the sequence of its components; [] is the filesystem root.
    The platform's caches directory is an opaque path handed in by the caller. */
module Paths {

  type Path = seq<string>

  /** Defaults.subfolderName: every FilesOrganizer folder sits under it. */
  const SubfolderName: string := "FilesOrganizer"

  /** The logical identity of one stored blob. */
  datatype FileMeta = FileMeta(fileName: string, pathExtension: string)

  datatype Option<T> = None | Some(value: T)

  /** `a` is `b` or one of its ancestors. */
  predicate IsPrefix(a: Path, b: Path) {
    |a| <= |b| && b[..|a|] == a
  }

  /** The directory that holds `p`. */
  function Parent(p: Path): Path
    requires p != []
  {
    p[..|p| - 1]
  }

  /** folderURL: <cachesRoot>/FilesOrganizer/<folderName>. The folder is
      strictly inside the caches root, inside the FilesOrganizer namespace,
      and its last component is the organizer's folder name. */
  function FolderURL(cachesRoot: Path, folderName: string): (folder: Path)
    ensures IsPrefix(cachesRoot + [SubfolderName], folder)
    ensures |folder| == |cachesRoot| + 2
    ensures folder[|folder| - 1] == folderName
  {
    cachesRoot + [SubfolderName, folderName]
  }

  /** Two organizers over the same caches root with different folder names,
      each name being one path component, own disjoint subtrees: neither
      folder is inside the other, so removing one never touches a file of
      the other. */
  lemma FoldersDisjoint(cachesRoot: Path, a: string, b: string)
    requires a != b
    ensures !IsPrefix(FolderURL(cachesRoot, a), FolderURL(cachesRoot, b))
    ensures !IsPrefix(FolderURL(cachesRoot, b), FolderURL(cachesRoot, a))
  {
  }

  /** The last component of a file path: fileName with pathExtension appended
      as an extension. */
  function LeafName(meta: FileMeta): (leaf: string)
    ensures |leaf| == |meta.fileName| + 1 + |meta.pathExtension|
    ensures leaf[..|meta.fileName|] == meta.fileName
    ensures leaf[|meta.fileName|] == '.'
    ensures leaf[|meta.fileName| + 1..] == meta.pathExtension
  {
    meta.fileName + "." + meta.pathExtension
  }

  /** createFileURL: the file path of `meta`. It is a direct child of the
      organizer's folder, and its name ends in "." followed by the
      extension. */
  function FileURL(cachesRoot: Path, folderName: string, meta: FileMeta): (url: Path)
    ensures url != [] && Parent(url) == FolderURL(cachesRoot, folderName)
    ensures var leaf := url[|url| - 1];
      |leaf| == |meta.fileName| + 1 + |meta.pathExtension| &&
      leaf[|meta.fileName|..] == "." + meta.pathExtension &&
      leaf[..|meta.fileName|] == meta.fileName
  {
    FolderURL(cachesRoot, folderName) + [LeafName(meta)]
  }

  /** A file path lies inside its organizer's folder, and so inside the
      FilesOrganizer namespace of the caches root. */
  lemma FileInFolder(cachesRoot: Path, folderName: string, meta: FileMeta)
    ensures IsPrefix(FolderURL(cachesRoot, folderName), FileURL(cachesRoot, folderName, meta))
    ensures IsPrefix(cachesRoot + [SubfolderName], FileURL(cachesRoot, folderName, meta))
  {
  }

  /** The number of characters after the last "." of `s`, or |s| when
      `s` holds no ".". */
  function TailLength(s: string): (n: nat)
    ensures n <= |s|
    ensures n < |s| ==> s[|s| - 1 - n] == '.'
    ensures forall k :: |s| - n <= k < |s| ==> s[k] != '.'
  {
    if s == [] || s[|s| - 1] == '.' then 0 else 1 + TailLength(s[..|s| - 1])
  }

  /** Reads a leaf name back into a FileMeta: the extension is what follows
      the last ".", the file name what precedes it. None when there is no ".". */
  function SplitLeaf(leaf: string): (r: Option<FileMeta>)
    ensures r.Some? <==> '.' in leaf
    ensures r.Some? ==> LeafName(r.value) == leaf && '.' !in r.value.pathExtension
  {
    var n := TailLength(leaf);
    if n == |leaf| then
      assert forall k :: 0 <= k < |leaf| ==> leaf[k] != '.';
      None
    else
      var meta := FileMeta(leaf[..|leaf| - 1 - n], leaf[|leaf| - n..]);
      assert LeafName(meta) == leaf;
      assert forall k :: 0 <= k < n ==> meta.pathExtension[k] == leaf[|leaf| - n + k];
      Some(meta)
  }

  lemma {:induction false} TailLengthOfLeaf(name: string, ext: string)
    requires '.' !in ext
    ensures TailLength(name + "." + ext) == |ext|
  {
    var s := name + "." + ext;
    if ext == [] {
      assert s[|s| - 1] == '.';
    } else {
      assert s[|s| - 1] == ext[|ext| - 1] && ext[|ext| - 1] in ext;
      assert s[..|s| - 1] == name + "." + ext[..|ext| - 1];
      TailLengthOfLeaf(name, ext[..|ext| - 1]);
    }
  }

  /** Reading a leaf name back gives the FileMeta it was built from, as long
      as the extension holds no "." ("a.b"+"c" and "a"+"b.c" share a leaf). */
  lemma {:induction false} SplitLeafName(meta: FileMeta)
    requires '.' !in meta.pathExtension
    ensures SplitLeaf(LeafName(meta)) == Some(meta)
  {
    var s := LeafName(meta);
    TailLengthOfLeaf(meta.fileName, meta.pathExtension);
    assert s[..|s| - 1 - |meta.pathExtension|] == meta.fileName;
    assert s[|s| - |meta.pathExtension|..] == meta.pathExtension;
  }

  /** Hence equal leaf names come from equal FileMeta values. */
  lemma {:induction false} LeafNameInjective(m: FileMeta, n: FileMeta)
    requires '.' !in m.pathExtension && '.' !in n.pathExtension
    requires LeafName(m) == LeafName(n)
    ensures m == n
  {
    SplitLeafName(m);
    SplitLeafName(n);
  }

  /** Within one folder, distinct FileMeta values (extensions without ".")
      resolve to distinct files. */
  lemma {:induction false} FileURLInjective(cachesRoot: Path, folderName: string, m: FileMeta, n: FileMeta)
    requires '.' !in m.pathExtension && '.' !in n.pathExtension
    requires FileURL(cachesRoot, folderName, m) == FileURL(cachesRoot, folderName, n)
    ensures m == n
  {
    var u := FileURL(cachesRoot, folderName, m);
    assert u[|u| - 1] == LeafName(m) == LeafName(n);
    LeafNameInjective(m, n);
  }
}
