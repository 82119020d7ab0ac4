/** The metadata tracked per path (internal/model/entry.go) and the file systems it describes. */
module Model {
  import opened Options

  /** A path below a sync root, as its components; the slash-joined form orders and nests the same way. */
  type Path = seq<string>

  datatype FileType = File | Dir | Symlink

  datatype Entry = Entry(kind: FileType, size: int, mtimeNS: int, mode: int, dev: int, ino: int, linkTarget: string)

  type Tree = map<Path, Entry>

  /** The fast-path check of change detection: type, and size plus mtime or the link target. */
  predicate SameIdentity(a: Entry, b: Entry) {
    a.kind == b.kind
    && match a.kind
       case Dir => true
       case Symlink => a.linkTarget == b.linkTarget
       case File => a.size == b.size && a.mtimeNS == b.mtimeNS
  }

  /** What is at a path of a file system, up to what the service can tell apart. */
  datatype Node = DirNode | FileNode(size: int, mtimeNS: int) | LinkNode(target: string)

  type FileSystem = map<Path, Node>

  function NodeOf(e: Entry): Node {
    match e.kind
    case Dir => DirNode
    case File => FileNode(e.size, e.mtimeNS)
    case Symlink => LinkNode(e.linkTarget)
  }

  lemma IdentityIsNode(a: Entry, b: Entry)
    ensures SameIdentity(a, b) <==> NodeOf(a) == NodeOf(b)
  {
  }

  function Nodes(t: Tree): FileSystem {
    map q | q in t :: NodeOf(t[q])
  }

  function At<T>(f: map<Path, T>, q: Path): Option<T> {
    if q in f then Some(f[q]) else None
  }

  function NodeAt(t: Tree, q: Path): Option<Node> {
    if q in t then Some(NodeOf(t[q])) else None
  }

  /** Every directory above an entry is an entry; the root itself is none. */
  ghost predicate PrefixClosed(f: FileSystem) {
    && [] !in f
    && forall q, a :: q in f && a != [] && a < q ==> At(f, a) == Some(DirNode)
  }
}
