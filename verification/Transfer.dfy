/** Sending one file in blocks (sendFile) to the receiver's Begin/Data/End machine (receiver.go). */
module Transfer {
  import opened Options
  import opened Model
  import opened FileTree
  import opened RemoteTree

  newtype Byte = x: int | 0 <= x < 256

  type Bytes = seq<Byte>

  /** SHA-256 taken as injective; Torn is the text a sender ends a torn transfer with, the hash of nothing. */
  datatype Digest = Of(bytes: Bytes) | Torn

  datatype Frame =
    | Begin(path: Path, mtimeNS: int)
    | Data(offset: int, digest: Digest, block: Bytes)
    | End(full: Digest)
    | Ping

  /** A transfer in progress: the temporary file and what the running hash has been fed. */
  datatype Open = Open(path: Path, mtimeNS: int, tmp: Bytes, fed: Bytes)

  /** The receiver's tree, the content of its files, and the transfer state of the connection. */
  datatype State = State(tree: FileSystem, content: map<Path, Bytes>, open: Option<Open>)

  datatype Reply = Reply(st: State, ok: bool)

  /** A write at an offset: a gap is filled with zeros. */
  function Patched(tmp: Bytes, offset: nat, block: Bytes): Bytes {
    if block == [] then tmp
    else
      var wide := if |tmp| < offset then tmp + seq(offset - |tmp|, i => 0) else tmp;
      wide[..offset] + block + if offset + |block| < |wide| then wide[offset + |block|..] else []
  }

  /** One frame, served.  Begin drops a transfer in progress; any error drops it too; only End installs. */
  function Taken(st: State, f: Frame): Reply {
    match f
    case Ping => Reply(st, true)
    case Begin(q, mtimeNS) =>
      var up := MkdirAll(st.tree, Parent(q));
      if q != [] && up.ok then Reply(State(up.fs, st.content, Some(Open(q, mtimeNS, [], []))), true)
      else Reply(State(up.fs, st.content, None), false)
    case Data(offset, digest, block) =>
      if st.open == None then Reply(st, false)
      else if digest != Of(block) || offset < 0 then Reply(st.(open := None), false)
      else
        var o := st.open.value;
        Reply(st.(open := Some(Open(o.path, o.mtimeNS, Patched(o.tmp, offset, block), o.fed + block))), true)
    case End(full) =>
      if st.open == None then Reply(st, false)
      else
        var o := st.open.value;
        var put := Install(st.tree, o.path, FileNode(|o.tmp|, o.mtimeNS));
        if full == Of(o.fed) && put.ok then Reply(State(put.fs, st.content[o.path := o.tmp], None), true)
        else Reply(st.(open := None), false)
  }

  function Run(st: State, frames: seq<Frame>): State {
    if frames == [] then st else Taken(Run(st, frames[..|frames| - 1]), frames[|frames| - 1]).st
  }

  // ---- what a sequence of frames amounts to, without the machine

  datatype Pending = Pending(path: Path, mtimeNS: int, bytes: Bytes)

  /** The path of the last Begin that no End has followed, and the blocks since then put together. */
  function Since(frames: seq<Frame>): Option<Pending> {
    if frames == [] then None
    else
      var before := Since(frames[..|frames| - 1]);
      match frames[|frames| - 1]
      case Ping => before
      case Begin(q, mtimeNS) => Some(Pending(q, mtimeNS, []))
      case End(_) => None
      case Data(_, _, block) =>
        if before == None then None else Some(before.value.(bytes := before.value.bytes + block))
  }

  /** Each block starts where the one before has ended. */
  predicate Sequential(frames: seq<Frame>) {
    frames == []
    || (var front, last := frames[..|frames| - 1], frames[|frames| - 1];
        Sequential(front) && (last.Data? && Since(front) != None ==> last.offset == |Since(front).value.bytes|))
  }

  /** The transfer in progress is about the last Begin, and its hash has seen exactly the blocks since. */
  lemma {:induction false} OpenIsSince(st: State, frames: seq<Frame>)
    requires st.open == None
    ensures var o := Run(st, frames).open; o != None ==>
      Since(frames) == Some(Pending(o.value.path, o.value.mtimeNS, o.value.fed))
  {
    hide Patched, MkdirAll, Install;
    if frames != [] {
      OpenIsSince(st, frames[..|frames| - 1]);
    }
  }

  lemma {:induction false} SequentialFile(st: State, frames: seq<Frame>)
    requires st.open == None && Sequential(frames)
    ensures var o := Run(st, frames).open; o != None ==> o.value.tmp == o.value.fed
  {
    hide MkdirAll, Install, Patched;
    if frames != [] {
      var front := frames[..|frames| - 1];
      SequentialFile(st, front);
      OpenIsSince(st, front);
      var o := Run(st, front).open;
      if o != None && frames[|frames| - 1].Data? {
        PatchedAtEnd(o.value.tmp, frames[|frames| - 1].block);
      }
    }
  }

  lemma PatchedAtEnd(tmp: Bytes, block: Bytes)
    ensures Patched(tmp, |tmp|, block) == tmp + block
  {
  }

  /** Over any sequence of frames, a frame changes the content of a path only if it is an End whose hash is that of the
      blocks received since the last Begin, for the path of that Begin; if the offsets were sequential, the new content
      is those blocks. */
  lemma ContentChangesOnlyAtEnd(st: State, frames: seq<Frame>, f: Frame, q: Path)
    requires st.open == None
    requires At(Taken(Run(st, frames), f).st.content, q) != At(Run(st, frames).content, q)
    ensures f.End? && Since(frames) != None && Since(frames).value.path == q && f.full == Of(Since(frames).value.bytes)
    ensures Sequential(frames) ==> At(Taken(Run(st, frames), f).st.content, q) == Some(Since(frames).value.bytes)
  {
    hide MkdirAll, Install, Patched;
    OpenIsSince(st, frames);
    if Sequential(frames) {
      SequentialFile(st, frames);
    }
  }

  /** Every block since the last Begin or End came with its own hash and at an offset there is. */
  predicate Checked(frames: seq<Frame>) {
    if frames == [] then true
    else
      match frames[|frames| - 1]
      case Begin(_, _) => true
      case End(_) => true
      case Ping => Checked(frames[..|frames| - 1])
      case Data(offset, digest, block) => digest == Of(block) && offset >= 0 && Checked(frames[..|frames| - 1])
  }

  /** A transfer is in progress exactly if the last Begin was served, no End has followed and no block since was bad. */
  lemma {:induction false} OpenExactly(st: State, frames: seq<Frame>)
    requires st.open == None
    ensures Run(st, frames).open != None <==> Since(frames) != None && Checked(frames) && Begun(st, frames)
  {
    hide Patched, MkdirAll, Install, Passable;
    if frames != [] {
      OpenExactly(st, frames[..|frames| - 1]);
    }
  }

  /** The last Begin named a path whose parents could be made. */
  predicate Begun(st: State, frames: seq<Frame>) {
    frames != []
    && match frames[|frames| - 1]
       case Begin(q, _) => q != [] && MkdirAll(Run(st, frames[..|frames| - 1]).tree, Parent(q)).ok
       case _ => Begun(st, frames[..|frames| - 1])
  }

  /** A block that is not what its hash says is refused, and whatever frames follow, the transfer it belongs to comes to
      nothing: until a new Begin every block and the End are refused as well, and no content changes. */
  lemma {:induction false} BadBlockEndsTransfer(st: State, frames: seq<Frame>, bad: Frame, more: seq<Frame>, f: Frame)
    requires st.open == None && bad.Data? && (bad.digest != Of(bad.block) || bad.offset < 0)
    requires forall i :: 0 <= i < |more| ==> !more[i].Begin?
    ensures !Taken(Run(st, frames), bad).ok
    ensures !f.Begin? && !f.Ping? ==> !Taken(Run(st, frames + [bad] + more), f).ok
    ensures Run(st, frames + [bad] + more).open == None
    ensures Run(st, frames + [bad] + more).content == Run(st, frames).content
  {
    hide Patched, MkdirAll, Install;
    var all := frames + [bad] + more;
    if more == [] {
      assert all == frames + [bad] && (frames + [bad])[..|frames|] == frames;
    } else {
      var front := more[..|more| - 1];
      assert all[..|all| - 1] == frames + [bad] + front && all[|all| - 1] == more[|more| - 1];
      BadBlockEndsTransfer(st, frames, bad, front, more[|more| - 1]);
    }
  }

  // ---- the frames of an undisturbed transfer

  lemma BeginTaken(st: State, q: Path, mtimeNS: int)
    requires q != [] && Passable(st.tree, Parent(q))
    ensures Taken(st, Begin(q, mtimeNS))
      == Reply(State(MkdirAll(st.tree, Parent(q)).fs, st.content, Some(Open(q, mtimeNS, [], []))), true)
    ensures At(MkdirAll(st.tree, Parent(q)).fs, q) == At(st.tree, q)
  {
    hide Passable;
    MkdirAllAt(st.tree, Parent(q), q);
  }

  lemma DataTaken(st: State, offset: nat, block: Bytes)
    requires st.open != None
    ensures var o := st.open.value;
      Taken(st, Data(offset, Of(block), block))
      == Reply(st.(open := Some(Open(o.path, o.mtimeNS, Patched(o.tmp, offset, block), o.fed + block))), true)
  {
    hide Patched;
  }

  lemma EndTaken(st: State, full: Digest)
    requires st.open != None
    ensures var o := st.open.value;
      Taken(st, End(full))
      == if full == Of(o.fed) && At(st.tree, o.path) != Some(DirNode)
         then Reply(State(st.tree[o.path := FileNode(|o.tmp|, o.mtimeNS)], st.content[o.path := o.tmp], None), true)
         else Reply(st.(open := None), false)
  {
  }

  // ---- what offsets do

  /** The file after these blocks have been written at these offsets. */
  function Written(offs: seq<nat>, blocks: seq<Bytes>): Bytes
    requires |offs| == |blocks|
  {
    if blocks == [] then []
    else Patched(Written(offs[..|blocks| - 1], blocks[..|blocks| - 1]), offs[|blocks| - 1], blocks[|blocks| - 1])
  }

  /** The blocks as the running hash sees them. */
  function Joined(blocks: seq<Bytes>): Bytes {
    if blocks == [] then [] else Joined(blocks[..|blocks| - 1]) + blocks[|blocks| - 1]
  }

  /** Every block that is not empty starts where those before it end. */
  predicate InSequence(offs: seq<nat>, blocks: seq<Bytes>)
    requires |offs| == |blocks|
  {
    forall i :: 0 <= i < |blocks| && blocks[i] != [] ==> offs[i] == |Joined(blocks[..i])|
  }

  predicate SameShape(x: seq<Bytes>, y: seq<Bytes>) {
    |x| == |y| && forall i :: 0 <= i < |x| ==> |x[i]| == |y[i]|
  }

  lemma {:induction false} SameLengths(x: seq<Bytes>, y: seq<Bytes>, k: nat)
    requires SameShape(x, y) && k <= |x|
    ensures |Joined(x[..k])| == |Joined(y[..k])|
  {
    if k > 0 {
      assert x[..k][..k - 1] == x[..k - 1] && y[..k][..k - 1] == y[..k - 1];
      SameLengths(x, y, k - 1);
    }
  }

  lemma InSequenceShape(offs: seq<nat>, x: seq<Bytes>, y: seq<Bytes>)
    requires |offs| == |x| && SameShape(x, y) && InSequence(offs, x)
    ensures InSequence(offs, y)
  {
    forall i | 0 <= i < |y| && y[i] != [] ensures offs[i] == |Joined(y[..i])| {
      SameLengths(x, y, i);
      assert x[i] != [];
    }
  }

  lemma {:induction false} SequenceWrites(offs: seq<nat>, blocks: seq<Bytes>)
    requires |offs| == |blocks| && InSequence(offs, blocks)
    ensures Written(offs, blocks) == Joined(blocks)
  {
    hide Patched;
    if blocks != [] {
      var n := |blocks| - 1;
      forall i | 0 <= i < n && blocks[..n][i] != [] ensures offs[..n][i] == |Joined(blocks[..n][..i])| {
        assert blocks[..n][..i] == blocks[..i] && blocks[..n][i] == blocks[i];
      }
      SequenceWrites(offs[..n], blocks[..n]);
      if blocks[n] == [] {
        EmptyPatch(Joined(blocks[..n]), offs[n]);
      } else {
        PatchedAtEnd(Joined(blocks[..n]), blocks[n]);
      }
    }
  }

  lemma EmptyPatch(tmp: Bytes, offset: nat)
    ensures Patched(tmp, offset, []) == tmp
  {
  }

  /** Zeros of the same lengths, but for one byte: the first one of block k. */
  function Marked(blocks: seq<Bytes>, k: nat): (r: seq<Bytes>)
    ensures SameShape(blocks, r)
  {
    seq(|blocks|, i requires 0 <= i < |blocks| => seq(|blocks[i]|, j => if i == k && j == 0 then 1 else 0))
  }

  lemma PatchedOne(tmp: Bytes, offset: nat, block: Bytes, p: nat, at: nat)
    requires p < |Patched(tmp, offset, block)| && Patched(tmp, offset, block)[p] == 1
    requires forall i :: 0 <= i < |tmp| && tmp[i] == 1 ==> i == at
    requires forall j :: 0 <= j < |block| && block[j] == 1 ==> offset + j == at
    ensures p == at
  {
    if block != [] && offset <= p < offset + |block| {
      assert Patched(tmp, offset, block)[p] == block[p - offset];
    }
  }

  /** However the blocks overlap, the marked byte can only end up where its block was put. */
  lemma {:induction false} OneMark(offs: seq<nat>, blocks: seq<Bytes>, k: nat, n: nat, p: nat)
    requires |offs| == |blocks| && k < |blocks| && n <= |blocks|
    requires p < |Written(offs[..n], Marked(blocks, k)[..n])| && Written(offs[..n], Marked(blocks, k)[..n])[p] == 1
    ensures p == offs[k]
  {
    hide Patched;
    var marked := Marked(blocks, k);
    if n > 0 {
      assert offs[..n][..n - 1] == offs[..n - 1] && marked[..n][..n - 1] == marked[..n - 1];
      var tmp := Written(offs[..n - 1], marked[..n - 1]);
      forall i | 0 <= i < |tmp| && tmp[i] == 1 ensures i == offs[k] {
        OneMark(offs, blocks, k, n - 1, i);
      }
      PatchedOne(tmp, offs[n - 1], marked[n - 1], p, offs[k]);
    }
  }

  lemma {:induction false} JoinedAt(blocks: seq<Bytes>, k: nat)
    requires k < |blocks| && blocks[k] != []
    ensures |Joined(blocks[..k])| < |Joined(blocks)| && Joined(blocks)[|Joined(blocks[..k])|] == blocks[k][0]
  {
    var n := |blocks| - 1;
    if k < n {
      assert blocks[..n][..k] == blocks[..k];
      JoinedAt(blocks[..n], k);
    }
  }

  /** Blocks of given lengths written at given offsets make the file that was hashed, whatever they contain, exactly if
      the offsets are sequential: for any others some contents give another file under the same hash. */
  lemma SequenceExact(offs: seq<nat>, blocks: seq<Bytes>)
    requires |offs| == |blocks|
    ensures (forall other :: SameShape(blocks, other) ==> Written(offs, other) == Joined(other))
      <==> InSequence(offs, blocks)
  {
    hide Written, Joined, Marked;
    if InSequence(offs, blocks) {
      forall other | SameShape(blocks, other) ensures Written(offs, other) == Joined(other) {
        InSequenceShape(offs, blocks, other);
        SequenceWrites(offs, other);
      }
    } else {
      var k :| 0 <= k < |blocks| && blocks[k] != [] && offs[k] != |Joined(blocks[..k])|;
      MarkStrays(offs, blocks, k);
    }
  }

  lemma MarkStrays(offs: seq<nat>, blocks: seq<Bytes>, k: nat)
    requires |offs| == |blocks| && k < |blocks| && blocks[k] != [] && offs[k] != |Joined(blocks[..k])|
    ensures SameShape(blocks, Marked(blocks, k)) && Written(offs, Marked(blocks, k)) != Joined(Marked(blocks, k))
  {
    hide Written, Joined;
    var marked := Marked(blocks, k);
    SameLengths(blocks, marked, k);
    JoinedAt(marked, k);
    var p := |Joined(marked[..k])|;
    assert offs[..|blocks|] == offs && marked[..|blocks|] == marked;
    if p < |Written(offs, marked)| && Written(offs, marked)[p] == 1 {
      OneMark(offs, blocks, k, |blocks|, p);
    }
  }

  /** A whole transfer as frames. */
  function Datas(offs: seq<nat>, blocks: seq<Bytes>): (r: seq<Frame>)
    requires |offs| == |blocks|
    ensures |r| == |blocks|
  {
    seq(|blocks|, i requires 0 <= i < |blocks| => Data(offs[i], Of(blocks[i]), blocks[i]))
  }

  function WholeTransfer(q: Path, mtimeNS: int, offs: seq<nat>, blocks: seq<Bytes>): seq<Frame>
    requires |offs| == |blocks|
  {
    [Begin(q, mtimeNS)] + Datas(offs, blocks) + [End(Of(Joined(blocks)))]
  }

  lemma RunOne(st: State, frames: seq<Frame>, f: Frame)
    ensures Run(st, frames + [f]) == Taken(Run(st, frames), f).st
  {
    assert (frames + [f])[..|frames|] == frames;
  }

  lemma {:induction false} DatasRun(st: State, q: Path, mtimeNS: int, offs: seq<nat>, blocks: seq<Bytes>)
    requires |offs| == |blocks| && q != [] && Passable(st.tree, Parent(q))
    ensures Run(st, [Begin(q, mtimeNS)] + Datas(offs, blocks))
         == State(MkdirAll(st.tree, Parent(q)).fs, st.content,
           Some(Open(q, mtimeNS, Written(offs, blocks), Joined(blocks))))
  {
    hide Taken, Patched, Passable, MkdirAll;
    BeginTaken(st, q, mtimeNS);
    if blocks == [] {
      assert [] + [Begin(q, mtimeNS)] == [Begin(q, mtimeNS)] + Datas(offs, blocks);
      RunOne(st, [], Begin(q, mtimeNS));
    } else {
      var n := |blocks| - 1;
      DatasRun(st, q, mtimeNS, offs[..n], blocks[..n]);
      var front := [Begin(q, mtimeNS)] + Datas(offs[..n], blocks[..n]);
      var f := Data(offs[n], Of(blocks[n]), blocks[n]);
      assert [Begin(q, mtimeNS)] + Datas(offs, blocks) == front + [f];
      RunOne(st, front, f);
      DataTaken(Run(st, front), offs[n], blocks[n]);
    }
  }

  /** A transfer whose hash is right installs what its offsets have made of the blocks. */
  lemma TransferInstalls(st: State, q: Path, mtimeNS: int, offs: seq<nat>, blocks: seq<Bytes>)
    requires |offs| == |blocks| && q != [] && Passable(st.tree, Parent(q)) && At(st.tree, q) != Some(DirNode)
    ensures At(Run(st, WholeTransfer(q, mtimeNS, offs, blocks)).content, q) == Some(Written(offs, blocks))
  {
    hide Taken, Written, Joined, Passable, MkdirAll;
    var front := [Begin(q, mtimeNS)] + Datas(offs, blocks);
    DatasRun(st, q, mtimeNS, offs, blocks);
    BeginTaken(st, q, mtimeNS);
    RunOne(st, front, End(Of(Joined(blocks))));
    EndTaken(Run(st, front), Of(Joined(blocks)));
  }

  /** Two blocks at the same offset: the hash is right and only the second one is in the file. */
  lemma MisplacedBlocks(st: State, q: Path, x: Byte, y: Byte)
    requires q != [] && Passable(st.tree, Parent(q)) && At(st.tree, q) != Some(DirNode)
    ensures var frames := [Begin(q, 0), Data(0, Of([x]), [x]), Data(0, Of([y]), [y]), End(Of([x, y]))];
      At(Run(st, frames).content, q) == Some([y])
  {
    hide Run, Passable;
    var frames := [Begin(q, 0), Data(0, Of([x]), [x]), Data(0, Of([y]), [y]), End(Of([x, y]))];
    TransferInstalls(st, q, 0, [0, 0], [[x], [y]]);
    Overwritten(x, y);
    assert WholeTransfer(q, 0, [0, 0], [[x], [y]]) == frames;
  }

  lemma Overwritten(x: Byte, y: Byte)
    ensures Written([0, 0], [[x], [y]]) == [y] && Joined([[x], [y]]) == [x, y]
  {
    assert [0, 0][..1] == [0] && [[x], [y]][..1] == [[x]] && [0][..0] == [] && [[x]][..0] == [];
    assert Written([0], [[x]]) == Patched([], 0, [x]) == [x];
    assert Joined([[x]]) == [x];
  }

  /** The receiver installs the bytes it has hashed, whatever they are, exactly if the offsets are sequential. */
  lemma InstalledIsHashed(st: State, q: Path, mtimeNS: int, offs: seq<nat>, blocks: seq<Bytes>)
    requires |offs| == |blocks| && q != [] && Passable(st.tree, Parent(q)) && At(st.tree, q) != Some(DirNode)
    ensures (forall other :: SameShape(blocks, other) ==>
               At(Run(st, WholeTransfer(q, mtimeNS, offs, other)).content, q) == Some(Joined(other)))
        <==> InSequence(offs, blocks)
  {
    hide Run, WholeTransfer, Written, Joined, InSequence, Passable;
    SequenceExact(offs, blocks);
    forall other | SameShape(blocks, other)
      ensures At(Run(st, WholeTransfer(q, mtimeNS, offs, other)).content, q) == Some(Written(offs, other))
    {
      TransferInstalls(st, q, mtimeNS, offs, other);
    }
  }

  /** The receiver's side of one connection. */
  class Receiver {
    var tree: FileSystem
    var content: map<Path, Bytes>
    var open: Option<Open>

    function Now(): State
      reads this
    {
      State(tree, content, open)
    }

    method Handle(f: Frame) returns (ok: bool)
      modifies this
      ensures Reply(Now(), ok) == Taken(old(Now()), f)
    {
      match f
      case Ping => ok := true;
      case Begin(q, mtimeNS) =>
        open := None;
        var up := MkdirAll(tree, Parent(q));
        tree := up.fs;
        ok := q != [] && up.ok;
        if ok { open := Some(Open(q, mtimeNS, [], [])); }
      case Data(offset, digest, block) =>
        if open == None { return false; }
        ok := digest == Of(block) && offset >= 0;
        if ok {
          var o := open.value;
          open := Some(o.(tmp := Patched(o.tmp, offset, block), fed := o.fed + block));
        } else {
          open := None;
        }
      case End(full) =>
        if open == None { return false; }
        var o := open.value;
        open := None;
        if full != Of(o.fed) { return false; }
        var put := Install(tree, o.path, FileNode(|o.tmp|, o.mtimeNS));
        ok := put.ok;
        if ok {
          tree := put.fs;
          content := content[o.path := o.tmp];
        }
    }
  }

  const BLOCK_SIZE := 4 * 1024 * 1024

  function Blocks(n: nat): nat {
    (n + BLOCK_SIZE - 1) / BLOCK_SIZE
  }

  /** The sender's side: a connection that carries a number of frames before it breaks.  The answer to the last of them
      may be lost with it. */
  class Link {
    const peer: Receiver
    const lastHeard: bool
    var left: nat

    constructor (peer: Receiver, left: nat, lastHeard: bool)
      ensures this.peer == peer && this.left == left && this.lastHeard == lastHeard
    {
      this.peer, this.left, this.lastHeard := peer, left, lastHeard;
    }

    /** Whether n frames and their answers come through. */
    predicate Carries(n: nat)
      reads this
    {
      left > n || (left == n && (n == 0 || lastHeard))
    }

    method RoundTrip(f: Frame) returns (ok: bool)
      modifies this`left, peer
      ensures left == if old(left) == 0 then 0 else old(left) - 1
      ensures peer.Now() == if old(left) == 0 then old(peer.Now()) else Taken(old(peer.Now()), f).st
      ensures ok == (old(Carries(1)) && Taken(old(peer.Now()), f).ok)
    {
      if left == 0 { return false; }
      left := left - 1;
      ok := peer.Handle(f);
      ok := ok && (left > 0 || lastHeard);
    }

    /** The file gets there exactly if it held still, all frames arrived and nothing is in the way. */
    predicate Delivers(q: Path, source: Bytes, mtimeNS: int, changed: bool)
      reads this, peer
    {
      !changed && left >= Blocks(|source|) + 2 && q != [] && FileArrives(peer.tree, q, |source|, mtimeNS).ok
    }

    /** Read the file block by block and send it; changed tells whether size or mtime differ after the last read.
        If the file gets there, the receiver has exactly the bytes read; otherwise no content has changed there.  The
        sender sees a success exactly if it also hears the last answer. */
    method SendFile(q: Path, source: Bytes, mtimeNS: int, changed: bool) returns (ok: bool)
      modifies this`left, peer
      ensures ok <==> old(Delivers(q, source, mtimeNS, changed)) && old(Carries(Blocks(|source|) + 2))
      ensures old(Delivers(q, source, mtimeNS, changed)) ==>
        peer.tree == FileArrives(old(peer.tree), q, |source|, mtimeNS).fs
          && peer.content == old(peer.content)[q := source]
      ensures !old(Delivers(q, source, mtimeNS, changed)) ==>
        peer.content == old(peer.content) && OnlyAddsDirs(old(peer.tree), peer.tree)
    {
      hide Taken, Passable, OnlyAddsDirs, MkdirAll;
      ghost var st := peer.Now();
      ghost var up := MkdirAll(peer.tree, Parent(q));
      Beginning(st, q, mtimeNS);
      ok := RoundTrip(Begin(q, mtimeNS));
      if !ok { return; }
      var all;
      all, ok := SendBlocks(q, source, mtimeNS);
      if !ok { return; }
      EndTaken(peer.Now(), if changed then Torn else Of(all));
      ok := RoundTrip(End(if changed then Torn else Of(all)));
    }

    /** The loop: full blocks until a short read. */
    method SendBlocks(q: Path, source: Bytes, mtimeNS: int) returns (hashed: Bytes, ok: bool)
      requires peer.open == Some(Open(q, mtimeNS, [], []))
      modifies this`left, peer
      ensures ok == old(Carries(Blocks(|source|)))
      ensures peer.tree == old(peer.tree) && peer.content == old(peer.content)
      ensures ok ==>
        left == old(left) - Blocks(|source|) && hashed == source && peer.open == Some(Open(q, mtimeNS, source, source))
    {
      hide Taken;
      var off, more := 0, true;
      hashed := [];
      while more
        invariant off <= |source| && hashed == source[..off] && left + Blocks(off) == old(left)
        invariant old(Carries(Blocks(off)))
        invariant if more then off % BLOCK_SIZE == 0 else off == |source|
        invariant peer.Now() == State(old(peer.tree), old(peer.content), Some(Open(q, mtimeNS, hashed, hashed)))
        decreases more, |source| - off
      {
        var n := if |source| - off < BLOCK_SIZE then |source| - off else BLOCK_SIZE;
        var block := source[off..off + n];
        if n > 0 {
          DataTaken(peer.Now(), off, block);
          PatchedAtEnd(hashed, block);
          OneMoreBlock(off, n, |source|);
          ok := RoundTrip(Data(off, Of(block), block));
          if !ok { return; }
          assert hashed + block == source[..off + n];
          hashed := hashed + block;
          off := off + n;
        }
        more := n == BLOCK_SIZE;
      }
      assert source[..|source|] == source;
      ok := true;
    }
  }

  lemma Beginning(st: State, q: Path, mtimeNS: int)
    ensures var r := Taken(st, Begin(q, mtimeNS)); var up := MkdirAll(st.tree, Parent(q));
      && r.ok == (q != [] && up.ok)
        && r.st == State(up.fs, st.content, if r.ok then Some(Open(q, mtimeNS, [], [])) else None)
      && OnlyAddsDirs(st.tree, up.fs) && OnlyAddsDirs(st.tree, st.tree) && (FileArrives(st.tree, q, 0, 0).ok ==> up.ok)
  {
    hide OnlyAddsDirs, MkdirAll;
    MkdirOnlyAdds(st.tree, Parent(q));
    SameOnlyAdds(st.tree);
  }

  lemma OneMoreBlock(off: nat, n: nat, size: nat)
    requires off % BLOCK_SIZE == 0 && 0 < n <= BLOCK_SIZE && off + n <= size
    ensures Blocks(off + n) == Blocks(off) + 1 <= Blocks(size)
  {
  }
}
