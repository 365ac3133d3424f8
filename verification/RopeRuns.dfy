/** Any sequence of message operations on any population of messages, compared with the same
    operations on plain byte strings. After a split or a join several messages of the population
    view the same buffers; headers may be placed inside, and messages flattened into, buffers of
    the caller. */
module RopeRuns {
  import opened Bytes
  import opened Rope

  datatype Op =
    | AddHdr(i: nat, hdr: seq<byte>)                    // a header in a buffer of its own
    | AddView(i: nat, b: nat, off: nat, size: nat)      // a header inside one of the caller's buffers
    | StripHdr(i: nat, len: int)
    | Split(i: nat, j: nat, keep: nat)
    | Join(i: nat, j: nat)
    | Flat(i: nat)                                      // into a buffer of the right size
    | FlatInto(i: nat, b: nat)                          // into one of the caller's buffers

  /** What an operation hands back to its caller. */
  datatype Answer = Nothing | Null | Content(bytes: seq<byte>)

  /** A byte of a string, and which of the caller's buffers it lies in, -1 for none. No operation on strings
      looks at the owner; only `FlatInto` needs to know which buffers are in use. */
  datatype Unit = Unit(value: byte, owner: int)

  /** The strings, and the contents of the caller's buffers. */
  datatype World = World(pop: seq<seq<Unit>>, mem: seq<seq<byte>>)

  function Owned(s: seq<byte>, owner: int): (u: seq<Unit>)
    ensures |u| == |s|
  {
    seq(|s|, i requires 0 <= i < |s| => Unit(s[i], owner))
  }

  function Values(u: seq<Unit>): (s: seq<byte>)
    ensures |s| == |u|
  {
    seq(|u|, i requires 0 <= i < |u| => u[i].value)
  }

  predicate Unused(pop: seq<seq<Unit>>, b: nat) {
    forall i, k :: 0 <= i < |pop| && 0 <= k < |pop[i]| ==> pop[i][k].owner != b
  }

  /** The calls for which the code is meaningful: in range, distinct messages where two are involved,
      never stripping exactly everything, never splitting at 0 or into a message that views something,
      never flattening into a buffer that is too small or that some message views. */
  predicate Legal(w: World, op: Op) {
    match op
    case AddHdr(i, _) => i < |w.pop|
    case AddView(i, b, off, size) => i < |w.pop| && b < |w.mem| && off + size <= |w.mem[b]|
    case StripHdr(i, len) => i < |w.pop| && (len == |w.pop[i]| ==> len == 0)
    case Split(i, j, keep) =>
      i < |w.pop| && j < |w.pop| && i != j && 0 < keep && (keep <= |w.pop[i]| ==> w.pop[j] == [])
    case Join(i, j) => i < |w.pop| && j < |w.pop| && i != j
    case Flat(i) => i < |w.pop|
    case FlatInto(i, b) => i < |w.pop| && b < |w.mem| && |w.pop[i]| <= |w.mem[b]| && Unused(w.pop, b)
  }

  /** The operations on plain strings: prepend, drop a prefix, cut, append, read, write out. */
  function Apply(w: World, op: Op): (r: (World, Answer))
    requires Legal(w, op)
    ensures |r.0.pop| == |w.pop| && |r.0.mem| == |w.mem|
  {
    var pop := w.pop;
    match op
    case AddHdr(i, hdr) => (w.(pop := pop[i := Owned(hdr, -1) + pop[i]]), Nothing)
    case AddView(i, b, off, size) => (w.(pop := pop[i := Owned(w.mem[b][off..off + size], b) + pop[i]]), Nothing)
    case StripHdr(i, len) =>
      if 0 < len <= |pop[i]| then (w.(pop := pop[i := pop[i][len..]]), Content(Values(pop[i])[..len])) else (w, Null)
    case Split(i, j, keep) =>
      if keep <= |pop[i]| then (w.(pop := pop[i := pop[i][..keep]][j := pop[i][keep..]]), Nothing) else (w, Null)
    case Join(i, j) => (w.(pop := pop[i := pop[i] + pop[j]]), Nothing)
    case Flat(i) => (w, Content(Values(pop[i])))
    case FlatInto(i, b) => (w.(mem := w.mem[b := Values(pop[i]) + w.mem[b][|pop[i]|..]]), Nothing)
  }

  /** A strip is legal exactly if the code does not read the front of an empty list, however the message is
      segmented. */
  lemma StripLegalIff(w: World, i: nat, len: int, l: Lists)
    requires i < |w.pop| && l.Parallel() && |Cells(l)| == |w.pop[i]|
    ensures Legal(w, StripHdr(i, len)) <==> len <= 0 || len > |Cells(l)| || PopFront(l, len).Defined?
  {
    if 0 < len {
      PopFrontDrops(l, len);
    }
  }

  /** A split is legal exactly if it is refused, or the code does not read the back of an empty list and the second
      message views nothing. */
  lemma SplitLegalIff(w: World, i: nat, j: nat, keep: nat, l: Lists)
    requires i < |w.pop| && j < |w.pop| && i != j && l.Parallel() && |Cells(l)| == |w.pop[i]|
    ensures Legal(w, Split(i, j, keep)) <==>
            keep > |Cells(l)| || (PopBack(l, |Cells(l)| - keep, Lists([], [])).Defined? && w.pop[j] == [])
  {
    if keep <= |Cells(l)| {
      PopBackCuts(l, |Cells(l)| - keep, Lists([], []));
    }
  }

  /** Everything else is legal on any messages, but for joining a message with itself, and for a buffer to flatten into
      that is too small or in use. */
  lemma OthersLegal(w: World, i: nat, j: nat, hdr: seq<byte>, b: nat, off: nat, size: nat)
    requires i < |w.pop| && j < |w.pop| && b < |w.mem| && off + size <= |w.mem[b]|
    ensures Legal(w, AddHdr(i, hdr)) && Legal(w, AddView(i, b, off, size)) && Legal(w, Flat(i))
    ensures Legal(w, Join(i, j)) <==> i != j
    ensures Legal(w, FlatInto(i, b)) <==>
            && |w.pop[i]| <= |w.mem[b]|
            && forall m, k :: 0 <= m < |w.pop| && 0 <= k < |w.pop[m]| ==> w.pop[m][k].owner != b
  {
  }

  predicate AllLegal(w: World, ops: seq<Op>)
    decreases |ops|
  {
    ops == [] || (Legal(w, ops[0]) && AllLegal(Apply(w, ops[0]).0, ops[1..]))
  }

  function ApplyAll(w: World, ops: seq<Op>): (r: (World, seq<Answer>))
    requires AllLegal(w, ops)
    ensures |r.0.pop| == |w.pop| && |r.0.mem| == |w.mem| && |r.1| == |ops|
    decreases |ops|
  {
    if ops == [] then (w, [])
    else
      var (w', answer) := Apply(w, ops[0]);
      var (last, answers) := ApplyAll(w', ops[1..]);
      (last, [answer] + answers)
  }

  lemma ApplyStep(w: World, ops: seq<Op>, before: seq<Answer>)
    requires ops != [] && AllLegal(w, ops)
    ensures var (w', answer) := Apply(w, ops[0]);
            && ApplyAll(w, ops).0 == ApplyAll(w', ops[1..]).0
            && before + ApplyAll(w, ops).1 == (before + [answer]) + ApplyAll(w', ops[1..]).1
  {
  }

  // ----- the strings that addresses stand for

  ghost function OwnerOf(buf: array<byte>, bufs: seq<array<byte>>): (o: int)
    ensures -1 <= o < |bufs|
    ensures o >= 0 ==> bufs[o] == buf
    ensures o == -1 ==> buf !in bufs
  {
    if bufs == [] then -1
    else
      var n := |bufs| - 1;
      if bufs[n] == buf then n else OwnerOf(buf, bufs[..n])
  }

  ghost function Read(cells: seq<Cell>, bufs: seq<array<byte>>): (u: seq<Unit>)
    requires InBounds(cells)
    reads BuffersOf(cells)
    ensures |u| == |cells| && Values(u) == Load(cells)
  {
    seq(|cells|, i requires 0 <= i < |cells| reads BuffersOf(cells) =>
      Unit(cells[i].buf[cells[i].idx], OwnerOf(cells[i].buf, bufs)))
  }

  ghost predicate Distinct<T>(l: seq<T>) {
    forall i, j :: 0 <= i < j < |l| ==> l[i] != l[j]
  }

  lemma {:induction false} OwnerIs(bufs: seq<array<byte>>, b: nat)
    requires Distinct(bufs) && b < |bufs|
    ensures OwnerOf(bufs[b], bufs) == b
  {
  }

  lemma ReadConcat(a: seq<Cell>, b: seq<Cell>, bufs: seq<array<byte>>)
    requires InBounds(a) && InBounds(b)
    ensures InBounds(a + b) && Read(a + b, bufs) == Read(a, bufs) + Read(b, bufs)
  {
  }

  lemma ReadSlice(cells: seq<Cell>, lo: nat, hi: nat, bufs: seq<array<byte>>)
    requires InBounds(cells) && lo <= hi <= |cells|
    ensures InBounds(cells[lo..hi]) && Read(cells[lo..hi], bufs) == Read(cells, bufs)[lo..hi]
  {
  }

  lemma ReadRange(p: Ptr, n: nat, bufs: seq<array<byte>>)
    requires p.off + n <= p.buf.Length
    ensures InBounds(Range(p, n))
    ensures Read(Range(p, n), bufs) == Owned(p.buf[p.off..p.off + n], OwnerOf(p.buf, bufs))
  {
  }

  ghost predicate AllValid(msgs: seq<Message>)
    reads msgs
  {
    forall i :: 0 <= i < |msgs| ==> msgs[i].Valid()
  }

  ghost predicate Represents(msgs: seq<Message>, bufs: seq<array<byte>>, w: World)
    requires AllValid(msgs)
    reads msgs, bufs, set i, b | 0 <= i < |msgs| && b in ListedBuffers(msgs[i].Segments()) :: b
  {
    && |msgs| == |w.pop| && |bufs| == |w.mem|
    && (forall b :: 0 <= b < |bufs| ==> bufs[b][..] == w.mem[b])
    && (forall i :: 0 <= i < |msgs| ==> Read(msgs[i].Views(), bufs) == w.pop[i])
  }

  /** What the methods below start from. */
  ghost predicate Ready(msgs: seq<Message>, bufs: seq<array<byte>>, w: World)
    reads msgs, bufs, set i, b | 0 <= i < |msgs| && b in ListedBuffers(msgs[i].Segments()) :: b
  {
    Distinct(msgs) && Distinct(bufs) && AllValid(msgs) && Represents(msgs, bufs, w)
  }

  method NewBuffer(content: seq<byte>) returns (buf: array<byte>)
    ensures fresh(buf) && buf[..] == content
  {
    buf := new byte[|content|](k requires 0 <= k < |content| => content[k]);
  }

  /** A header of `len` bytes at any address. */
  method AddAt(msgs: seq<Message>, bufs: seq<array<byte>>, ghost w: World, i: nat, hdr: Ptr, len: nat)
    requires Ready(msgs, bufs, w) && i < |msgs| && hdr.off + len <= hdr.buf.Length
    modifies msgs[i]
    ensures AllValid(msgs)
    ensures var front := Owned(hdr.buf[hdr.off..hdr.off + len], OwnerOf(hdr.buf, bufs));
            Represents(msgs, bufs, w.(pop := w.pop[i := front + w.pop[i]]))
  {
    ghost var views := msgs[i].Views();
    ReadRange(hdr, len, bufs);
    ReadConcat(Range(hdr, len), views, bufs);
    msgs[i].MsgAddHdr(hdr, len);
    forall k | 0 <= k < |msgs| && k != i
      ensures msgs[k].Valid() && Read(msgs[k].Views(), bufs) == w.pop[k]
    {
      assert msgs[k] != msgs[i];
    }
  }

  method ExecuteAddHdr(msgs: seq<Message>, bufs: seq<array<byte>>, ghost w: World, i: nat, hdr: seq<byte>)
    returns (answer: Answer)
    requires Ready(msgs, bufs, w) && Legal(w, AddHdr(i, hdr))
    modifies msgs[i]
    ensures AllValid(msgs) && Represents(msgs, bufs, Apply(w, AddHdr(i, hdr)).0)
    ensures answer == Apply(w, AddHdr(i, hdr)).1
  {
    var buf := NewBuffer(hdr);
    assert buf[0..0 + |hdr|] == hdr && OwnerOf(buf, bufs) == -1;
    AddAt(msgs, bufs, w, i, Ptr(buf, 0), |hdr|);
    answer := Nothing;
  }

  method ExecuteAddView(msgs: seq<Message>, bufs: seq<array<byte>>, ghost w: World, i: nat, b: nat, off: nat, size: nat)
    returns (answer: Answer)
    requires Ready(msgs, bufs, w) && Legal(w, AddView(i, b, off, size))
    modifies msgs[i]
    ensures AllValid(msgs) && Represents(msgs, bufs, Apply(w, AddView(i, b, off, size)).0)
    ensures answer == Apply(w, AddView(i, b, off, size)).1
  {
    OwnerIs(bufs, b);
    assert bufs[b][off..off + size] == bufs[b][..][off..off + size];
    AddAt(msgs, bufs, w, i, Ptr(bufs[b], off), size);
    answer := Nothing;
  }

  /** Stripping one message, in terms of its string. */
  method StripOne(m: Message, bufs: seq<array<byte>>, ghost u: seq<Unit>, len: int) returns (answer: Answer)
    requires m.Valid() && Read(m.Views(), bufs) == u && (len == |u| ==> len == 0)
    modifies m
    ensures m.Valid()
    ensures if 0 < len <= |u| then answer == Content(Values(u)[..len]) && Read(m.Views(), bufs) == u[len..]
            else answer == Null && Read(m.Views(), bufs) == u
  {
    ghost var views := m.Views();
    var stripped := m.MsgStripHdr(len);
    assert Read(views, bufs) == u;
    if stripped == null {
      answer := Null;
    } else {
      ReadSlice(views, len, |views|, bufs);
      answer := Content(stripped[..len]);
    }
  }

  method ExecuteStripHdr(msgs: seq<Message>, bufs: seq<array<byte>>, ghost w: World, i: nat, len: int)
    returns (answer: Answer)
    requires Ready(msgs, bufs, w) && Legal(w, StripHdr(i, len))
    modifies msgs[i]
    ensures AllValid(msgs) && Represents(msgs, bufs, Apply(w, StripHdr(i, len)).0)
    ensures answer == Apply(w, StripHdr(i, len)).1
  {
    answer := StripOne(msgs[i], bufs, w.pop[i], len);
    forall k | 0 <= k < |msgs| && k != i
      ensures msgs[k].Valid() && Read(msgs[k].Views(), bufs) == w.pop[k]
    {
      assert msgs[k] != msgs[i];
    }
  }

  /** Splitting one message into another, in terms of their strings. */
  method SplitTwo(m: Message, second: Message, bufs: seq<array<byte>>,
                  ghost u: seq<Unit>, ghost v: seq<Unit>, keep: nat)
    returns (answer: Answer)
    requires m.Valid() && second.Valid() && m != second
    requires Read(m.Views(), bufs) == u && Read(second.Views(), bufs) == v && 0 < keep && (keep <= |u| ==> v == [])
    modifies m, second
    ensures m.Valid() && second.Valid()
    ensures if keep <= |u| then
              answer == Nothing && Read(m.Views(), bufs) == u[..keep] && Read(second.Views(), bufs) == u[keep..]
            else answer == Null && Read(m.Views(), bufs) == u && Read(second.Views(), bufs) == v
  {
    ghost var views, others := m.Views(), second.Views();
    var ok := m.MsgSplit(second, keep);
    assert Read(views, bufs) == u;
    if ok == 0 {
      assert second.Views() == others && Read(others, bufs) == v;
      answer := Null;
    } else {
      ReadSlice(views, 0, keep, bufs);
      ReadSlice(views, keep, |views|, bufs);
      answer := Nothing;
    }
  }

  method ExecuteSplit(msgs: seq<Message>, bufs: seq<array<byte>>, ghost w: World, i: nat, j: nat, keep: nat)
    returns (answer: Answer)
    requires Ready(msgs, bufs, w) && Legal(w, Split(i, j, keep))
    modifies msgs[i], msgs[j]
    ensures AllValid(msgs) && Represents(msgs, bufs, Apply(w, Split(i, j, keep)).0)
    ensures answer == Apply(w, Split(i, j, keep)).1
  {
    answer := SplitTwo(msgs[i], msgs[j], bufs, w.pop[i], w.pop[j], keep);
    forall k | 0 <= k < |msgs| && k != i && k != j
      ensures msgs[k].Valid() && Read(msgs[k].Views(), bufs) == w.pop[k]
    {
      assert msgs[k] != msgs[i] && msgs[k] != msgs[j];
    }
  }

  /** Joining one message with another, in terms of their strings. */
  method JoinTwo(m: Message, second: Message, bufs: seq<array<byte>>, ghost u: seq<Unit>, ghost v: seq<Unit>)
    requires m.Valid() && second.Valid() && m != second
    requires Read(m.Views(), bufs) == u && Read(second.Views(), bufs) == v
    modifies m
    ensures m.Valid() && Read(m.Views(), bufs) == u + v
  {
    ReadConcat(m.Views(), second.Views(), bufs);
    m.MsgJoin(second);
  }

  method ExecuteJoin(msgs: seq<Message>, bufs: seq<array<byte>>, ghost w: World, i: nat, j: nat)
    returns (answer: Answer)
    requires Ready(msgs, bufs, w) && Legal(w, Join(i, j))
    modifies msgs[i]
    ensures AllValid(msgs) && Represents(msgs, bufs, Apply(w, Join(i, j)).0)
    ensures answer == Apply(w, Join(i, j)).1
  {
    JoinTwo(msgs[i], msgs[j], bufs, w.pop[i], w.pop[j]);
    forall k | 0 <= k < |msgs| && k != i
      ensures msgs[k].Valid() && Read(msgs[k].Views(), bufs) == w.pop[k]
    {
      assert msgs[k] != msgs[i];
    }
    answer := Nothing;
  }

  method ExecuteFlat(msgs: seq<Message>, bufs: seq<array<byte>>, ghost w: World, i: nat) returns (answer: Answer)
    requires Ready(msgs, bufs, w) && Legal(w, Flat(i))
    ensures AllValid(msgs) && Represents(msgs, bufs, Apply(w, Flat(i)).0)
    ensures answer == Apply(w, Flat(i)).1
  {
    var content := Flatten(msgs[i]);
    answer := Content(content);
  }

  /** Flattening into a buffer of the right size that nothing else views. */
  method Flatten(m: Message) returns (content: seq<byte>)
    requires m.Valid()
    ensures content == m.Contents()
  {
    var n := m.MsgLen();
    var buffer := new byte[n];
    m.MsgFlat(buffer);
    content := buffer[..n];
  }

  /** No message views a buffer that no string has a byte in. */
  lemma UnusedUnviewed(msgs: seq<Message>, bufs: seq<array<byte>>, w: World, b: nat, i: nat)
    requires Ready(msgs, bufs, w) && b < |bufs| && Unused(w.pop, b) && i < |msgs|
    ensures bufs[b] !in BuffersOf(msgs[i].Views())
  {
    OwnerIs(bufs, b);
    var views := msgs[i].Views();
    forall k | 0 <= k < |views|
      ensures views[k].buf != bufs[b]
    {
      assert Read(views, bufs)[k].owner == w.pop[i][k].owner;
    }
  }

  method ExecuteFlatInto(msgs: seq<Message>, bufs: seq<array<byte>>, ghost w: World, i: nat, b: nat)
    returns (answer: Answer)
    requires Ready(msgs, bufs, w) && Legal(w, FlatInto(i, b))
    modifies bufs[b]
    ensures AllValid(msgs) && Represents(msgs, bufs, Apply(w, FlatInto(i, b)).0)
    ensures answer == Apply(w, FlatInto(i, b)).1
  {
    forall k | 0 <= k < |msgs|
      ensures bufs[b] !in BuffersOf(msgs[k].Views())
    {
      UnusedUnviewed(msgs, bufs, w, b, k);
    }
    ghost var n := msgs[i].msglen;
    msgs[i].MsgFlat(bufs[b]);
    assert bufs[b][..] == bufs[b][..n] + bufs[b][n..];
    answer := Nothing;
  }

  /** One operation on the real messages does to the whole population exactly what it does to strings:
      in particular no message other than its targets changes, whatever buffers they share, and no buffer of the
      caller but the one flattened into. */
  method Execute(msgs: seq<Message>, bufs: seq<array<byte>>, op: Op, ghost w: World) returns (answer: Answer)
    requires Ready(msgs, bufs, w) && Legal(w, op)
    modifies msgs, bufs
    ensures AllValid(msgs) && Represents(msgs, bufs, Apply(w, op).0)
    ensures answer == Apply(w, op).1
  {
    match op
    case AddHdr(i, hdr) => answer := ExecuteAddHdr(msgs, bufs, w, i, hdr);
    case AddView(i, b, off, size) => answer := ExecuteAddView(msgs, bufs, w, i, b, off, size);
    case StripHdr(i, len) => answer := ExecuteStripHdr(msgs, bufs, w, i, len);
    case Split(i, j, keep) => answer := ExecuteSplit(msgs, bufs, w, i, j, keep);
    case Join(i, j) => answer := ExecuteJoin(msgs, bufs, w, i, j);
    case Flat(i) => answer := ExecuteFlat(msgs, bufs, w, i);
    case FlatInto(i, b) => answer := ExecuteFlatInto(msgs, bufs, w, i, b);
  }

  /** Every run on real messages gives the answers and the contents of the run on plain strings. */
  method Run(msgs: seq<Message>, bufs: seq<array<byte>>, ops: seq<Op>, ghost w: World) returns (answers: seq<Answer>)
    requires Ready(msgs, bufs, w) && AllLegal(w, ops)
    modifies msgs, bufs
    ensures AllValid(msgs) && Represents(msgs, bufs, ApplyAll(w, ops).0)
    ensures answers == ApplyAll(w, ops).1
  {
    answers := [];
    ghost var now, left := w, ops;
    assert ops[0..] == ops;
    for k := 0 to |ops|
      invariant left == ops[k..] && AllLegal(now, left)
      invariant Ready(msgs, bufs, now)
      invariant ApplyAll(w, ops).0 == ApplyAll(now, left).0
      invariant ApplyAll(w, ops).1 == answers + ApplyAll(now, left).1
    {
      assert left[0] == ops[k] && left[1..] == ops[k + 1..];
      ApplyStep(now, left, answers);
      var answer := Execute(msgs, bufs, ops[k], now);
      answers := answers + [answer];
      now, left := Apply(now, left[0]).0, left[1..];
    }
  }
}
