/** The segmented message buffer of message.h: two parallel lists of pointers and lengths,
    viewing byte buffers that several messages may share. */
module Rope {
  import opened Bytes

  /** A `char*`: a position inside an allocated buffer. */
  datatype Ptr = Ptr(buf: array<byte>, off: nat)

  /** One address viewed by a message. */
  datatype Cell = Cell(buf: array<byte>, idx: nat)

  /** The result of code that may read `front()` or `back()` of an empty list. */
  datatype Outcome<T> = Undefined | Defined(value: T)

  datatype Lists = Lists(ptrs: seq<Ptr>, sizes: seq<nat>)
  {
    ghost predicate Parallel() { |ptrs| == |sizes| }
  }

  function Range(p: Ptr, n: nat): (r: seq<Cell>)
    ensures |r| == n
  {
    seq(n, i requires 0 <= i => Cell(p.buf, p.off + i))
  }

  /** The addresses a list of segments views, in order. The bytes of a message are the contents of
      these addresses, so equations between `Cells` hold for every content of the memory. */
  function Cells(l: Lists): (c: seq<Cell>)
    requires l.Parallel()
    ensures l.sizes == [] ==> c == []
    decreases |l.sizes|
  {
    if l.sizes == [] then []
    else Range(l.ptrs[0], l.sizes[0]) + Cells(Lists(l.ptrs[1..], l.sizes[1..]))
  }

  ghost predicate InBounds(cells: seq<Cell>) {
    forall i :: 0 <= i < |cells| ==> cells[i].idx < cells[i].buf.Length
  }

  ghost predicate SegmentsInBounds(l: Lists) {
    && l.Parallel()
    && forall i :: 0 <= i < |l.ptrs| ==> l.ptrs[i].off + l.sizes[i] <= l.ptrs[i].buf.Length
  }

  ghost function BuffersOf(cells: seq<Cell>): set<array<byte>> {
    set i | 0 <= i < |cells| :: cells[i].buf
  }

  ghost function Load(cells: seq<Cell>): (s: seq<byte>)
    requires InBounds(cells)
    reads BuffersOf(cells)
    ensures |s| == |cells|
  {
    seq(|cells|, i requires 0 <= i < |cells| reads BuffersOf(cells) => cells[i].buf[cells[i].idx])
  }

  ghost function ListedBuffers(l: Lists): set<array<byte>> {
    set i | 0 <= i < |l.ptrs| :: l.ptrs[i].buf
  }

  lemma CellsListed(l: Lists)
    requires l.Parallel()
    ensures BuffersOf(Cells(l)) <= ListedBuffers(l)
    decreases |l.sizes|
  {
    if l.sizes != [] {
      var tail := Lists(l.ptrs[1..], l.sizes[1..]);
      CellsListed(tail);
      assert l.ptrs[0].buf in ListedBuffers(l);
      assert ListedBuffers(tail) <= ListedBuffers(l);
    }
  }

  lemma LoadConcat(a: seq<Cell>, b: seq<Cell>)
    requires InBounds(a) && InBounds(b)
    ensures InBounds(a + b) && Load(a + b) == Load(a) + Load(b)
  {
  }

  /** Loading the same cells gives the same bytes as long as no viewed byte was overwritten. */
  twostate lemma LoadUnchanged(cells: seq<Cell>)
    requires InBounds(cells)
    requires forall i :: 0 <= i < |cells| ==> cells[i].buf[cells[i].idx] == old(cells[i].buf[cells[i].idx])
    ensures Load(cells) == old(Load(cells))
  {
  }

  lemma LoadSlice(cells: seq<Cell>, lo: nat, hi: nat)
    requires InBounds(cells) && lo <= hi <= |cells|
    ensures InBounds(cells[lo..hi]) && Load(cells[lo..hi]) == Load(cells)[lo..hi]
  {
  }

  lemma LoadRange(p: Ptr, n: nat)
    requires p.off + n <= p.buf.Length
    ensures InBounds(Range(p, n)) && Load(Range(p, n)) == p.buf[p.off..p.off + n]
  {
  }

  lemma CellsInBounds(l: Lists)
    requires SegmentsInBounds(l)
    ensures InBounds(Cells(l))
    decreases |l.sizes|
  {
    if l.sizes != [] {
      CellsInBounds(Lists(l.ptrs[1..], l.sizes[1..]));
    }
  }

  lemma {:induction false} CellsConcat(a: Lists, b: Lists)
    requires a.Parallel() && b.Parallel()
    ensures Cells(Lists(a.ptrs + b.ptrs, a.sizes + b.sizes)) == Cells(a) + Cells(b)
    decreases |a.sizes|
  {
    if a.sizes == [] {
      assert a.ptrs + b.ptrs == b.ptrs && a.sizes + b.sizes == b.sizes;
    } else {
      var tail := Lists(a.ptrs[1..], a.sizes[1..]);
      assert (a.ptrs + b.ptrs)[1..] == tail.ptrs + b.ptrs;
      assert (a.sizes + b.sizes)[1..] == tail.sizes + b.sizes;
      CellsConcat(tail, b);
    }
  }

  lemma CellsTail(l: Lists)
    requires l.Parallel() && l.sizes != []
    ensures |Cells(l)| >= l.sizes[0]
    ensures Cells(Lists(l.ptrs[1..], l.sizes[1..])) == Cells(l)[l.sizes[0]..]
  {
  }

  lemma CellsFrom(l: Lists, k: nat, cells: seq<Cell>, j: nat)
    requires l.Parallel() && k < |l.sizes| && j <= |cells|
    requires Cells(Lists(l.ptrs[k..], l.sizes[k..])) == cells[j..]
    ensures j + l.sizes[k] <= |cells|
    ensures Cells(Lists(l.ptrs[k + 1..], l.sizes[k + 1..])) == cells[j + l.sizes[k]..]
  {
    CellsTail(Lists(l.ptrs[k..], l.sizes[k..]));
    assert l.ptrs[k..][1..] == l.ptrs[k + 1..] && l.sizes[k..][1..] == l.sizes[k + 1..];
  }

  lemma CellsPushFront(p: Ptr, n: nat, l: Lists)
    requires l.Parallel()
    ensures Cells(Lists([p] + l.ptrs, [n] + l.sizes)) == Range(p, n) + Cells(l)
  {
    assert ([p] + l.ptrs)[1..] == l.ptrs && ([n] + l.sizes)[1..] == l.sizes;
  }

  /** The first `n` bytes of the first remaining segment are the bytes of the whole message at `done`. */
  lemma SegmentBytes(whole: seq<Cell>, rest: Lists, done: nat, n: nat)
    requires InBounds(whole) && SegmentsInBounds(rest) && rest.sizes != [] && n <= rest.sizes[0]
    requires done <= |whole| && Cells(rest) == whole[done..]
    ensures done + n <= |whole|
    ensures rest.ptrs[0].buf[rest.ptrs[0].off..rest.ptrs[0].off + n] == Load(whole)[done..done + n]
  {
    LoadSlice(whole, done, done + n);
    assert whole[done..done + n] == Cells(rest)[..n] == Range(rest.ptrs[0], n);
    LoadRange(rest.ptrs[0], n);
  }

  /** What the loop of `msgStripHdr` and the step after it leave of the two lists. */
  function PopFront(l: Lists, rem: nat): (r: Outcome<Lists>)
    requires l.Parallel()
    ensures r.Defined? ==> r.value.Parallel()
    decreases |l.sizes|
  {
    if l.sizes == [] then Undefined
    else if rem >= l.sizes[0] then PopFront(Lists(l.ptrs[1..], l.sizes[1..]), rem - l.sizes[0])
    else if rem > 0 then
      Defined(Lists([Ptr(l.ptrs[0].buf, l.ptrs[0].off + rem)] + l.ptrs[1..], [l.sizes[0] - rem] + l.sizes[1..]))
    else Defined(l)
  }

  /** The strip loop reads the front of an empty list exactly when it is asked for everything (or more);
      otherwise precisely the first `rem` addresses are dropped, whatever the segmentation. */
  lemma {:induction false} PopFrontDrops(l: Lists, rem: nat)
    requires l.Parallel()
    ensures PopFront(l, rem).Defined? <==> rem < |Cells(l)|
    ensures rem < |Cells(l)| ==> Cells(PopFront(l, rem).value) == Cells(l)[rem..]
    ensures rem < |Cells(l)| ==> |PopFront(l, rem).value.sizes| <= |l.sizes|
    ensures rem < |Cells(l)| && SegmentsInBounds(l) ==> SegmentsInBounds(PopFront(l, rem).value)
    decreases |l.sizes|
  {
    if l.sizes != [] {
      var tail := Lists(l.ptrs[1..], l.sizes[1..]);
      if rem >= l.sizes[0] {
        PopFrontDrops(tail, rem - l.sizes[0]);
      } else if rem > 0 {
        CellsPushFront(Ptr(l.ptrs[0].buf, l.ptrs[0].off + rem), l.sizes[0] - rem, tail);
      }
    }
  }

  /** The addresses and the bytes `msgStripHdr` leaves. */
  lemma StripLeaves(l: Lists, len: nat, rest: Lists)
    requires SegmentsInBounds(l) && len < |Cells(l)|
    requires PopFront(l, len) == Defined(rest)
    ensures SegmentsInBounds(rest) && Cells(rest) == Cells(l)[len..]
    ensures InBounds(Cells(l)) && InBounds(Cells(rest)) && Load(Cells(rest)) == Load(Cells(l))[len..]
  {
    PopFrontDrops(l, len);
    CellsInBounds(l);
    LoadSlice(Cells(l), len, |Cells(l)|);
  }

  /** Stripping `a` and then `b` leaves the very same segments as stripping `a + b` at once. */
  lemma {:induction false} PopFrontComposes(l: Lists, a: nat, b: nat)
    requires l.Parallel() && a + b < |Cells(l)|
    ensures PopFront(l, a).Defined?
    ensures PopFront(PopFront(l, a).value, b) == PopFront(l, a + b)
    decreases |l.sizes|
  {
    PopFrontDrops(l, a);
    if a >= l.sizes[0] {
      PopFrontComposes(Lists(l.ptrs[1..], l.sizes[1..]), a - l.sizes[0], b);
    } else if a > 0 {
      var cut := PopFront(l, a).value;
      assert cut.ptrs[1..] == l.ptrs[1..] && cut.sizes[1..] == l.sizes[1..];
    }
  }

  /** What the loop of `msgSplit` and the step after it leave in the first and in the second message. */
  function PopBack(l: Lists, rem: nat, second: Lists): (r: Outcome<(Lists, Lists)>)
    requires l.Parallel() && second.Parallel()
    ensures r.Defined? ==> r.value.0.Parallel() && r.value.1.Parallel()
    decreases |l.sizes|
  {
    if l.sizes == [] then Undefined
    else
      var n := |l.sizes| - 1;
      var last := l.ptrs[n];
      if rem >= l.sizes[n] then
        PopBack(Lists(l.ptrs[..n], l.sizes[..n]), rem - l.sizes[n],
                Lists([last] + second.ptrs, [l.sizes[n]] + second.sizes))
      else if rem > 0 then
        Defined((Lists(l.ptrs, l.sizes[..n] + [l.sizes[n] - rem]),
                 Lists([Ptr(last.buf, last.off + (l.sizes[n] - rem))] + second.ptrs, [rem] + second.sizes)))
      else Defined((l, second))
  }

  ghost predicate Cuts(l: Lists, rem: nat, second: Lists, a: Lists, b: Lists)
    requires l.Parallel() && second.Parallel() && a.Parallel() && b.Parallel()
    requires rem <= |Cells(l)|
  {
    && Cells(a) == Cells(l)[..|Cells(l)| - rem]
    && Cells(b) == Cells(l)[|Cells(l)| - rem..] + Cells(second)
    && |a.sizes| + |b.sizes| <= |l.sizes| + |second.sizes| + 1
  }

  /** The split loop reads the back of an empty list exactly when it is asked to move everything;
      otherwise it cuts off precisely the last `rem` addresses and puts them before the second message. */
  lemma {:induction false} PopBackCuts(l: Lists, rem: nat, second: Lists)
    requires l.Parallel() && second.Parallel()
    ensures PopBack(l, rem, second).Defined? <==> rem < |Cells(l)|
    ensures rem < |Cells(l)| ==>
              Cuts(l, rem, second, PopBack(l, rem, second).value.0, PopBack(l, rem, second).value.1)
    decreases |l.sizes|
  {
    if l.sizes != [] {
      var n := |l.sizes| - 1;
      var (p, size) := (l.ptrs[n], l.sizes[n]);
      var init := Lists(l.ptrs[..n], l.sizes[..n]);
      LastApart(l.ptrs);
      LastApart(l.sizes);
      if rem >= size {
        PopBackCuts(init, rem - size, Lists([p] + second.ptrs, [size] + second.sizes));
        WholeCut(init, p, size, rem, second);
      } else {
        PartCut(init, p, size, rem, second);
      }
    }
  }

  ghost predicate BackCut(l: Lists, rem: nat, second: Lists)
    requires l.Parallel() && second.Parallel()
  {
    var r := PopBack(l, rem, second);
    && (r.Defined? <==> rem < |Cells(l)|)
    && (r.Defined? ==> Cuts(l, rem, second, r.value.0, r.value.1))
  }

  lemma WholeCut(init: Lists, p: Ptr, n: nat, rem: nat, second: Lists)
    requires init.Parallel() && second.Parallel() && n <= rem
    requires BackCut(init, rem - n, Lists([p] + second.ptrs, [n] + second.sizes))
    ensures BackCut(Lists(init.ptrs + [p], init.sizes + [n]), rem, second)
  {
    var l := Lists(init.ptrs + [p], init.sizes + [n]);
    var r := PopBack(l, rem, second);
    PopBackWhole(init, p, n, rem, second);
    CellsAppend(init, p, n);
    if r.Defined? {
      CutsExtend(init, p, n, rem, second, r.value.0, r.value.1);
    }
  }

  lemma PopBackWhole(init: Lists, p: Ptr, n: nat, rem: nat, second: Lists)
    requires init.Parallel() && second.Parallel() && n <= rem
    ensures PopBack(Lists(init.ptrs + [p], init.sizes + [n]), rem, second) ==
            PopBack(init, rem - n, Lists([p] + second.ptrs, [n] + second.sizes))
  {
    var l := Lists(init.ptrs + [p], init.sizes + [n]);
    assert l.ptrs[..|init.ptrs|] == init.ptrs && l.sizes[..|init.sizes|] == init.sizes;
  }

  lemma PartCut(init: Lists, p: Ptr, n: nat, rem: nat, second: Lists)
    requires init.Parallel() && second.Parallel() && rem < n
    ensures BackCut(Lists(init.ptrs + [p], init.sizes + [n]), rem, second)
  {
    PopBackPart(init, p, n, rem, second);
    if rem > 0 {
      CutsPartly(init, p, n, rem, second);
    } else {
      CellsAppend(init, p, n);
      CutsNothing(Lists(init.ptrs + [p], init.sizes + [n]), second);
    }
  }

  lemma PopBackPart(init: Lists, p: Ptr, n: nat, rem: nat, second: Lists)
    requires init.Parallel() && second.Parallel() && rem < n
    ensures var l := Lists(init.ptrs + [p], init.sizes + [n]);
            PopBack(l, rem, second) ==
            if rem == 0 then Defined((l, second))
            else Defined((Lists(init.ptrs + [p], init.sizes + [n - rem]),
                          Lists([Ptr(p.buf, p.off + (n - rem))] + second.ptrs, [rem] + second.sizes)))
  {
    assert (init.sizes + [n])[..|init.sizes|] == init.sizes;
  }

  lemma CutsNothing(l: Lists, second: Lists)
    requires l.Parallel() && second.Parallel()
    ensures Cuts(l, 0, second, l, second)
  {
    assert Cells(l)[..|Cells(l)|] == Cells(l);
    assert Cells(l)[|Cells(l)|..] + Cells(second) == Cells(second);
  }

  lemma CutsPartly(init: Lists, p: Ptr, n: nat, rem: nat, second: Lists)
    requires init.Parallel() && second.Parallel() && 0 < rem < n
    ensures var l := Lists(init.ptrs + [p], init.sizes + [n]);
            && rem < |Cells(l)|
            && Cuts(l, rem, second, Lists(init.ptrs + [p], init.sizes + [n - rem]),
                    Lists([Ptr(p.buf, p.off + (n - rem))] + second.ptrs, [rem] + second.sizes))
  {
    CellsAppend(init, p, n);
    CutAppended(init, p, n, rem);
    CellsPushFront(Ptr(p.buf, p.off + (n - rem)), rem, second);
  }

  lemma LastApart<T>(s: seq<T>)
    requires s != []
    ensures s == s[..|s| - 1] + [s[|s| - 1]]
  {
  }

  lemma CutsExtend(init: Lists, p: Ptr, n: nat, rem: nat, second: Lists, a: Lists, b: Lists)
    requires init.Parallel() && second.Parallel() && a.Parallel() && b.Parallel()
    requires n <= rem && rem - n <= |Cells(init)|
    requires Cuts(init, rem - n, Lists([p] + second.ptrs, [n] + second.sizes), a, b)
    ensures var l := Lists(init.ptrs + [p], init.sizes + [n]);
            rem <= |Cells(l)| && Cuts(l, rem, second, a, b)
  {
    CellsAppend(init, p, n);
    CellsPushFront(p, n, second);
    CutBefore(Cells(init), Range(p, n), Cells(second), |Cells(init)| - (rem - n));
  }

  lemma CutBefore<T>(init: seq<T>, last: seq<T>, more: seq<T>, m: nat)
    requires m <= |init|
    ensures (init + last)[..m] == init[..m] && (init + last)[m..] + more == init[m..] + (last + more)
  {
  }

  lemma PopBackInBounds(l: Lists, rem: nat, second: Lists)
    requires SegmentsInBounds(l) && SegmentsInBounds(second)
    requires PopBack(l, rem, second).Defined?
    ensures SegmentsInBounds(PopBack(l, rem, second).value.0) && SegmentsInBounds(PopBack(l, rem, second).value.1)
    decreases |l.sizes|
  {
    var n := |l.sizes| - 1;
    if rem >= l.sizes[n] {
      PopBackInBounds(Lists(l.ptrs[..n], l.sizes[..n]), rem - l.sizes[n],
                      Lists([l.ptrs[n]] + second.ptrs, [l.sizes[n]] + second.sizes));
    }
  }

  lemma CellsAppend(init: Lists, p: Ptr, n: nat)
    requires init.Parallel()
    ensures Cells(Lists(init.ptrs + [p], init.sizes + [n])) == Cells(init) + Range(p, n)
  {
    CellsConcat(init, Lists([p], [n]));
  }

  lemma CutAppended(init: Lists, p: Ptr, n: nat, rem: nat)
    requires init.Parallel() && rem <= n
    ensures var c := Cells(Lists(init.ptrs + [p], init.sizes + [n]));
            && rem <= |c|
            && Cells(Lists(init.ptrs + [p], init.sizes + [n - rem])) == c[..|c| - rem]
            && Range(Ptr(p.buf, p.off + (n - rem)), rem) == c[|c| - rem..]
  {
    CellsAppend(init, p, n);
    CellsAppend(init, p, n - rem);
    RangeSplit(p, n, n - rem);
    CutTail(Cells(init), Range(p, n - rem), Range(Ptr(p.buf, p.off + (n - rem)), rem));
  }

  lemma CutTail<T>(init: seq<T>, left: seq<T>, right: seq<T>)
    ensures var c := init + (left + right);
            c[..|c| - |right|] == init + left && c[|c| - |right|..] == right
  {
  }

  lemma RangeSplit(p: Ptr, n: nat, k: nat)
    requires k <= n
    ensures Range(p, n) == Range(p, k) + Range(Ptr(p.buf, p.off + k), n - k)
  {
  }

  lemma SlicesOfSlices<T>(s: seq<T>, k: nat, j: nat)
    requires k + j <= |s|
    ensures s[..k + j][..k] == s[..k] && s[..k + j][k..] == s[k..k + j]
    ensures s[k..][..j] == s[k..k + j] && s[k..][j..] == s[k + j..]
  {
  }

  /** Splitting off everything after position `k` into an empty message: the halves view disjoint,
      adjacent ranges, and at most one segment is cut in two. */
  function SplitAt(l: Lists, k: nat): (halves: (Lists, Lists))
    requires l.Parallel() && 0 < k <= |Cells(l)|
    ensures halves.0.Parallel() && halves.1.Parallel()
    ensures Cells(halves.0) == Cells(l)[..k] && Cells(halves.1) == Cells(l)[k..]
    ensures |halves.0.sizes| + |halves.1.sizes| <= |l.sizes| + 1
  {
    PopBackCuts(l, |Cells(l)| - k, Lists([], []));
    PopBack(l, |Cells(l)| - k, Lists([], [])).value
  }

  /** Splitting at `k` into an empty message and joining the halves again views the original addresses. */
  lemma SplitThenJoin(l: Lists, k: nat)
    requires l.Parallel() && 0 < k <= |Cells(l)|
    ensures var (a, b) := SplitAt(l, k);
            Cells(Lists(a.ptrs + b.ptrs, a.sizes + b.sizes)) == Cells(l)
  {
    var (a, b) := SplitAt(l, k);
    JoinHalves(l, k, a, b);
  }

  lemma JoinHalves(l: Lists, k: nat, a: Lists, b: Lists)
    requires l.Parallel() && a.Parallel() && b.Parallel() && k <= |Cells(l)|
    requires Cells(a) == Cells(l)[..k] && Cells(b) == Cells(l)[k..]
    ensures Cells(Lists(a.ptrs + b.ptrs, a.sizes + b.sizes)) == Cells(l)
  {
    CellsConcat(a, b);
  }

  /** Cutting at `k + j` and then the first part at `k` gives the same three pieces as cutting at `k`
      and then the second part at `j`. */
  lemma SplitsCommute(l: Lists, k: nat, j: nat)
    requires l.Parallel() && 0 < k && 0 < j && k + j <= |Cells(l)|
    ensures var (ab, c) := SplitAt(l, k + j);
            var (a', bc) := SplitAt(l, k);
            && Cells(SplitAt(ab, k).0) == Cells(a') == Cells(l)[..k]
            && Cells(SplitAt(ab, k).1) == Cells(SplitAt(bc, j).0) == Cells(l)[k..k + j]
            && Cells(c) == Cells(SplitAt(bc, j).1) == Cells(l)[k + j..]
  {
    var (ab, c) := SplitAt(l, k + j);
    var (a', bc) := SplitAt(l, k);
    SlicesOfSlices(Cells(l), k, j);
    SplitHalves(ab, k);
    SplitHalves(bc, j);
  }

  lemma SplitHalves(l: Lists, k: nat)
    requires l.Parallel() && 0 < k <= |Cells(l)|
    ensures Cells(SplitAt(l, k).0) == Cells(l)[..k] && Cells(SplitAt(l, k).1) == Cells(l)[k..]
  {
  }

  lemma HalvesInBounds(l: Lists, rem: nat, second: Lists, a: Lists, b: Lists)
    requires SegmentsInBounds(l) && SegmentsInBounds(second) && PopBack(l, rem, second) == Defined((a, b))
    ensures SegmentsInBounds(a) && SegmentsInBounds(b)
  {
    PopBackInBounds(l, rem, second);
  }

  lemma CutsAt(l: Lists, len: nat, second: Lists, a: Lists, b: Lists)
    requires l.Parallel() && second.Parallel() && a.Parallel() && b.Parallel() && 0 < len <= |Cells(l)|
    requires PopBack(l, |Cells(l)| - len, second) == Defined((a, b))
    ensures Cells(a) == Cells(l)[..len] && Cells(b) == Cells(l)[len..] + Cells(second)
  {
    var rem := |Cells(l)| - len;
    PopBackCuts(l, rem, second);
    assert Cuts(l, rem, second, a, b) && |Cells(l)| - rem == len;
  }

  /** The addresses `msgSplit` leaves in the two messages. */
  lemma SplitViews(l: Lists, len: nat, second: Lists, a: Lists, b: Lists)
    requires SegmentsInBounds(l) && SegmentsInBounds(second)
    requires 0 < len <= |Cells(l)|
    requires PopBack(l, |Cells(l)| - len, second) == Defined((a, b))
    ensures SegmentsInBounds(a) && SegmentsInBounds(b)
    ensures Cells(a) == Cells(l)[..len] && Cells(b) == Cells(l)[len..] + Cells(second)
    ensures InBounds(Cells(l)) && InBounds(Cells(a)) && InBounds(Cells(b))
  {
    HalvesInBounds(l, |Cells(l)| - len, second, a, b);
    CutsAt(l, len, second, a, b);
    CellsInBounds(l);
    CellsInBounds(a);
    CellsInBounds(b);
  }

  class Message {
    var msglen: nat
    var msgList: seq<Ptr>
    var sizeList: seq<nat>

    ghost function Segments(): Lists reads this { Lists(msgList, sizeList) }

    ghost predicate Valid()
      reads this
    {
      && SegmentsInBounds(Segments())
      && msglen == |Cells(Segments())|
    }

    /** The addresses this message views. */
    ghost function Views(): (c: seq<Cell>)
      requires Valid()
      reads this
      ensures InBounds(c) && |c| == msglen && BuffersOf(c) <= ListedBuffers(Segments())
    {
      CellsInBounds(Segments());
      CellsListed(Segments());
      Cells(Segments())
    }

    ghost function Contents(): (s: seq<byte>)
      requires Valid()
      reads this, ListedBuffers(Segments())
      ensures |s| == msglen
    {
      Load(Views())
    }

    constructor Empty()
      ensures Valid() && Segments() == Lists([], []) && Contents() == []
    {
      msglen := 0;
      msgList := [];
      sizeList := [];
    }

    constructor (msg: Ptr, len: nat)
      requires msg.off + len <= msg.buf.Length
      ensures Valid() && Segments() == Lists([msg], [len])
      ensures Views() == Range(msg, len)
      ensures Contents() == msg.buf[msg.off..msg.off + len]
    {
      msglen := len;
      msgList := [msg];
      sizeList := [len];
    }

    method MsgAddHdr(hdr: Ptr, length: nat)
      requires Valid()
      requires hdr.off + length <= hdr.buf.Length
      modifies this
      ensures Valid()
      ensures Segments() == Lists([hdr] + old(msgList), [length] + old(sizeList))
      ensures Views() == Range(hdr, length) + old(Views())
      ensures Contents() == hdr.buf[hdr.off..hdr.off + length] + old(Contents())
    {
      CellsPushFront(hdr, length, Segments());
      msgList := [hdr] + msgList;
      sizeList := [length] + sizeList;
      msglen := msglen + length;
      LoadRange(hdr, length);
      LoadConcat(Range(hdr, length), old(Views()));
    }

    /** A negative `len` is converted to a huge `size_t`, so it takes the NULL exit as well. */
    method MsgStripHdr(len: int) returns (stripped: array?<byte>)
      requires Valid()
      requires len == msglen ==> len == 0
      modifies this
      ensures Valid()
      ensures stripped == null <==> len <= 0 || len > old(msglen)
      ensures stripped == null ==> Segments() == old(Segments()) && Contents() == old(Contents())
      ensures stripped != null ==>
                && fresh(stripped) && stripped.Length == len + 1
                && stripped[..len] == old(Contents())[..len]
                && PopFront(old(Segments()), len) == Defined(Segments())
                && Views() == old(Views())[len..]
                && Contents() == old(Contents())[len..]
    {
      if len < 0 || msglen < len || len == 0 { return null; }
      ghost var cells := Views();
      stripped := new byte[len + 1];
      assert PopFront(Segments(), len).Defined? by { PopFrontDrops(Segments(), len); }
      StripSegments(len, stripped);
      msglen := msglen - len;
      StripLeaves(old(Segments()), len, Segments());
    }

    /** The loop of `msgStripHdr` and the partial segment after it. */
    method StripSegments(len: nat, stripped: array<byte>)
      requires Valid() && len < msglen && len <= stripped.Length
      requires PopFront(Segments(), len).Defined?
      requires stripped !in BuffersOf(Views())
      modifies `msgList, `sizeList, stripped
      ensures PopFront(old(Segments()), len) == Defined(Segments())
      ensures stripped[..len] == old(Contents())[..len]
      ensures Load(old(Views())) == old(Contents())
    {
      ghost var cells, data := Views(), Contents();
      var rem := StripWhole(len, stripped, cells, data);
      if rem > 0 {
        CutSegment(rem, stripped, len - rem, cells, data);
      }
    }

    /** The partial segment: copies its first bytes out and moves its pointer past them. */
    method CutSegment(rem: nat, stripped: array<byte>, at: nat, ghost cells: seq<Cell>, ghost data: seq<byte>)
      requires SegmentsInBounds(Segments()) && sizeList != [] && 0 < rem < sizeList[0]
      requires at + rem <= stripped.Length
      requires InBounds(cells) && Load(cells) == data && stripped !in BuffersOf(cells)
      requires at <= |cells| && Cells(Segments()) == cells[at..]
      requires stripped[..at] == data[..at]
      modifies `msgList, `sizeList, stripped
      ensures PopFront(old(Segments()), rem) == Defined(Segments())
      ensures at + rem <= |cells| && stripped[..at + rem] == data[..at + rem]
      ensures Load(cells) == data
    {
      CopyOut(msgList[0], rem, stripped, at, Segments(), cells, data);
      msgList := [Ptr(msgList[0].buf, msgList[0].off + rem)] + msgList[1..];
      sizeList := [sizeList[0] - rem] + sizeList[1..];
    }

    /** The loop of `msgStripHdr`: copies and drops whole segments, up to the one that is cut. */
    method StripWhole(len: nat, stripped: array<byte>, ghost cells: seq<Cell>, ghost data: seq<byte>) returns (rem: nat)
      requires SegmentsInBounds(Segments()) && len <= stripped.Length
      requires InBounds(cells) && cells == Cells(Segments()) && Load(cells) == data
      requires PopFront(Segments(), len).Defined?
      requires stripped !in BuffersOf(cells)
      modifies `msgList, `sizeList, stripped
      ensures rem <= len && SegmentsInBounds(Segments()) && sizeList != [] && rem < sizeList[0]
      ensures PopFront(Segments(), rem) == PopFront(old(Segments()), len)
      ensures len - rem <= |cells| && Cells(Segments()) == cells[len - rem..]
      ensures stripped[..len - rem] == data[..len - rem]
      ensures Load(cells) == data
    {
      ghost var at, rest := 0, Segments();
      ghost var goal := PopFront(rest, len);
      rem := len;
      while rem >= sizeList[0]
        invariant rest == Lists(msgList, sizeList) && SegmentsInBounds(rest)
        invariant 0 <= at <= |cells| && at + rem == len && PopFront(rest, rem) == goal
        invariant Cells(rest) == cells[at..]
        invariant stripped[..at] == data[..at]
        invariant Load(cells) == data
        decreases |sizeList|
      {
        var size := sizeList[0];
        rem := rem - size;
        TakeSegment(stripped, len - rem - size, cells, data);
        at, rest := at + size, Lists(msgList, sizeList);
      }
    }

    /** One round of that loop: copies the front segment out and drops it. */
    method TakeSegment(stripped: array<byte>, at: nat, ghost cells: seq<Cell>, ghost data: seq<byte>)
      requires SegmentsInBounds(Segments()) && sizeList != []
      requires at + sizeList[0] <= stripped.Length
      requires InBounds(cells) && Load(cells) == data && stripped !in BuffersOf(cells)
      requires at <= |cells| && Cells(Segments()) == cells[at..]
      requires stripped[..at] == data[..at]
      modifies `msgList, `sizeList, stripped
      ensures msgList == old(msgList)[1..] && sizeList == old(sizeList)[1..] && SegmentsInBounds(Segments())
      ensures at + old(sizeList)[0] <= |cells| && Cells(Segments()) == cells[at + old(sizeList)[0]..]
      ensures Load(cells) == data
      ensures stripped[..at + old(sizeList)[0]] == data[..at + old(sizeList)[0]]
    {
      CopyOut(msgList[0], sizeList[0], stripped, at, Segments(), cells, data);
      CellsTail(Segments());
      msgList := msgList[1..];
      sizeList := sizeList[1..];
    }

    /** The inner copying loops of `msgStripHdr` and `msgFlat`: `n` bytes of the front segment, to position `at`. */
    static method CopyOut(from: Ptr, n: nat, to: array<byte>, at: nat,
                          ghost rest: Lists, ghost cells: seq<Cell>, ghost data: seq<byte>)
      requires SegmentsInBounds(rest) && rest.sizes != [] && n <= rest.sizes[0] && from == rest.ptrs[0]
      requires at + n <= to.Length && at <= |cells|
      requires InBounds(cells) && to !in BuffersOf(cells)
      requires Load(cells) == data && Cells(rest) == cells[at..]
      requires to[..at] == data[..at]
      modifies to
      ensures at + n <= |cells|
      ensures Load(cells) == data
      ensures to[..at + n] == data[..at + n]
      ensures forall k :: at + n <= k < to.Length ==> to[k] == old(to[k])
    {
      SegmentBytes(cells, rest, at, n);
      if n > 0 {
        assert Cells(rest)[0] == cells[at];
        assert cells[at].buf in BuffersOf(cells);
      }
      ghost var bytes := from.buf[from.off..from.off + n];
      for i := 0 to n
        invariant bytes == from.buf[from.off..from.off + n]
        invariant forall k :: 0 <= k < at + i ==> to[k] == data[k]
        invariant forall k :: at + i <= k < to.Length ==> to[k] == old(to[k])
        invariant Load(cells) == data
      {
        assert bytes[i] == data[at..at + n][i];
        to[at + i] := from.buf[from.off + i];
      }
    }

    /** `len == 0` is outside the domain: the loop then pops every segment and reads `back()` of an
        empty list (`PopBackCuts`). The code assigns the second length rather than adding to it, so a
        second message that views anything beforehand ends up with a wrong length. */
    method MsgSplit(second: Message, len: nat) returns (ok: int)
      requires Valid() && second.Valid() && second != this
      requires 0 < len
      modifies this, second
      ensures Valid()
      ensures ok == if len > old(msglen) then 0 else 1
      ensures ok == 0 ==> Segments() == old(Segments()) && Contents() == old(Contents())
      ensures ok == 0 ==> second.Valid() && second.Segments() == old(second.Segments())
                          && second.Contents() == old(second.Contents())
      ensures ok == 1 ==>
                && PopBack(old(Segments()), old(msglen) - len, old(second.Segments()))
                   == Defined((Segments(), second.Segments()))
                && Views() == old(Views())[..len]
                && Contents() == old(Contents())[..len]
                && SegmentsInBounds(second.Segments())
                && Cells(second.Segments()) == old(Views())[len..] + old(second.Views())
                && second.msglen == old(msglen) - len
      ensures ok == 1 ==> (second.Valid() <==> old(second.msglen) == 0)
      ensures ok == 1 && old(second.msglen) == 0 ==>
                second.Views() == old(Views())[len..] && second.Contents() == old(Contents())[len..]
    {
      if len > msglen { return 0; }
      ghost var cells := Views();
      SplitOff(second, len);
      LoadUnchanged(cells);
      LoadSlice(cells, 0, len);
      LoadSlice(cells, len, |cells|);
      return 1;
    }

    /** The rest of `msgSplit`, in terms of addresses. */
    method SplitOff(second: Message, len: nat)
      requires Valid() && second.Valid() && second != this
      requires 0 < len <= msglen
      modifies this, second
      ensures PopBack(old(Segments()), old(msglen) - len, old(second.Segments()))
              == Defined((Segments(), second.Segments()))
      ensures Valid() && msglen == len && Views() == old(Views())[..len]
      ensures SegmentsInBounds(second.Segments()) && second.msglen == old(msglen) - len
      ensures Cells(second.Segments()) == old(Views())[len..] + old(second.Views())
    {
      var length := msglen;
      msglen := len;
      var rem := length - len;
      assert PopBack(Segments(), rem, second.Segments()).Defined? by {
        PopBackCuts(Segments(), rem, second.Segments());
      }
      MoveTail(second, rem);
      second.msglen := length - len;
      SplitViews(old(Segments()), len, old(second.Segments()), Segments(), second.Segments());
    }

    /** The loop of `msgSplit` and the partial segment after it. */
    method MoveTail(second: Message, toMove: nat)
      requires second != this && Segments().Parallel() && second.Segments().Parallel()
      requires PopBack(Segments(), toMove, second.Segments()).Defined?
      modifies `msgList, `sizeList, second`msgList, second`sizeList
      ensures PopBack(old(Segments()), toMove, old(second.Segments())) == Defined((Segments(), second.Segments()))
    {
      var rem := toMove;
      ghost var first, moved := Segments(), second.Segments();
      ghost var goal := PopBack(first, rem, moved);
      while rem >= sizeList[|sizeList| - 1]
        invariant first == Lists(msgList, sizeList) && first.Parallel()
        invariant moved == Lists(second.msgList, second.sizeList) && moved.Parallel()
        invariant 0 <= rem && PopBack(first, rem, moved) == goal
        decreases |sizeList|
      {
        var n := |sizeList| - 1;
        second.msgList := [msgList[n]] + second.msgList;
        msgList := msgList[..n];
        second.sizeList := [sizeList[n]] + second.sizeList;
        rem := rem - sizeList[n];
        sizeList := sizeList[..n];
        first, moved := Lists(msgList, sizeList), Lists(second.msgList, second.sizeList);
      }
      if rem > 0 {
        var n := |sizeList| - 1;
        var lastStr, lastLen := msgList[n], sizeList[n];
        second.msgList := [Ptr(lastStr.buf, lastStr.off + (lastLen - rem))] + second.msgList;
        sizeList := sizeList[..n] + [lastLen - rem];
        second.sizeList := [rem] + second.sizeList;
      }
    }

    method MsgJoin(second: Message)
      requires Valid() && second.Valid() && second != this
      modifies this
      ensures Valid()
      ensures Segments() == Lists(old(msgList) + second.msgList, old(sizeList) + second.sizeList)
      ensures Views() == old(Views()) + second.Views()
      ensures Contents() == old(Contents()) + second.Contents()
    {
      ghost var cells, more := Views(), second.Views();
      CellsConcat(Segments(), second.Segments());
      AppendSegments(second);
      msglen := msglen + second.msglen;
      assert Cells(Segments()) == cells + more && Cells(second.Segments()) == more;
      LoadConcat(cells, more);
      LoadUnchanged(cells);
    }

    /** The loop of `msgJoin`. */
    method AppendSegments(second: Message)
      requires second != this && second.Segments().Parallel()
      modifies `msgList, `sizeList
      ensures Segments() == Lists(old(msgList) + second.msgList, old(sizeList) + second.sizeList)
    {
      for i := 0 to |second.msgList|
        invariant msgList == old(msgList) + second.msgList[..i]
        invariant sizeList == old(sizeList) + second.sizeList[..i]
      {
        msgList := msgList + [second.msgList[i]];
        sizeList := sizeList + [second.sizeList[i]];
      }
      assert second.msgList[..|second.msgList|] == second.msgList;
      assert second.sizeList[..|second.msgList|] == second.sizeList;
    }

    method MsgLen() returns (n: nat)
      requires Valid()
      ensures n == |Contents()|
    {
      return msglen;
    }

    method MsgFlat(buffer: array<byte>)
      requires Valid()
      requires msglen <= buffer.Length
      requires buffer !in BuffersOf(Views())
      modifies buffer
      ensures buffer[..msglen] == Contents() == old(Contents())
      ensures buffer[msglen..] == old(buffer[msglen..])
    {
      var j := 0;
      ghost var cells, data := Views(), Contents();
      assert msgList[0..] == msgList && sizeList[0..] == sizeList;
      for k := 0 to |msgList|
        invariant 0 <= j <= msglen == |cells|
        invariant Cells(Lists(msgList[k..], sizeList[k..])) == cells[j..]
        invariant buffer[..j] == data[..j]
        invariant Load(cells) == data
        invariant forall i :: j <= i < buffer.Length ==> buffer[i] == old(buffer[i])
      {
        CellsFrom(Segments(), k, cells, j);
        CopyOut(msgList[k], sizeList[k], buffer, j, Lists(msgList[k..], sizeList[k..]), cells, data);
        j := j + sizeList[k];
      }
      LoadUnchanged(cells);
    }
  }
}
