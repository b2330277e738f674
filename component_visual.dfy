/**
 * gs.Component_Visual: the origin of a game object accumulated up its parent
 * chain, and the destination rectangle recomputed from a layout rectangle.
 */
module ComponentVisual {
  import opened Common

  /** A rectangle (gs.Rect). */
  datatype Rect = Rect(x: int, y: int, width: int, height: int)

  /**
   * A layout rectangle: each entry, when present, computes one field of the
   * destination rectangle from a dimension of the parent's rectangle.
   */
  datatype LayoutRect = LayoutRect(
    x: Option<int -> int>,
    y: Option<int -> int>,
    width: Option<int -> int>,
    height: Option<int -> int>)

  /** The parts of a game object that the visual component reads and writes. */
  class GameObject {
    var parent: GameObject?
    var dstRect: Option<Rect>
    var offset: Point
    var origin: Point
    var layoutRect: Option<LayoutRect>

    constructor (parent: GameObject?, dstRect: Option<Rect>, offset: Point, layoutRect: Option<LayoutRect>)
      ensures this.parent == parent && this.dstRect == dstRect && this.offset == offset
      ensures this.layoutRect == layoutRect && origin == Point(0, 0)
    {
      this.parent := parent;
      this.dstRect := dstRect;
      this.offset := offset;
      this.layoutRect := layoutRect;
      origin := Point(0, 0);
    }
  }

  /** What `updateOrigin` reads of one ancestor. */
  datatype Frame = Frame(dstRect: Option<Rect>, offset: Point)

  /** The objects of `ps` as a set, for frames. */
  function Nodes(ps: seq<GameObject>): set<GameObject> {
    set i | 0 <= i < |ps| :: ps[i]
  }

  /**
   * `ps` is the whole parent chain of `o`: its parent, the parent's parent,
   * and so on up to an object without a parent.
   */
  ghost predicate ParentChain(o: GameObject, ps: seq<GameObject>)
    reads o, Nodes(ps)
  {
    (ps == [] ==> o.parent == null) &&
    (ps != [] ==> o.parent == ps[0] && ps[|ps| - 1].parent == null) &&
    forall i :: 0 <= i < |ps| - 1 ==> ps[i].parent == ps[i + 1]
  }

  /** The frames of the objects in `ps`, in order. */
  function Frames(ps: seq<GameObject>): (fs: seq<Frame>)
    reads Nodes(ps)
    ensures |fs| == |ps|
    ensures forall i :: 0 <= i < |ps| ==> fs[i] == Frame(ps[i].dstRect, ps[i].offset)
  {
    seq(|ps|, i reads Nodes(ps) requires 0 <= i < |ps| => Frame(ps[i].dstRect, ps[i].offset))
  }

  /**
   * The offset the ancestors contribute: each ancestor's dstRect position plus
   * its own offset, summed from the parent up to, and not including, the first
   * ancestor without a dstRect.
   */
  function ChainOffset(fs: seq<Frame>): Point {
    if fs == [] || fs[0].dstRect.None? then Point(0, 0)
    else
      var rest := ChainOffset(fs[1..]);
      Point(fs[0].dstRect.value.x + fs[0].offset.x + rest.x,
            fs[0].dstRect.value.y + fs[0].offset.y + rest.y)
  }

  /** The origin of an object with offset `own` under the ancestors `fs`. */
  function Origin(own: Point, fs: seq<Frame>): Point {
    var c := ChainOffset(fs);
    Point(c.x + own.x, c.y + own.y)
  }

  /** The index of the first ancestor without a dstRect, or the length of the chain. */
  function FirstWithout(fs: seq<Frame>): (k: nat)
    ensures k <= |fs|
    ensures forall i :: 0 <= i < k ==> fs[i].dstRect.Some?
    ensures k < |fs| ==> fs[k].dstRect.None?
  {
    if fs == [] || fs[0].dstRect.None? then 0 else 1 + FirstWithout(fs[1..])
  }

  /** Sum of the position-plus-offset of every frame; every frame must have a dstRect. */
  function SumAll(fs: seq<Frame>): Point
    requires forall i :: 0 <= i < |fs| ==> fs[i].dstRect.Some?
  {
    if fs == [] then Point(0, 0)
    else
      var last := fs[|fs| - 1];
      var init := SumAll(fs[..|fs| - 1]);
      Point(init.x + last.dstRect.value.x + last.offset.x, init.y + last.dstRect.value.y + last.offset.y)
  }

  /** SumAll extended by one frame at the front. */
  lemma {:induction false} SumAllCons(f: Frame, fs: seq<Frame>)
    requires f.dstRect.Some?
    requires forall i :: 0 <= i < |fs| ==> fs[i].dstRect.Some?
    ensures SumAll([f] + fs) ==
      Point(f.dstRect.value.x + f.offset.x + SumAll(fs).x, f.dstRect.value.y + f.offset.y + SumAll(fs).y)
  {
    if fs != [] {
      assert ([f] + fs)[..|fs|] == [f] + fs[..|fs| - 1];
      SumAllCons(f, fs[..|fs| - 1]);
    }
  }

  /**
   * The accumulated offset is the plain sum over the ancestors below the first
   * one without a dstRect: ancestors from that one upward contribute nothing.
   */
  lemma {:induction false} ChainOffsetIsPrefixSum(fs: seq<Frame>)
    ensures ChainOffset(fs) == SumAll(fs[..FirstWithout(fs)])
  {
    if fs == [] || fs[0].dstRect.None? {
    } else {
      ChainOffsetIsPrefixSum(fs[1..]);
      var k := FirstWithout(fs);
      assert fs[..k] == [fs[0]] + fs[1..][..k - 1];
      SumAllCons(fs[0], fs[1..][..k - 1]);
    }
  }

  /** Ancestors above the first one without a dstRect never change the origin. */
  lemma {:induction false} ChainOffsetStopsAtMissingRect(fs: seq<Frame>, k: nat, more: seq<Frame>)
    requires k < |fs| && fs[k].dstRect.None?
    ensures ChainOffset(fs) == ChainOffset(fs[..k + 1] + more)
  {
    if fs[0].dstRect.Some? {
      assert (fs[..k + 1] + more)[1..] == fs[1..][..k] + more;
      ChainOffsetStopsAtMissingRect(fs[1..], k - 1, more);
    }
  }

  /** The parent chain of an object never leads back to the object itself. */
  lemma NotInOwnChain(o: GameObject, ps: seq<GameObject>)
    requires ParentChain(o, ps)
    ensures o !in Nodes(ps)
  {
    if i :| 0 <= i < |ps| && ps[i] == o {
      assert i < |ps| - 1;
      assert ps[i + 1] == ps[0];
      var n := |ps| - (i + 1);
      ChainRepeats(ps, i + 1, n);
      assert false;
    }
  }

  /** If the chain revisits its first object at index `d`, it repeats with period `d`. */
  lemma {:induction false} ChainRepeats(ps: seq<GameObject>, d: nat, m: nat)
    requires 0 < d < |ps| && ps[d] == ps[0] && m <= |ps| - d
    requires forall i :: 0 <= i < |ps| - 1 ==> ps[i].parent == ps[i + 1]
    ensures forall j :: 0 <= j < m ==> ps[d + j] == ps[j]
    ensures m == |ps| - d ==> ps[|ps| - 1] == ps[|ps| - 1 - d] && ps[|ps| - 1 - d].parent == ps[|ps| - d]
  {
    if m > 0 {
      ChainRepeats(ps, d, m - 1);
      if m > 1 {
        assert ps[d + m - 2].parent == ps[d + m - 1] && ps[m - 2].parent == ps[m - 1];
      }
    }
  }

  /** With no parent the origin is the object's own offset. */
  lemma OriginWithoutParent(own: Point)
    ensures Origin(own, []) == own
  {
  }

  /**
   * `updateOrigin`: walks the parent chain while the current ancestor has a
   * dstRect, then adds the object's own offset. Only `o.origin` is written.
   */
  method UpdateOrigin(o: GameObject, ghost ps: seq<GameObject>)
    requires ParentChain(o, ps)
    modifies o`origin
    ensures o.origin == Origin(o.offset, Frames(ps))
  {
    NotInOwnChain(o, ps);
    var ox, oy := 0, 0;
    ghost var k := 0;
    if o.parent != null {
      var p := o.parent;
      k := 0;
      while p != null && p.dstRect != None
        invariant 0 <= k <= |ps|
        invariant p == if k < |ps| then ps[k] else null
        invariant forall i :: 0 <= i < k ==> ps[i].dstRect.Some?
        invariant ChainOffset(Frames(ps)) ==
          Point(ox + ChainOffset(Frames(ps)[k..]).x, oy + ChainOffset(Frames(ps)[k..]).y)
        decreases |ps| - k
      {
        assert Frames(ps)[k..][1..] == Frames(ps)[k + 1..];
        ox := ox + p.dstRect.value.x + p.offset.x;
        oy := oy + p.dstRect.value.y + p.offset.y;
        p := p.parent;
        k := k + 1;
      }
      assert Frames(ps)[k..] == [] || Frames(ps)[k..][0].dstRect.None?;
    }
    ox := ox + o.offset.x;
    oy := oy + o.offset.y;
    o.origin := Point(ox, oy);
  }

  /** The destination rectangle after applying the layout rectangle `lr` inside `parent`. */
  function LaidOut(dst: Rect, lr: LayoutRect, parent: Rect): Rect {
    Rect(
      if lr.x.Some? then lr.x.value(parent.width) else dst.x,
      if lr.y.Some? then lr.y.value(parent.height) else dst.y,
      if lr.width.Some? then lr.width.value(parent.width) else dst.width,
      if lr.height.Some? then lr.height.value(parent.height) else dst.height)
  }

  /** x and width depend only on the parent's width; y and height only on its height. */
  lemma LaidOutAxes(dst: Rect, lr: LayoutRect, p1: Rect, p2: Rect)
    ensures p1.width == p2.width ==>
      LaidOut(dst, lr, p1).x == LaidOut(dst, lr, p2).x && LaidOut(dst, lr, p1).width == LaidOut(dst, lr, p2).width
    ensures p1.height == p2.height ==>
      LaidOut(dst, lr, p1).y == LaidOut(dst, lr, p2).y && LaidOut(dst, lr, p1).height == LaidOut(dst, lr, p2).height
  {
  }

  /** A layout rectangle without entries leaves the destination rectangle as it is. */
  lemma LaidOutEmpty(dst: Rect, parent: Rect)
    ensures LaidOut(dst, LayoutRect(None, None, None, None), parent) == dst
  {
  }

  /** Laying out twice in the same parent is the same as laying out once. */
  lemma LaidOutIdempotent(dst: Rect, lr: LayoutRect, parent: Rect)
    ensures LaidOut(LaidOut(dst, lr, parent), lr, parent) == LaidOut(dst, lr, parent)
  {
  }

  /** The layout rectangle has at least one entry, so `update` writes into the dstRect. */
  predicate HasEntry(lr: LayoutRect) {
    lr.x.Some? || lr.y.Some? || lr.width.Some? || lr.height.Some?
  }

  /**
   * `update` (the part after the base component's update): recomputes the
   * origin, then, when the object has a layout rectangle and its parent a
   * dstRect, rewrites the present entries of the object's dstRect. The source
   * writes into the object's dstRect only for a present entry, so it needs
   * one exactly then.
   */
  method Update(o: GameObject, ghost ps: seq<GameObject>)
    requires ParentChain(o, ps)
    requires o.layoutRect.Some? && HasEntry(o.layoutRect.value) && o.parent != null && o.parent.dstRect.Some? ==>
      o.dstRect.Some?
    modifies o`origin, o`dstRect
    ensures o.origin == Origin(o.offset, Frames(ps))
    ensures o.layoutRect.Some? && o.parent != null && o.parent.dstRect.Some? && old(o.dstRect).Some? ==>
      o.dstRect == Some(LaidOut(old(o.dstRect.value), o.layoutRect.value, o.parent.dstRect.value))
    ensures !(o.layoutRect.Some? && HasEntry(o.layoutRect.value) && o.parent != null && o.parent.dstRect.Some?) ==>
      o.dstRect == old(o.dstRect)
  {
    NotInOwnChain(o, ps);
    UpdateOrigin(o, ps);
    if o.layoutRect.Some? && HasEntry(o.layoutRect.value) && o.parent != null && o.parent.dstRect.Some? {
      var lr := o.layoutRect.value;
      var pr := o.parent.dstRect.value;
      var r := o.dstRect.value;
      if lr.x.Some? {
        r := r.(x := lr.x.value(pr.width));
      }
      if lr.y.Some? {
        r := r.(y := lr.y.value(pr.height));
      }
      if lr.width.Some? {
        r := r.(width := lr.width.value(pr.width));
      }
      if lr.height.Some? {
        r := r.(height := lr.height.value(pr.height));
      }
      o.dstRect := Some(r);
    }
  }
}
