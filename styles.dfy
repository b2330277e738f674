/**
 * ui.Style and ui.Space: the styles a UI object carries and the cascade
 * `apply` / `revert` maintain over the object's `activeStyles` stack.
 *
 * A style is a value here: `apply` and `revert` never change it, and
 * `setupStyles` gives every style its own id, so two styles are the same
 * exactly when they are equal.
 */
module Styles {
  import opened Common

  /*** ui.Space ***/

  /** The four sides of a ui.Space; a side read from a too-short array is `undefined` (None). */
  datatype Insets = Insets(left: Option<int>, top: Option<int>, right: Option<int>, bottom: Option<int>)

  /** Element `i` of a JavaScript array, `undefined` past its end. */
  function Element(a: seq<int>, i: nat): (v: Option<int>)
    ensures v.Some? <==> i < |a|
    ensures i < |a| ==> v.value == a[i]
  {
    if i < |a| then Some(a[i]) else None
  }

  /** `Space.fromArray`: the sides taken from the first four elements, in the order left, top, right, bottom. */
  function ArrayInsets(a: seq<int>): Insets {
    Insets(Element(a, 0), Element(a, 1), Element(a, 2), Element(a, 3))
  }

  /** The four sides as an array; defined when every side is present. */
  function InsetsArray(i: Insets): (a: seq<int>)
    requires i.left.Some? && i.top.Some? && i.right.Some? && i.bottom.Some?
    ensures |a| == 4
  {
    [i.left.value, i.top.value, i.right.value, i.bottom.value]
  }

  /** `fromArray` reads exactly the first four elements: an array of four gives itself back. */
  lemma ArrayInsetsRoundTrip(a: seq<int>)
    requires |a| >= 4
    ensures var i := ArrayInsets(a);
      i.left.Some? && i.top.Some? && i.right.Some? && i.bottom.Some? && InsetsArray(i) == a[..4]
  {
  }

  /** Conversely, a space with four sides survives the trip through an array. */
  lemma InsetsArrayRoundTrip(i: Insets)
    requires i.left.Some? && i.top.Some? && i.right.Some? && i.bottom.Some?
    ensures ArrayInsets(InsetsArray(i)) == i
  {
  }

  /** A short array leaves the missing sides undefined. */
  lemma ShortArrayUndefined(a: seq<int>)
    requires |a| < 4
    ensures ArrayInsets(a).bottom.None?
    ensures |a| < 3 ==> ArrayInsets(a).right.None?
  {
  }

  /** ui.Space: a mutable left/top/right/bottom record. */
  class Space {
    var left: Option<int>
    var top: Option<int>
    var right: Option<int>
    var bottom: Option<int>

    /** The current sides as a value. */
    function Value(): Insets
      reads this
    {
      Insets(left, top, right, bottom)
    }

    constructor(left: Option<int>, top: Option<int>, right: Option<int>, bottom: Option<int>)
      ensures Value() == Insets(left, top, right, bottom)
    {
      this.left := left;
      this.top := top;
      this.right := right;
      this.bottom := bottom;
    }

    /** `set`: overwrites all four sides. */
    method Set(left: Option<int>, top: Option<int>, right: Option<int>, bottom: Option<int>)
      modifies this
      ensures Value() == Insets(left, top, right, bottom)
    {
      this.left := left;
      this.top := top;
      this.right := right;
      this.bottom := bottom;
    }

    /** `setFromObject`: copies the sides of `space`, which itself is left unchanged. */
    method SetFromObject(space: Space)
      modifies this
      ensures Value() == old(space.Value())
      ensures space != this ==> space.Value() == old(space.Value())
    {
      left := space.left;
      top := space.top;
      right := space.right;
      bottom := space.bottom;
    }

    /** `fromArray`: a new space holding the first four elements of `a`. */
    static method FromArray(a: seq<int>) returns (space: Space)
      ensures fresh(space)
      ensures space.Value() == ArrayInsets(a)
    {
      space := new Space(Element(a, 0), Element(a, 1), Element(a, 2), Element(a, 3));
    }
  }

  /*** Tables of ui.UIManager ***/

  /** `UIManager.alignments`: alignment names (and their digit spellings) to 0, 1 or 2; None for other names. */
  function Alignment(name: string): (a: Option<int>)
    ensures a.Some? ==> 0 <= a.value <= 2
  {
    match name
    case "left" => Some(0)
    case "top" => Some(0)
    case "center" => Some(1)
    case "bottom" => Some(2)
    case "right" => Some(2)
    case "0" => Some(0)
    case "1" => Some(1)
    case "2" => Some(2)
    case _ => None
  }

  /** `UIManager.selectors`: selector names to 0..4; None for other names. */
  function Selector(name: string): (n: Option<int>)
    ensures n.Some? ==> 0 <= n.value <= 4
    ensures n == Some(0) <==> name == "normal"
  {
    match name
    case "normal" => Some(0)
    case "hover" => Some(1)
    case "selected" => Some(2)
    case "enabled" => Some(3)
    case "focused" => Some(4)
    case _ => None
  }

  /** Every alignment has a digit spelling that names the same value. */
  lemma AlignmentDigits(name: string)
    requires Alignment(name).Some?
    ensures Alignment([(48 + Alignment(name).value) as char]) == Alignment(name)
  {
  }

  /** The five selectors are told apart: no two names share a value. */
  lemma SelectorsDistinct(a: string, b: string)
    requires Selector(a).Some? && Selector(a) == Selector(b)
    ensures a == b
  {
  }

  /*** Styles ***/

  /**
   * A value a style or a UI object holds in an object-valued property:
   * a font, a color, a tone, a point (anchor, zoom), a space (margin,
   * padding), or a mask or animation list this model does not look into.
   */
  datatype Value =
    | FontValue(name: string, size: int)
    | ColorValue(red: int, green: int, blue: int, alpha: int)
    | ToneValue(red: int, green: int, blue: int, grey: int)
    | PointValue(point: Point)
    | SpaceValue(insets: Insets)
    | Opaque(id: int)

  /** The looping flags of a tiling visual. */
  datatype Looping = Looping(vertical: bool, horizontal: bool)

  /** The font part of a style descriptor: a name and an optional size. */
  datatype FontSpec = FontSpec(name: string, size: Option<int>)

  /**
   * A style descriptor as it arrives from a UI layout. None is `undefined`.
   * Colors, tones, anchors and zooms arrive already converted from their
   * arrays; margins and paddings are the raw arrays `Space.fromArray` reads;
   * alignments are names looked up in `UIManager.alignments`.
   */
  datatype Descriptor = Descriptor(
    font: Option<FontSpec>,
    image: Option<string>,
    animations: Option<Value>,
    color: Option<Value>,
    tone: Option<Value>,
    anchor: Option<Point>,
    zoom: Option<Point>,
    margin: Option<seq<int>>,
    padding: Option<seq<int>>,
    opacity: Option<int>,
    alignment: Option<int>,
    frameCornerSize: Option<int>,
    frameThickness: Option<int>,
    looping: Option<Looping>,
    resizable: Option<bool>,
    zIndex: Option<int>,
    alignmentX: Option<string>,
    alignmentY: Option<string>)

  /**
   * ui.Style. `target` None is `undefined` (a child key whose parent key
   * does not exist). Object properties use None for "unspecified", numeric
   * ones -1, and `resizable` None.
   */
  datatype Style = Style(
    id: int,
    target: Option<int>,
    selector: int,
    font: Option<Value>,
    image: Option<string>,
    animations: Option<Value>,
    color: Option<Value>,
    tone: Option<Value>,
    anchor: Option<Value>,
    zoom: Option<Value>,
    margin: Option<Value>,
    padding: Option<Value>,
    mask: Option<Value>,
    alignment: int,
    opacity: int,
    frameCornerSize: int,
    frameThickness: int,
    looping: Option<Looping>,
    zIndex: int,
    alignmentX: int,
    alignmentY: int,
    resizable: Option<bool>)
  {
    /**
     * `apply`: a style not yet active is pushed onto the object's stack and
     * writes every property it specifies, `applyLooping` and
     * `applyAnimations` included; an active style changes nothing.
     */
    method Apply(widget: Widget)
      modifies widget
      ensures widget.State() == ApplyTo(old(widget.State()), this)
      ensures widget.styles == old(widget.styles)
    {
      if this !in widget.activeStyles {
        widget.activeStyles := widget.activeStyles + [this];
        widget.props := ApplyProps(widget.props, this);
      }
    }

    /**
     * `revert`: an active style is removed from the object's stack; every
     * property it specified is reset to its default and then taken from the
     * remaining stack (`revertAnimations` and `revertLooping` included). An
     * inactive style changes nothing.
     */
    method Revert(widget: Widget)
      modifies widget
      ensures widget.State() == RevertFrom(old(widget.State()), this)
      ensures widget.styles == old(widget.styles)
    {
      if this in widget.activeStyles {
        widget.activeStyles := RemoveFirst(widget.activeStyles, this);
        var rest := widget.activeStyles;
        var animations := RevertAnimations(rest, widget.props.animations);
        var looping := RevertLooping(rest, widget.props.looping);
        widget.props := RevertFields(widget.props, rest, this).(animations := animations, looping := looping);
      }
    }

    /**
     * `revertAnimations`: a style with animations clears them and then walks
     * the remaining stack from its end without stopping, so the earliest
     * remaining style with animations wins.
     */
    method RevertAnimations(rest: seq<Style>, current: Option<Value>) returns (animations: Option<Value>)
      ensures animations == RevertedAnimations(this, rest, current)
    {
      animations := current;
      if this.animations.Some? {
        animations := None;
        var j := |rest|;
        while j > 0
          invariant 0 <= j <= |rest|
          invariant animations == OptionOf(FirstSpecifying(rest[j..], AnimationsProp), AnimationsProp)
        {
          j := j - 1;
          assert rest[j..][1..] == rest[j + 1..];
          if rest[j].animations.Some? {
            animations := rest[j].animations;
          }
        }
        assert rest[0..] == rest;
      }
    }

    /**
     * `revertLooping`: a style with looping flags turns them off and then
     * walks the remaining stack from its end without stopping, so the
     * earliest remaining style with looping flags wins.
     */
    method RevertLooping(rest: seq<Style>, current: Looping) returns (looping: Looping)
      ensures looping == RevertedLooping(this, rest, current)
    {
      looping := current;
      if this.looping.Some? {
        looping := NO_LOOPING;
        var j := |rest|;
        while j > 0
          invariant 0 <= j <= |rest|
          invariant looping == RestoredLooping(FirstSpecifying(rest[j..], LoopingProp))
        {
          j := j - 1;
          assert rest[j..][1..] == rest[j + 1..];
          if rest[j].looping.Some? {
            looping := rest[j].looping.value;
          }
        }
        assert rest[0..] == rest;
      }
    }
  }

  /** A style that specifies nothing (what the constructor builds without a descriptor). */
  function Blank(id: int, selector: int): (s: Style)
    ensures forall p :: !Specifies(s, p)
  {
    Style(id, Some(-1), selector, None, None, None, None, None, None, None, None, None, None,
      -1, -1, -1, -1, None, -1, -1, -1, None)
  }

  /** A descriptor number JavaScript treats as true: present and not 0. */
  predicate Truthy(n: Option<int>) {
    n.Some? && n.value != 0
  }

  /** The alignment a descriptor names, -1 when it names none the table knows. */
  function AlignmentOf(name: Option<string>): (a: int)
    ensures a >= 0 <==> name.Some? && Alignment(name.value).Some?
  {
    if name.Some? && name.value != "" && Alignment(name.value).Some? then Alignment(name.value).value else -1
  }

  /**
   * `new ui.Style(descriptor, id, selector)` followed by `setFromDescriptor`:
   * the image and the animations are always copied; objects only when
   * present; opacity and alignment only when at least 0; frame sizes,
   * z-index and alignments only when truthy (not 0); `resizable` when not
   * null. The mask is never taken from a descriptor.
   */
  function FromDescriptor(descriptor: Option<Descriptor>, id: int, selector: int): (s: Style)
    ensures s.id == id && s.selector == selector && s.target == Some(-1)
    ensures s.mask.None?
    ensures descriptor.None? ==> s == Blank(id, selector)
  {
    match descriptor
    case None => Blank(id, selector)
    case Some(d) =>
      Style(id, Some(-1), selector, FontOf(d.font), d.image, d.animations, d.color, d.tone,
        PointOf(d.anchor), PointOf(d.zoom), SpaceOf(d.margin), SpaceOf(d.padding), None,
        NonNegativeOr(d.alignment), NonNegativeOr(d.opacity), TruthyOr(d.frameCornerSize),
        TruthyOr(d.frameThickness), d.looping, TruthyOr(d.zIndex),
        AlignmentOf(d.alignmentX), AlignmentOf(d.alignmentY), d.resizable)
  }

  /** `setupFont`: a descriptor font becomes a font of that name and size (size 0 when missing). */
  function FontOf(font: Option<FontSpec>): Option<Value> {
    if font.Some? then Some(FontValue(font.value.name, font.value.size.GetOr(0))) else None
  }

  /** A descriptor point (anchor or zoom) as a style value. */
  function PointOf(point: Option<Point>): Option<Value> {
    if point.Some? then Some(PointValue(point.value)) else None
  }

  /** `Space.fromArray` on a descriptor margin or padding, as a style value. */
  function SpaceOf(a: Option<seq<int>>): Option<Value> {
    if a.Some? then Some(SpaceValue(ArrayInsets(a.value))) else None
  }

  /** A number copied when it is at least 0 (opacity, alignment), else the sentinel -1. */
  function NonNegativeOr(n: Option<int>): (r: int)
    ensures r >= 0 <==> n.Some? && n.value >= 0
  {
    if n.Some? && n.value >= 0 then n.value else -1
  }

  /** A number copied when it is truthy (frame sizes, z-index), else the sentinel -1. */
  function TruthyOr(n: Option<int>): (r: int)
    ensures r == -1 || Truthy(n)
    ensures Truthy(n) ==> r == n.value
  {
    if Truthy(n) then n.value else -1
  }

  /**
   * Which properties a descriptor makes its style specify, stated on the
   * descriptor: the copy tests of `setFromDescriptor` combined with the
   * sentinel tests of `apply`. A negative frame size or z-index is copied
   * but still counts as unspecified; a 0 is not copied at all.
   */
  predicate DescriptorSpecifies(descriptor: Option<Descriptor>, p: Prop) {
    descriptor.Some? &&
    var d := descriptor.value;
    match p
    case FontProp => d.font.Some?
    case ColorProp => d.color.Some?
    case ToneProp => d.tone.Some?
    case ImageProp => d.image.Some? && d.image.value != ""
    case AnchorProp => d.anchor.Some?
    case ZoomProp => d.zoom.Some?
    case PaddingProp => d.padding.Some?
    case MarginProp => d.margin.Some?
    case OpacityProp => d.opacity.Some? && d.opacity.value >= 0
    case AlignmentProp => d.alignment.Some? && d.alignment.value >= 0
    case FrameThicknessProp => d.frameThickness.Some? && d.frameThickness.value > 0
    case FrameCornerSizeProp => d.frameCornerSize.Some? && d.frameCornerSize.value > 0
    case MaskProp => false
    case ZIndexProp => d.zIndex.Some? && d.zIndex.value > 0
    case AlignmentXProp => d.alignmentX.Some? && Alignment(d.alignmentX.value).Some?
    case AlignmentYProp => d.alignmentY.Some? && Alignment(d.alignmentY.value).Some?
    case ResizableProp => d.resizable.Some?
    case AnimationsProp => d.animations.Some?
    case LoopingProp => d.looping.Some?
  }

  /** The sentinel rules: a style built from a descriptor specifies exactly what the descriptor gives. */
  lemma FromDescriptorSpecifies(descriptor: Option<Descriptor>, id: int, selector: int, p: Prop)
    ensures Specifies(FromDescriptor(descriptor, id, selector), p) <==> DescriptorSpecifies(descriptor, p)
  {
  }

  /** The value 0 splits the two sentinel families: opacity 0 is specified, a z-index or frame size of 0 is not. */
  lemma ZeroSentinels(d: Descriptor)
    requires d.opacity == Some(0) && d.zIndex == Some(0) && d.frameCornerSize == Some(0)
    ensures Specifies(FromDescriptor(Some(d), 0, 0), OpacityProp)
    ensures !Specifies(FromDescriptor(Some(d), 0, 0), ZIndexProp)
    ensures FromDescriptor(Some(d), 0, 0).frameCornerSize == -1
  {
  }

  /*** Properties and their cascade ***/

  /** The styleable properties of a UI object, in the order `apply` writes them. */
  datatype Prop =
    | FontProp | ColorProp | ToneProp | ImageProp | AnchorProp | ZoomProp | PaddingProp | MarginProp
    | OpacityProp | AlignmentProp | FrameThicknessProp | FrameCornerSizeProp | MaskProp | ZIndexProp
    | AlignmentXProp | AlignmentYProp | ResizableProp | AnimationsProp | LoopingProp

  /** The value of one property, of whichever kind it is; Null is `null`. */
  datatype Setting = Val(value: Value) | Text(text: string) | Num(n: int) | Flag(b: bool) | Loop(flags: Looping) | Null

  /** An optional object as a setting. */
  function OptionSetting(v: Option<Value>): Setting {
    if v.Some? then Val(v.value) else Null
  }

  /** The object a style holds for an object-valued property. */
  function ObjectField(s: Style, p: Prop): Option<Value> {
    match p
    case FontProp => s.font
    case ColorProp => s.color
    case ToneProp => s.tone
    case AnchorProp => s.anchor
    case ZoomProp => s.zoom
    case PaddingProp => s.padding
    case MarginProp => s.margin
    case MaskProp => s.mask
    case AnimationsProp => s.animations
    case _ => None
  }

  /** The number a style holds for a numeric property (-1 for the others). */
  function NumberField(s: Style, p: Prop): int {
    match p
    case OpacityProp => s.opacity
    case AlignmentProp => s.alignment
    case FrameThicknessProp => s.frameThickness
    case FrameCornerSizeProp => s.frameCornerSize
    case ZIndexProp => s.zIndex
    case AlignmentXProp => s.alignmentX
    case AlignmentYProp => s.alignmentY
    case _ => -1
  }

  /** Whether a style specifies a property: the tests `apply` and `revert` make before writing it. */
  predicate Specifies(s: Style, p: Prop) {
    match p
    case ImageProp => s.image.Some? && s.image.value != ""
    case OpacityProp | AlignmentProp | FrameThicknessProp | FrameCornerSizeProp | ZIndexProp
      | AlignmentXProp | AlignmentYProp => NumberField(s, p) >= 0
    case ResizableProp => s.resizable.Some?
    case LoopingProp => s.looping.Some?
    case _ => ObjectField(s, p).Some?
  }

  /** The value a style gives a property. */
  function StyleSetting(s: Style, p: Prop): Setting {
    match p
    case ImageProp => if s.image.Some? then Text(s.image.value) else Null
    case OpacityProp | AlignmentProp | FrameThicknessProp | FrameCornerSizeProp | ZIndexProp
      | AlignmentXProp | AlignmentYProp => Num(NumberField(s, p))
    case ResizableProp => if s.resizable.Some? then Flag(s.resizable.value) else Null
    case LoopingProp => if s.looping.Some? then Loop(s.looping.value) else Null
    case _ => OptionSetting(ObjectField(s, p))
  }

  /** `gs.Fonts.TEXT`, the default text font (defined outside this model). */
  const TEXT_FONT: Value := Opaque(0)
  /** `Color.WHITE`. */
  const WHITE: Value := ColorValue(255, 255, 255, 255)
  /** The tone (0, 0, 0, 0). */
  const NO_TONE: Value := ToneValue(0, 0, 0, 0)
  /** The anchor (0, 0). */
  const ORIGIN: Value := PointValue(Point(0, 0))
  /** The zoom (1.0, 1.0). */
  const UNIT_ZOOM: Value := PointValue(Point(1, 1))
  /** A margin or padding of 0 on every side. */
  const NO_SPACE: Value := SpaceValue(Insets(Some(0), Some(0), Some(0), Some(0)))
  /** Looping off in both directions. */
  const NO_LOOPING: Looping := Looping(false, false)

  /** The value `revert` gives a property when no remaining style specifies it. */
  function Default(p: Prop): Setting {
    match p
    case FontProp => Val(TEXT_FONT)
    case ColorProp => Val(WHITE)
    case ToneProp => Val(NO_TONE)
    case ImageProp => Null
    case AnchorProp => Val(ORIGIN)
    case ZoomProp => Val(UNIT_ZOOM)
    case PaddingProp => Val(NO_SPACE)
    case MarginProp => Val(NO_SPACE)
    case OpacityProp => Num(255)
    case AlignmentProp => Num(0)
    case FrameThicknessProp => Num(16)
    case FrameCornerSizeProp => Num(16)
    case MaskProp => Null
    case ZIndexProp => Num(0)
    case AlignmentXProp => Num(0)
    case AlignmentYProp => Num(0)
    case ResizableProp => Flag(false)
    case AnimationsProp => Null
    case LoopingProp => Loop(NO_LOOPING)
  }

  /**
   * The styleable properties of a UI widget. The object's font, color,
   * anchor, zoom, padding and margin objects always exist; its tone may
   * not, and then no style changes it.
   */
  datatype Props = Props(
    font: Value,
    color: Value,
    tone: Option<Value>,
    image: Option<string>,
    anchor: Value,
    zoom: Value,
    padding: Value,
    margin: Value,
    opacity: int,
    alignment: int,
    frameThickness: int,
    frameCornerSize: int,
    mask: Option<Value>,
    zIndex: int,
    alignmentX: int,
    alignmentY: int,
    resizable: bool,
    animations: Option<Value>,
    looping: Looping)

  /** The value a UI object holds for a property. */
  function Get(ps: Props, p: Prop): Setting {
    match p
    case FontProp => Val(ps.font)
    case ColorProp => Val(ps.color)
    case ToneProp => OptionSetting(ps.tone)
    case ImageProp => if ps.image.Some? then Text(ps.image.value) else Null
    case AnchorProp => Val(ps.anchor)
    case ZoomProp => Val(ps.zoom)
    case PaddingProp => Val(ps.padding)
    case MarginProp => Val(ps.margin)
    case OpacityProp => Num(ps.opacity)
    case AlignmentProp => Num(ps.alignment)
    case FrameThicknessProp => Num(ps.frameThickness)
    case FrameCornerSizeProp => Num(ps.frameCornerSize)
    case MaskProp => OptionSetting(ps.mask)
    case ZIndexProp => Num(ps.zIndex)
    case AlignmentXProp => Num(ps.alignmentX)
    case AlignmentYProp => Num(ps.alignmentY)
    case ResizableProp => Flag(ps.resizable)
    case AnimationsProp => OptionSetting(ps.animations)
    case LoopingProp => Loop(ps.looping)
  }

  /** A UI object whose every property holds the value `revert` falls back to. */
  const DEFAULT_PROPS: Props := Props(TEXT_FONT, WHITE, Some(NO_TONE), None, ORIGIN, UNIT_ZOOM, NO_SPACE, NO_SPACE,
    255, 0, 16, 16, None, 0, 0, 0, false, None, NO_LOOPING)

  /** The default object holds every default. */
  lemma DefaultPropsHoldDefaults(p: Prop)
    ensures Get(DEFAULT_PROPS, p) == Default(p)
  {
  }

  /** The most recently applied style in `stack` that specifies `p`, if any. */
  function LastSpecifying(stack: seq<Style>, p: Prop): (r: Option<Style>)
    ensures r.Some? ==> r.value in stack && Specifies(r.value, p)
  {
    if stack == [] then None
    else if Specifies(stack[|stack| - 1], p) then Some(stack[|stack| - 1])
    else
      LastSpecifying(stack[..|stack| - 1], p)
  }

  /** The earliest applied style in `stack` that specifies `p`, if any. */
  function FirstSpecifying(stack: seq<Style>, p: Prop): (r: Option<Style>)
    ensures r.Some? ==> r.value in stack && Specifies(r.value, p)
  {
    if stack == [] then None
    else if Specifies(stack[0], p) then Some(stack[0])
    else
      FirstSpecifying(stack[1..], p)
  }

  /** The value the cascade gives `p`: the most recent style specifying it, else the default. */
  function Cascade(stack: seq<Style>, p: Prop): Setting {
    match LastSpecifying(stack, p)
    case Some(s) => StyleSetting(s, p)
    case None => Default(p)
  }

  /** The properties the cascade governs; mask, animations and looping are restored otherwise by `revert`. */
  predicate Cascading(p: Prop) {
    p != MaskProp && p != AnimationsProp && p != LoopingProp
  }

  /**
   * The value `revert` restores for a property the reverted style specified,
   * from the remaining stack: the cascade value, except that the mask takes
   * the font of the most recent style with a mask, and animations and
   * looping come from the earliest style that has them.
   */
  function Restored(rest: seq<Style>, p: Prop): Setting {
    if p == MaskProp then
      match LastSpecifying(rest, MaskProp)
      case Some(s) => OptionSetting(s.font)
      case None => Null
    else if p == AnimationsProp || p == LoopingProp then
      match FirstSpecifying(rest, p)
      case Some(s) => StyleSetting(s, p)
      case None => Default(p)
    else Cascade(rest, p)
  }

  /** The object value `revert` restores for an object-valued property, with its default. */
  function RestoredObject(rest: seq<Style>, p: Prop, default: Value): Value {
    match LastSpecifying(rest, p)
    case Some(s) => ObjectField(s, p).GetOr(default)
    case None => default
  }

  /** The number `revert` restores for a numeric property, with its default. */
  function RestoredNumber(rest: seq<Style>, p: Prop, default: int): int {
    match LastSpecifying(rest, p)
    case Some(s) => NumberField(s, p)
    case None => default
  }

  /** An object-valued setting of a style found by a scan, as the option the object stores. */
  function OptionOf(s: Option<Style>, p: Prop): Option<Value> {
    if s.Some? then ObjectField(s.value, p) else None
  }

  /** The properties after `apply` of a style not yet active. */
  function ApplyProps(ps: Props, s: Style): Props {
    ps.(
      font := if Specifies(s, FontProp) then s.font.value else ps.font,
      color := if Specifies(s, ColorProp) then s.color.value else ps.color,
      tone := if Specifies(s, ToneProp) && ps.tone.Some? then s.tone else ps.tone,
      image := if Specifies(s, ImageProp) then s.image else ps.image,
      anchor := if Specifies(s, AnchorProp) then s.anchor.value else ps.anchor,
      zoom := if Specifies(s, ZoomProp) then s.zoom.value else ps.zoom,
      padding := if Specifies(s, PaddingProp) then s.padding.value else ps.padding,
      margin := if Specifies(s, MarginProp) then s.margin.value else ps.margin,
      opacity := if s.opacity >= 0 then s.opacity else ps.opacity,
      alignment := if s.alignment >= 0 then s.alignment else ps.alignment,
      frameThickness := if s.frameThickness >= 0 then s.frameThickness else ps.frameThickness,
      frameCornerSize := if s.frameCornerSize >= 0 then s.frameCornerSize else ps.frameCornerSize,
      mask := if Specifies(s, MaskProp) then s.mask else ps.mask,
      zIndex := if s.zIndex >= 0 then s.zIndex else ps.zIndex,
      alignmentX := if s.alignmentX >= 0 then s.alignmentX else ps.alignmentX,
      alignmentY := if s.alignmentY >= 0 then s.alignmentY else ps.alignmentY,
      resizable := if s.resizable.Some? then s.resizable.value else ps.resizable,
      looping := AppliedLooping(s, ps.looping),
      animations := AppliedAnimations(s, ps.animations))
  }

  /** `applyLooping`: a style with looping flags copies them to the object's visual. */
  function AppliedLooping(s: Style, current: Looping): Looping {
    if s.looping.Some? then s.looping.value else current
  }

  /** `applyAnimations`: a style with animations gives the object a copy of them. */
  function AppliedAnimations(s: Style, current: Option<Value>): Option<Value> {
    if s.animations.Some? then s.animations else current
  }

  /**
   * The properties after `revert` of an active style `s`, given the stack
   * left after removing it: `RevertFields` followed by `revertAnimations`
   * and `revertLooping`.
   */
  function RevertProps(ps: Props, rest: seq<Style>, s: Style): Props {
    RevertFields(ps, rest, s).(
      animations := RevertedAnimations(s, rest, ps.animations),
      looping := RevertedLooping(s, rest, ps.looping))
  }

  /**
   * The reverse scans of `revert` itself: each property `s` specified gets
   * its default and then the value of the most recently applied remaining
   * style that specifies it; the mask takes that style's font.
   */
  function RevertFields(ps: Props, rest: seq<Style>, s: Style): Props {
    ps.(
      font := if Specifies(s, FontProp) then RestoredObject(rest, FontProp, TEXT_FONT) else ps.font,
      color := if Specifies(s, ColorProp) then RestoredObject(rest, ColorProp, WHITE) else ps.color,
      tone := if Specifies(s, ToneProp) && ps.tone.Some? then Some(RestoredObject(rest, ToneProp, NO_TONE)) else ps.tone,
      image := if Specifies(s, ImageProp) then OptionText(LastSpecifying(rest, ImageProp)) else ps.image,
      anchor := if Specifies(s, AnchorProp) then RestoredObject(rest, AnchorProp, ORIGIN) else ps.anchor,
      zoom := if Specifies(s, ZoomProp) then RestoredObject(rest, ZoomProp, UNIT_ZOOM) else ps.zoom,
      padding := if Specifies(s, PaddingProp) then RestoredObject(rest, PaddingProp, NO_SPACE) else ps.padding,
      margin := if Specifies(s, MarginProp) then RestoredObject(rest, MarginProp, NO_SPACE) else ps.margin,
      opacity := if s.opacity >= 0 then RestoredNumber(rest, OpacityProp, 255) else ps.opacity,
      alignment := if s.alignment >= 0 then RestoredNumber(rest, AlignmentProp, 0) else ps.alignment,
      frameThickness := if s.frameThickness >= 0 then RestoredNumber(rest, FrameThicknessProp, 16) else ps.frameThickness,
      frameCornerSize := if s.frameCornerSize >= 0 then RestoredNumber(rest, FrameCornerSizeProp, 16) else ps.frameCornerSize,
      mask := if Specifies(s, MaskProp) then MaskFont(LastSpecifying(rest, MaskProp)) else ps.mask,
      zIndex := if s.zIndex >= 0 then RestoredNumber(rest, ZIndexProp, 0) else ps.zIndex,
      alignmentX := if s.alignmentX >= 0 then RestoredNumber(rest, AlignmentXProp, 0) else ps.alignmentX,
      alignmentY := if s.alignmentY >= 0 then RestoredNumber(rest, AlignmentYProp, 0) else ps.alignmentY,
      resizable := if s.resizable.Some? then RestoredFlag(LastSpecifying(rest, ResizableProp)) else ps.resizable)
  }

  /** The animations after `revertAnimations`: those of the earliest remaining style that has some. */
  function RevertedAnimations(s: Style, rest: seq<Style>, current: Option<Value>): Option<Value> {
    if s.animations.Some? then OptionOf(FirstSpecifying(rest, AnimationsProp), AnimationsProp) else current
  }

  /** The looping flags after `revertLooping`: those of the earliest remaining style that has some. */
  function RevertedLooping(s: Style, rest: seq<Style>, current: Looping): Looping {
    if s.looping.Some? then RestoredLooping(FirstSpecifying(rest, LoopingProp)) else current
  }

  /** The image of a style found by a scan, `null` when none was found. */
  function OptionText(s: Option<Style>): Option<string> {
    if s.Some? then s.value.image else None
  }

  /** The font of the style with a mask found by a scan, `null` when none was found. */
  function MaskFont(s: Option<Style>): Option<Value> {
    if s.Some? then s.value.font else None
  }

  /** The `resizable` flag of a style found by a scan, false when none was found. */
  function RestoredFlag(s: Option<Style>): bool {
    if s.Some? then s.value.resizable.GetOr(false) else false
  }

  /** The looping flags of a style found by a scan, both off when none was found. */
  function RestoredLooping(s: Option<Style>): Looping {
    if s.Some? then s.value.looping.GetOr(NO_LOOPING) else NO_LOOPING
  }

  /** A UI object's styleable state: its properties and its `activeStyles` stack. */
  datatype WidgetState = WidgetState(props: Props, stack: seq<Style>)

  /** `apply` on states. */
  function ApplyTo(w: WidgetState, s: Style): (r: WidgetState)
    ensures s in r.stack
  {
    if s in w.stack then w else WidgetState(ApplyProps(w.props, s), w.stack + [s])
  }

  /** `revert` on states. */
  function RevertFrom(w: WidgetState, s: Style): WidgetState {
    if s in w.stack then
      var rest := RemoveFirst(w.stack, s);
      WidgetState(RevertProps(w.props, rest, s), rest)
    else w
  }

  /** `apply` writes a property exactly when the style specifies it (and, for the tone, when the object has one). */
  lemma ApplyWrites(ps: Props, s: Style, p: Prop)
    ensures Get(ApplyProps(ps, s), p) ==
      if Specifies(s, p) && (p != ToneProp || ps.tone.Some?) then StyleSetting(s, p) else Get(ps, p)
  {
  }

  /** `revert` writes a property exactly when the style specified it, and then writes the restored value. */
  lemma RevertWrites(ps: Props, rest: seq<Style>, s: Style, p: Prop)
    ensures Get(RevertProps(ps, rest, s), p) ==
      if Specifies(s, p) && (p != ToneProp || ps.tone.Some?) then Restored(rest, p) else Get(ps, p)
  {
  }

  /** Applying an active style again changes nothing: `apply` is idempotent. */
  lemma ApplyIdempotent(w: WidgetState, s: Style)
    ensures ApplyTo(ApplyTo(w, s), s) == ApplyTo(w, s)
  {
  }

  /** A stack in which no style occurs twice. */
  predicate Distinct(stack: seq<Style>) {
    forall i, j :: 0 <= i < j < |stack| ==> stack[i] != stack[j]
  }

  /** `apply` and `revert` never put a style on the stack twice, and `revert` takes the style off entirely. */
  lemma StackStaysDistinct(w: WidgetState, s: Style)
    requires Distinct(w.stack)
    ensures Distinct(ApplyTo(w, s).stack)
    ensures Distinct(RevertFrom(w, s).stack) && s !in RevertFrom(w, s).stack
  {
    if s in w.stack {
      RemoveFirstDistinct(w.stack, s);
    }
  }

  /** Removing the first occurrence from a duplicate-free sequence leaves the rest, still duplicate-free. */
  lemma {:induction false} RemoveFirstDistinct(stack: seq<Style>, s: Style)
    requires Distinct(stack)
    ensures Distinct(RemoveFirst(stack, s)) && s !in RemoveFirst(stack, s)
    ensures forall t :: t in RemoveFirst(stack, s) <==> t in stack && t != s
  {
    if stack != [] {
      assert Distinct(stack[1..]) by {
        forall i, j | 0 <= i < j < |stack[1..]| ensures stack[1..][i] != stack[1..][j] {
          assert stack[1..][i] == stack[i + 1] && stack[1..][j] == stack[j + 1];
        }
      }
      assert forall t :: t in stack[1..] ==> t != stack[0] by {
        forall t | t in stack[1..] ensures t != stack[0] {
          var k :| 0 <= k < |stack[1..]| && stack[1..][k] == t;
          assert stack[k + 1] == t;
        }
      }
      assert forall t :: t in stack <==> t == stack[0] || t in stack[1..] by {
        assert stack == [stack[0]] + stack[1..];
      }
      if stack[0] != s {
        RemoveFirstDistinct(stack[1..], s);
        var r := RemoveFirst(stack[1..], s);
        assert RemoveFirst(stack, s) == [stack[0]] + r;
        forall i, j | 0 <= i < j < |[stack[0]] + r| ensures ([stack[0]] + r)[i] != ([stack[0]] + r)[j] {
          if i == 0 {
            assert ([stack[0]] + r)[j] == r[j - 1];
            assert r[j - 1] in r;
          } else {
            assert ([stack[0]] + r)[i] == r[i - 1] && ([stack[0]] + r)[j] == r[j - 1];
          }
        }
      }
    }
  }

  /** Putting more styles on top: the most recent specifying style is in the new part if there is one there. */
  lemma {:induction false} LastSpecifyingAppend(a: seq<Style>, b: seq<Style>, p: Prop)
    ensures LastSpecifying(a + b, p) ==
      if LastSpecifying(b, p).Some? then LastSpecifying(b, p) else LastSpecifying(a, p)
  {
    if b != [] {
      assert (a + b)[..|a + b| - 1] == a + b[..|b| - 1];
      assert (a + b)[|a + b| - 1] == b[|b| - 1];
      LastSpecifyingAppend(a, b[..|b| - 1], p);
    } else {
      assert a + b == a;
    }
  }

  /** Taking a style that does not specify `p` off the stack leaves the cascade of `p` as it was. */
  lemma {:induction false} LastSpecifyingIgnoresRemoval(stack: seq<Style>, s: Style, p: Prop)
    requires !Specifies(s, p)
    ensures LastSpecifying(RemoveFirst(stack, s), p) == LastSpecifying(stack, p)
  {
    if stack != [] {
      assert stack == [stack[0]] + stack[1..];
      LastSpecifyingAppend([stack[0]], stack[1..], p);
      assert LastSpecifying([stack[0]], p) == if Specifies(stack[0], p) then Some(stack[0]) else None by {
        assert [stack[0]][..0] == [];
      }
      if stack[0] != s {
        LastSpecifyingIgnoresRemoval(stack[1..], s, p);
        LastSpecifyingAppend([stack[0]], RemoveFirst(stack[1..], s), p);
      }
    }
  }

  /**
   * The cascade invariant: every property the cascade governs holds the
   * value of the most recently applied style on the stack that specifies
   * it, or its default (the tone only when the object has one).
   */
  predicate Cascaded(w: WidgetState) {
    forall p :: Cascading(p) && (p != ToneProp || w.props.tone.Some?) ==> Get(w.props, p) == Cascade(w.stack, p)
  }

  /** `apply` keeps the cascade invariant. */
  lemma ApplyKeepsCascade(w: WidgetState, s: Style)
    requires Cascaded(w)
    ensures Cascaded(ApplyTo(w, s))
  {
    if s !in w.stack {
      forall p | Cascading(p) && (p != ToneProp || ApplyTo(w, s).props.tone.Some?)
        ensures Get(ApplyTo(w, s).props, p) == Cascade(w.stack + [s], p)
      {
        ApplyWrites(w.props, s, p);
        assert (w.stack + [s])[..|w.stack + [s]| - 1] == w.stack;
      }
    }
  }

  /** `revert` keeps the cascade invariant. */
  lemma RevertKeepsCascade(w: WidgetState, s: Style)
    requires Cascaded(w)
    ensures Cascaded(RevertFrom(w, s))
  {
    if s in w.stack {
      var rest := RemoveFirst(w.stack, s);
      forall p | Cascading(p) && (p != ToneProp || RevertFrom(w, s).props.tone.Some?)
        ensures Get(RevertFrom(w, s).props, p) == Cascade(rest, p)
      {
        RevertWrites(w.props, rest, s, p);
        if !Specifies(s, p) {
          LastSpecifyingIgnoresRemoval(w.stack, s, p);
        }
      }
    }
  }

  /** One call a UI object receives: `apply` or `revert` of a style. */
  datatype Call = ApplyCall(style: Style) | RevertCall(style: Style)

  /** The state after one call. */
  function Step(w: WidgetState, call: Call): WidgetState {
    match call
    case ApplyCall(s) => ApplyTo(w, s)
    case RevertCall(s) => RevertFrom(w, s)
  }

  /** The state after a sequence of calls. */
  function Run(w: WidgetState, calls: seq<Call>): WidgetState {
    if calls == [] then w else Step(Run(w, calls[..|calls| - 1]), calls[|calls| - 1])
  }

  /** Running one more call is one more step. */
  lemma RunSnoc(w: WidgetState, calls: seq<Call>, call: Call)
    ensures Run(w, calls + [call]) == Step(Run(w, calls), call)
  {
    assert (calls + [call])[..|calls|] == calls;
  }

  /** An object with no active styles and every default holds the cascade invariant. */
  lemma InitialCascaded()
    ensures Cascaded(WidgetState(DEFAULT_PROPS, []))
  {
    forall p | Cascading(p) ensures Get(DEFAULT_PROPS, p) == Cascade([], p) {
      DefaultPropsHoldDefaults(p);
    }
  }

  /** The cascade invariant holds after any sequence of `apply` and `revert` calls. */
  lemma {:induction false} RunKeepsCascade(w: WidgetState, calls: seq<Call>)
    requires Cascaded(w)
    ensures Cascaded(Run(w, calls))
  {
    if calls != [] {
      RunKeepsCascade(w, calls[..|calls| - 1]);
      var v := Run(w, calls[..|calls| - 1]);
      match calls[|calls| - 1]
      case ApplyCall(s) => ApplyKeepsCascade(v, s);
      case RevertCall(s) => RevertKeepsCascade(v, s);
    }
  }

  /** Reverting a style just applied gives every cascading property its earlier value back. */
  lemma RevertUndoesApply(w: WidgetState, s: Style)
    requires Cascaded(w) && s !in w.stack
    ensures RevertFrom(ApplyTo(w, s), s).stack == w.stack
    ensures forall p :: Cascading(p) && (p != ToneProp || w.props.tone.Some?) ==>
      Get(RevertFrom(ApplyTo(w, s), s).props, p) == Get(w.props, p)
  {
    ApplyKeepsCascade(w, s);
    RevertKeepsCascade(ApplyTo(w, s), s);
    RemoveFirstAbsentLast(w.stack, s);
  }

  /** Removing the first occurrence of an element just appended to a sequence without it gives the sequence back. */
  lemma {:induction false} RemoveFirstAbsentLast(stack: seq<Style>, s: Style)
    requires s !in stack
    ensures RemoveFirst(stack + [s], s) == stack
  {
    if stack != [] {
      assert (stack + [s])[1..] == stack[1..] + [s];
      RemoveFirstAbsentLast(stack[1..], s);
      assert stack == [stack[0]] + stack[1..];
    }
  }

  /** Applying S1 and S2 to an object without styles. */
  lemma RunTwo(w0: WidgetState, s1: Style, s2: Style)
    requires w0.stack == [] && s1 != s2
    ensures Run(w0, [ApplyCall(s1), ApplyCall(s2)]) == ApplyTo(ApplyTo(w0, s1), s2)
  {
    RunSnoc(w0, [], ApplyCall(s1));
    RunSnoc(w0, [ApplyCall(s1)], ApplyCall(s2));
    assert [] + [ApplyCall(s1)] == [ApplyCall(s1)];
    assert [ApplyCall(s1)] + [ApplyCall(s2)] == [ApplyCall(s1), ApplyCall(s2)];
  }

  /** The calls apply S1, apply S2, apply S3 to an object without styles, followed by `last`. */
  lemma RunThreeThen(w0: WidgetState, s1: Style, s2: Style, s3: Style, last: Call)
    requires w0.stack == [] && s1 != s2 && s2 != s3 && s1 != s3
    ensures var w3 := ApplyTo(ApplyTo(ApplyTo(w0, s1), s2), s3);
      w3.stack == [s1, s2, s3] &&
      Run(w0, [ApplyCall(s1), ApplyCall(s2), ApplyCall(s3), last]) == Step(w3, last)
  {
    RunTwo(w0, s1, s2);
    RunSnoc(w0, [ApplyCall(s1), ApplyCall(s2)], ApplyCall(s3));
    RunSnoc(w0, [ApplyCall(s1), ApplyCall(s2), ApplyCall(s3)], last);
    assert [ApplyCall(s1), ApplyCall(s2)] + [ApplyCall(s3)] == [ApplyCall(s1), ApplyCall(s2), ApplyCall(s3)];
    assert [ApplyCall(s1), ApplyCall(s2), ApplyCall(s3)] + [last] == [ApplyCall(s1), ApplyCall(s2), ApplyCall(s3), last];
  }

  /**
   * Apply S1, S2 and S3 to a fresh object and revert S2: S1 and S3 stay
   * active, and every cascading property S3 specifies holds S3's value.
   */
  lemma RevertMiddleKeepsTop(s1: Style, s2: Style, s3: Style)
    requires s1 != s2 && s2 != s3 && s1 != s3
    ensures var w := Run(WidgetState(DEFAULT_PROPS, []), [ApplyCall(s1), ApplyCall(s2), ApplyCall(s3), RevertCall(s2)]);
      w.stack == [s1, s3] &&
      forall p :: Cascading(p) && Specifies(s3, p) ==> Get(w.props, p) == StyleSetting(s3, p)
  {
    var calls := [ApplyCall(s1), ApplyCall(s2), ApplyCall(s3), RevertCall(s2)];
    var w0 := WidgetState(DEFAULT_PROPS, []);
    InitialCascaded();
    RunKeepsCascade(w0, calls);
    RunThreeThen(w0, s1, s2, s3, RevertCall(s2));
    var w3 := WidgetState(ApplyProps(ApplyProps(ApplyProps(DEFAULT_PROPS, s1), s2), s3), [s1, s2, s3]);
    var w := Run(w0, calls);
    assert RemoveFirst([s1, s2, s3], s2) == [s1, s3] by {
      assert [s1, s2, s3][1..] == [s2, s3];
      assert [s2, s3][1..] == [s3];
    }
    assert w == RevertFrom(w3, s2);
    assert w.stack == [s1, s3];
    assert w.props.tone.Some?;
    forall p | Cascading(p) && Specifies(s3, p) ensures Get(w.props, p) == StyleSetting(s3, p) {
      assert [s1, s3][..1] == [s1];
    }
  }

  /** Apply S1, S2 and S3 to an object without styles and revert S3: `revert` runs on the stack S1, S2. */
  lemma RevertThirdOfThree(w0: WidgetState, s1: Style, s2: Style, s3: Style)
    requires w0.stack == [] && s1 != s2 && s2 != s3 && s1 != s3
    ensures var w3 := ApplyTo(ApplyTo(ApplyTo(w0, s1), s2), s3);
      Run(w0, [ApplyCall(s1), ApplyCall(s2), ApplyCall(s3), RevertCall(s3)]) ==
      WidgetState(RevertProps(w3.props, [s1, s2], s3), [s1, s2])
  {
    RunThreeThen(w0, s1, s2, s3, RevertCall(s3));
    assert RemoveFirst([s1, s2, s3], s3) == [s1, s2] by {
      assert [s1, s2, s3][1..] == [s2, s3];
      assert [s2, s3][1..] == [s3];
    }
  }

  /** On the stack S1, S2 the reverse scan finds S2 when S2 specifies `p`. */
  lemma LastOfTwo(s1: Style, s2: Style, p: Prop)
    requires Specifies(s2, p)
    ensures LastSpecifying([s1, s2], p) == Some(s2)
  {
  }

  /** On the stack S1, S2 the forward scan finds S1 when S1 specifies `p`. */
  lemma FirstOfTwo(s1: Style, s2: Style, p: Prop)
    requires Specifies(s1, p)
    ensures FirstSpecifying([s1, s2], p) == Some(s1)
  {
  }

  /**
   * The mask quirk: with S1, S2 and S3 applied, where S2 and S3 have masks,
   * reverting S3 gives the object S2's font as its mask, not S2's mask.
   */
  lemma MaskRevertTakesFont(w0: WidgetState, s1: Style, s2: Style, s3: Style)
    requires w0.stack == [] && s1 != s2 && s2 != s3 && s1 != s3
    requires s2.mask.Some? && s3.mask.Some?
    ensures Run(w0, [ApplyCall(s1), ApplyCall(s2), ApplyCall(s3), RevertCall(s3)]).props.mask == s2.font
  {
    RevertThirdOfThree(w0, s1, s2, s3);
    LastOfTwo(s1, s2, MaskProp);
  }

  /**
   * The animations quirk: with S1, S2 and S3 applied, all three with
   * animations, reverting S3 restores S1's animations although S2 is the
   * most recently applied remaining style.
   */
  lemma EarliestAnimationsWin(w0: WidgetState, s1: Style, s2: Style, s3: Style)
    requires w0.stack == [] && s1 != s2 && s2 != s3 && s1 != s3
    requires s1.animations.Some? && s2.animations.Some? && s3.animations.Some?
    ensures var w := Run(w0, [ApplyCall(s1), ApplyCall(s2), ApplyCall(s3), RevertCall(s3)]);
      w.stack == [s1, s2] && w.props.animations == s1.animations &&
      LastSpecifying(w.stack, AnimationsProp) == Some(s2)
  {
    RevertThirdOfThree(w0, s1, s2, s3);
    FirstOfTwo(s1, s2, AnimationsProp);
    LastOfTwo(s1, s2, AnimationsProp);
  }

  /** The same holds for the looping flags: the earliest remaining style with looping flags wins. */
  lemma EarliestLoopingWins(w0: WidgetState, s1: Style, s2: Style, s3: Style)
    requires w0.stack == [] && s1 != s2 && s2 != s3 && s1 != s3
    requires s1.looping.Some? && s2.looping.Some? && s3.looping.Some?
    ensures var w := Run(w0, [ApplyCall(s1), ApplyCall(s2), ApplyCall(s3), RevertCall(s3)]);
      w.stack == [s1, s2] && w.props.looping == s1.looping.value &&
      LastSpecifying(w.stack, LoopingProp) == Some(s2)
  {
    RevertThirdOfThree(w0, s1, s2, s3);
    FirstOfTwo(s1, s2, LoopingProp);
    LastOfTwo(s1, s2, LoopingProp);
  }

  /*** The scans of `revert` ***/

  /**
   * The reverse scan with `break` of `revert`: the most recently applied
   * style specifying `p`. `Style.Revert` is stated through LastSpecifying;
   * this method is the loop form of that scan, proved to compute it.
   */
  method FindLast(stack: seq<Style>, p: Prop) returns (found: Option<Style>)
    ensures found == LastSpecifying(stack, p)
  {
    found := None;
    var j := |stack|;
    assert stack[..j] == stack;
    while j > 0
      invariant 0 <= j <= |stack|
      invariant LastSpecifying(stack, p) == LastSpecifying(stack[..j], p)
    {
      if Specifies(stack[j - 1], p) {
        assert stack[..j][|stack[..j]| - 1] == stack[j - 1];
        return Some(stack[j - 1]);
      }
      assert stack[..j][..j - 1] == stack[..j - 1];
      j := j - 1;
    }
  }

  /*** UI objects ***/

  /**
   * The styleable part of a UI object (ui.Object_UIElement and its kin):
   * its style lists and, as one record, the properties styles write.
   */
  class Widget {
    /** Every style attached to the control (`control.styles`). */
    var styles: seq<Style>
    /** The applied styles, oldest first. */
    var activeStyles: seq<Style>
    /** The styleable properties. */
    var props: Props

    /** The current properties together with the stack of applied styles. */
    function State(): WidgetState
      reads this`props, this`activeStyles
    {
      WidgetState(props, activeStyles)
    }

    /** A UI object with the given properties and no styles. */
    constructor(initial: Props)
      ensures props == initial && activeStyles == [] && styles == []
    {
      styles := [];
      activeStyles := [];
      props := initial;
    }
  }
}
