/** The magnifying lens (src/components/ui/lens.tsx):
    prop validation, which point the lens follows, when it is drawn, and the
    hover and pointer state its handlers update. Coordinates are reals. */
module Lens {
  import opened Wrappers

  /** `Position`. */
  datatype Position = Position(x: real, y: real)

  const DefaultZoomFactor: real := 1.5
  const DefaultLensSize: real := 150.0
  const Origin: Position := Position(0.0, 0.0)

  /** The props the lens logic reads, with their defaults applied. */
  datatype LensProps = LensProps(
    zoomFactor: real,
    lensSize: real,
    isStatic: bool,
    position: Position,
    defaultPosition: Option<Position>)

  /** `Lens` without the optional props: zoom 1.5, size 150, not static,
      position (0, 0), no default position. */
  const DefaultProps: LensProps := LensProps(DefaultZoomFactor, DefaultLensSize, false, Origin, None)

  /** The two checks at the top of the component, in order: a zoom below 1 or
      a negative size throws. A zoom of exactly 1 and a size of exactly 0 pass,
      although the messages say "greater than". */
  function Validate(zoomFactor: real, lensSize: real): (r: Result<(), string>)
    ensures r.Ok? <==> zoomFactor >= 1.0 && lensSize >= 0.0
    ensures zoomFactor < 1.0 ==> r == Err("zoomFactor must be greater than 1")
    ensures zoomFactor >= 1.0 && lensSize < 0.0 ==> r == Err("lensSize must be greater than 0")
  {
    if zoomFactor < 1.0 then Err("zoomFactor must be greater than 1")
    else if lensSize < 0.0 then Err("lensSize must be greater than 0")
    else Ok(())
  }

  /** `currentPosition`: the `position` prop when static, else the default
      position while the pointer is away, else the tracked pointer. */
  function CurrentPosition(props: LensProps, isHovering: bool, mousePosition: Position): (p: Position)
    ensures props.isStatic ==> p == props.position
    ensures !props.isStatic && props.defaultPosition.Some? && !isHovering ==> p == props.defaultPosition.value
    ensures !props.isStatic && (props.defaultPosition.None? || isHovering) ==> p == mousePosition
  {
    if props.isStatic then props.position
    else if props.defaultPosition.Some? && !isHovering then props.defaultPosition.value
    else mousePosition
  }

  /** Whether the lens content is drawn: always when static or given a default
      position, otherwise only while hovering. */
  function LensShown(props: LensProps, isHovering: bool): (shown: bool)
    ensures !isHovering ==> (shown <==> props.isStatic || props.defaultPosition.Some?)
    ensures isHovering ==> shown
  {
    props.isStatic || props.defaultPosition.Some? || isHovering
  }

  /** What the drawn lens is: the zoomed copy of the content, scaled by
      `zoomFactor` around the current position and clipped to a circle of
      radius `lensSize / 2` centred there. */
  datatype LensView = LensView(center: Position, radius: real, scale: real)

  function View(props: LensProps, isHovering: bool, mousePosition: Position): (v: Option<LensView>)
    ensures v.Some? <==> LensShown(props, isHovering)
    ensures v.Some? ==> v.value.center == CurrentPosition(props, isHovering, mousePosition)
    ensures v.Some? ==> 2.0 * v.value.radius == props.lensSize && v.value.scale == props.zoomFactor
  {
    if LensShown(props, isHovering) then
      Some(LensView(CurrentPosition(props, isHovering, mousePosition), props.lensSize / 2.0, props.zoomFactor))
    else None
  }

  /** A lens that passed validation never shrinks the content and never has a
      negative radius. */
  lemma ValidView(props: LensProps, isHovering: bool, mousePosition: Position)
    requires Validate(props.zoomFactor, props.lensSize).Ok?
    requires View(props, isHovering, mousePosition).Some?
    ensures View(props, isHovering, mousePosition).value.radius >= 0.0
    ensures View(props, isHovering, mousePosition).value.scale >= 1.0
  {
  }

  /** A lens with every prop left at its default passes validation, is hidden
      until hovered, and then draws a circle of radius 75 at the pointer,
      magnified 1.5 times. */
  lemma DefaultLens(mousePosition: Position)
    ensures Validate(DefaultProps.zoomFactor, DefaultProps.lensSize).Ok?
    ensures View(DefaultProps, false, mousePosition).None?
    ensures View(DefaultProps, true, mousePosition) == Some(LensView(mousePosition, 75.0, 1.5))
  {
  }

  /** A lens shown without hovering sits still: it is at the `position` prop
      or the default position, whatever the pointer did. */
  lemma IdleLensIgnoresPointer(props: LensProps, m1: Position, m2: Position)
    requires LensShown(props, false)
    ensures CurrentPosition(props, false, m1) == CurrentPosition(props, false, m2)
    ensures CurrentPosition(props, false, m1) ==
      if props.isStatic then props.position else props.defaultPosition.value
  {
  }

  /** A mounted lens: its props and the `isHovering` and `mousePosition` state. */
  class Lens {
    const props: LensProps
    var isHovering: bool
    var mousePosition: Position

    /** Mounting a lens whose props pass validation: not hovering, and the
        tracked pointer starts at the `position` prop. */
    constructor(props: LensProps)
      requires Validate(props.zoomFactor, props.lensSize).Ok?
      ensures this.props == props && !isHovering && mousePosition == props.position
    {
      this.props := props;
      isHovering := false;
      mousePosition := props.position;
    }

    /** The point the lens follows now. */
    function Current(): Position
      reads this
    {
      CurrentPosition(props, isHovering, mousePosition)
    }

    /** What is drawn now. */
    function Shown(): Option<LensView>
      reads this
    {
      View(props, isHovering, mousePosition)
    }

    /** `onMouseEnter`. */
    method MouseEnter()
      modifies this
      ensures isHovering && mousePosition == old(mousePosition)
      ensures Shown().Some? && (!props.isStatic ==> Current() == mousePosition)
    {
      isHovering := true;
    }

    /** `onMouseLeave`. */
    method MouseLeave()
      modifies this
      ensures !isHovering && mousePosition == old(mousePosition)
      ensures Shown().Some? <==> props.isStatic || props.defaultPosition.Some?
    {
      isHovering := false;
    }

    /** `handleKeyDown`: Escape stops hovering, any other key does nothing. */
    method KeyDown(key: string)
      modifies this
      ensures isHovering == (old(isHovering) && key != "Escape")
      ensures mousePosition == old(mousePosition)
    {
      if key == "Escape" {
        isHovering := false;
      }
    }

    /** `handleMouseMove`: the pointer relative to the container's corner. */
    method MouseMove(clientX: real, clientY: real, rectLeft: real, rectTop: real)
      modifies this
      ensures mousePosition == Position(clientX - rectLeft, clientY - rectTop)
      ensures isHovering == old(isHovering)
      ensures !props.isStatic && isHovering ==> Current() == Position(clientX - rectLeft, clientY - rectTop)
    {
      mousePosition := Position(clientX - rectLeft, clientY - rectTop);
    }
  }

  /** A lens that is mounted, entered and moved over follows the pointer
      unless it is static, and the static lens stays on its `position`. */
  method EnterAndMove(props: LensProps, clientX: real, clientY: real, rectLeft: real, rectTop: real)
    returns (at: Position)
    requires Validate(props.zoomFactor, props.lensSize).Ok?
    ensures props.isStatic ==> at == props.position
    ensures !props.isStatic ==> at == Position(clientX - rectLeft, clientY - rectTop)
  {
    var lens := new Lens(props);
    lens.MouseEnter();
    lens.MouseMove(clientX, clientY, rectLeft, rectTop);
    at := lens.Current();
  }
}
