/**
 * The desktop pet: a small draggable, resizable figure that wobbles like a
 * spring when poked on its top half, is dragged by its bottom half, and
 * starts crying after three pokes that follow each other within three
 * seconds. Time is explicit: `clock` is the current time in milliseconds,
 * pending `setTimeout` callbacks are kept as deadlines, and pending
 * `requestAnimationFrame` callbacks as handles that the environment fires.
 */
module DesktopPet {
  import opened Wrappers
  import opened Text

  // physicsConfig and the other constants of the composable
  const Sticky: real := 0.05
  const MaxR: real := 60.0
  const MaxY: real := 110.0
  const Cut: real := 0.1
  const PokeWindow: nat := 3000
  const PokeLimit: nat := 3
  const SettleDelay: nat := 300
  const MountDelay: nat := 1000
  const MinSide: real := 50.0
  const FirstHandle: nat := 1

  function Min(a: real, b: real): real { if a <= b then a else b }
  function Max(a: real, b: real): real { if a >= b then a else b }
  function Abs(a: real): real { if a < 0.0 then -a else a }

  /** `Math.max(lo, Math.min(hi, v))`. */
  function Clamp(lo: real, hi: real, v: real): (r: real)
    ensures lo <= hi ==> lo <= r <= hi
    ensures lo <= v <= hi ==> r == v
    ensures hi < lo ==> r == lo
  {
    Max(lo, Min(hi, v))
  }

  datatype Point = Point(x: real, y: real)
  datatype Size = Size(width: real, height: real)
  datatype Viewport = Viewport(innerWidth: real, innerHeight: real)
  /** The part of `getBoundingClientRect()` the handlers read. */
  datatype Rect = Rect(left: real, top: real, height: real)
  datatype TouchPoint = TouchPoint(clientX: real, clientY: real, pageX: real, pageY: real)
  /** A mouse or touch event: its `type`, its coordinates and its `touches`. */
  datatype PointerEvent = PointerEvent(kind: string, clientX: real, clientY: real, pageX: real, pageY: real, touches: seq<TouchPoint>)

  /** `petState` without the constant `originRotate`. */
  datatype Spring = Spring(r: real, y: real, t: real, w: real, running: bool)
  /** The values one physics step produces; the integration itself is outside the model. */
  datatype Step = Step(r: real, y: real, t: real, w: real)

  /** The element's inline `transform`. */
  datatype Transform = Unset | NoTransform | Pose(rotate: real, translateY: real) | Shake(rotate: real)

  /** A drag target clamped so the pet stays inside the window. */
  function ClampIntoView(target: Point, size: Size, vp: Viewport): (p: Point)
    ensures size.width <= vp.innerWidth ==> 0.0 <= p.x <= vp.innerWidth - size.width
    ensures size.height <= vp.innerHeight ==> 0.0 <= p.y <= vp.innerHeight - size.height
    ensures 0.0 <= target.x <= vp.innerWidth - size.width ==> p.x == target.x
    ensures 0.0 <= target.y <= vp.innerHeight - size.height ==> p.y == target.y
    ensures size.width > vp.innerWidth ==> p.x == 0.0
    ensures size.height > vp.innerHeight ==> p.y == 0.0
  {
    Point(Clamp(0.0, vp.innerWidth - size.width, target.x), Clamp(0.0, vp.innerHeight - size.height, target.y))
  }

  /** Position and size, and the state of a mouse drag or resize. */
  datatype Layout = Layout(
    position: Point, size: Size,
    dragging: bool, dragOffset: Point,
    resizing: bool, resizeStart: Point, originalSize: Size)

  /** The spring and its animation frames. */
  datatype Anim = Anim(
    spring: Spring,
    frameId: Option<nat>,          // animationFrameId
    springFrames: set<nat>,        // pending physics frames
    nextHandle: nat)               // the handle the next requestAnimationFrame returns

  /** Crying and the poke counter behind it. */
  datatype Mood = Mood(
    crying: bool,
    interactCount: nat,
    pokeDeadline: Option<int>,     // the pending resetInteractCount timeout
    shakeScheduled: bool)          // a crying-shake frame is pending

  /** The document listeners of a poke or a touch drag in progress, with their start points. */
  datatype Gestures = Gestures(mousePoke: Option<Point>, touchPoke: Option<Point>, touchDrag: Option<Point>)

  datatype Pet = Pet(
    layout: Layout,
    anim: Anim,
    mood: Mood,
    gestures: Gestures,
    settleDeadlines: seq<int>,     // pending timeouts set by stopCrying
    mountDeadline: Option<int>,    // the pending initial-wobble timeout
    transform: Transform,
    clock: int,
    mounted: bool)

  /** Setup and mount at time `now` in a window of the given size. */
  function Initial(vp: Viewport, now: int): Pet {
    Pet(Layout(Point(vp.innerWidth - 200.0, vp.innerHeight - 200.0), Size(150.0, 150.0),
               false, Point(0.0, 0.0), false, Point(0.0, 0.0), Size(0.0, 0.0)),
        Anim(Spring(12.0, 2.0, 0.0, 0.0, false), None, {}, FirstHandle),
        Mood(false, 0, None, false),
        Gestures(None, None, None),
        [], Some(now + MountDelay), Unset, now, true)
  }

  /**
   * `isBottomHalf`: whether the pointer (a mouse event's own position, else the
   * first touch's) lies strictly below the element's middle line; `None` when a
   * non-mouse event has no touch and the lookup throws.
   */
  function IsBottomHalf(e: PointerEvent, rect: Rect): (r: Option<bool>)
    ensures r.None? <==> !Contains(e.kind, "mouse") && |e.touches| == 0
    ensures r.Some? && Contains(e.kind, "mouse") ==> (r.value <==> 2.0 * (e.clientY - rect.top) > rect.height)
    ensures r.Some? && !Contains(e.kind, "mouse") ==> (r.value <==> 2.0 * (e.touches[0].clientY - rect.top) > rect.height)
  {
    if Contains(e.kind, "mouse") then Some(e.clientY - rect.top > rect.height / 2.0)
    else if |e.touches| > 0 then Some(e.touches[0].clientY - rect.top > rect.height / 2.0)
    else None
  }

  // ---------------------------------------------------------------- the spring

  /** `requestAnimationFrame(() => runPhysics(element))`. */
  function Schedule(a: Anim): Anim {
    a.(frameId := Some(a.nextHandle), springFrames := a.springFrames + {a.nextHandle}, nextHandle := a.nextHandle + 1)
  }

  /** `stopRun` on the spring: stop it and cancel the frame `animationFrameId` names. */
  function Halt(a: Anim): Anim {
    a.(spring := a.spring.(running := false), frameId := None,
       springFrames := if a.frameId.Some? then a.springFrames - {a.frameId.value} else a.springFrames)
  }

  function StopRun(s: Pet): Pet {
    s.(anim := Halt(s.anim))
  }

  /** `startRun` on the spring: unless it runs already or the pet cries, mark it running and ask for a frame. */
  function Start(a: Anim, crying: bool): Anim {
    if a.spring.running || crying then a
    else Schedule(a.(spring := a.spring.(running := true)))
  }

  function StartRun(s: Pet): Pet {
    s.(anim := Start(s.anim, s.mood.crying))
  }

  /** `movePet`: pull the spring to a clamped displacement, stopped, and show it. */
  function MovePet(s: Pet, x: real, y: real): Pet {
    if s.mood.crying then s
    else
      var sp := Spring(Clamp(-MaxR, MaxR, x * Sticky), Clamp(-MaxY, MaxY, y * Sticky * 2.0), 0.0, 0.0, false);
      s.(anim := s.anim.(spring := sp), transform := Pose(sp.r, sp.y))
  }

  /** The stop rule of `runPhysics`: every value within `cut` of zero. */
  predicate Settled(sp: Spring) {
    Max(Max(Abs(sp.w), Abs(sp.r)), Max(Abs(sp.t), Abs(sp.y))) < Cut
  }

  /** Physics frame `id` fires, with `step` the values its integration step computes. */
  function SpringFrame(s: Pet, id: nat, step: Step): Pet {
    if id !in s.anim.springFrames then s
    else
      var a := s.anim.(springFrames := s.anim.springFrames - {id});
      if !a.spring.running || s.mood.crying then s.(anim := a)
      else
        var moved := Spring(step.r, step.y, step.t, step.w, true);
        if Settled(moved) then s.(anim := a.(spring := moved.(running := false)))
        else s.(anim := Schedule(a.(spring := moved)), transform := Pose(moved.r, moved.y))
  }

  // ---------------------------------------------------------------- crying

  /** The shake angle at time `now`: `((now % 200) / 100 - 1) * 15` degrees. */
  function ShakeAngle(now: int): real {
    ((now % 200) as real / 100.0 - 1.0) * 15.0
  }

  /** `cryingShake`: show the angle for now and ask for the next frame. */
  function CryingShake(s: Pet): Pet {
    if !s.mood.crying then s
    else s.(transform := Shake(ShakeAngle(s.clock)), mood := s.mood.(shakeScheduled := true))
  }

  function ShakeFrame(s: Pet): Pet {
    if !s.mood.shakeScheduled then s else CryingShake(s.(mood := s.mood.(shakeScheduled := false)))
  }

  function ResetInteractCount(s: Pet): Pet {
    s.(mood := s.mood.(interactCount := 0, pokeDeadline := None))
  }

  function TriggerCrying(s: Pet): Pet {
    if s.mood.crying then s
    else
      var stopped := s.(anim := Halt(s.anim), mood := Mood(true, 0, None, false));
      CryingShake(stopped)
  }

  function StopCrying(s: Pet): Pet {
    if !s.mood.crying then s
    else s.(mood := s.mood.(crying := false, shakeScheduled := false), transform := NoTransform,
            settleDeadlines := s.settleDeadlines + [s.clock + SettleDelay])
  }

  /** The timeout `stopCrying` sets, as written: `running` is set before `startRun`, which then returns at once. */
  function Settle(s: Pet): Pet {
    s.(anim := SettleAnim(s.anim, s.mood.crying, false))
  }

  /** The same timeout without the early `running = true`, so `startRun` schedules the wobble. */
  function SettleIntended(s: Pet): Pet {
    s.(anim := SettleAnim(s.anim, s.mood.crying, true))
  }

  /** The settle callback on the spring; `intended` leaves out the early `running = true`. */
  function SettleAnim(a: Anim, crying: bool, intended: bool): Anim {
    var sp := a.spring.(r := 5.0, y := 3.0);
    Start(a.(spring := if intended then sp else sp.(running := true)), crying)
  }

  /** The timeout set at mount: start the wobble when the element is there and not crying. */
  function MountTimer(s: Pet): Pet {
    s.(mountDeadline := None, anim := MountAnim(s.anim, s.mounted, s.mood.crying))
  }

  function MountAnim(a: Anim, mounted: bool, crying: bool): Anim {
    if mounted && !crying then Start(a, crying) else a
  }

  // ---------------------------------------------------------------- pointer input

  /** The result of a handler that may call `playAudio`. */
  datatype Reaction = Reaction(pet: Pet, played: bool)

  /** One more poke, with the reset timer restarted from now. */
  function CountPoke(s: Pet): Pet {
    s.(mood := s.mood.(interactCount := s.mood.interactCount + 1, pokeDeadline := Some(s.clock + PokeWindow)))
  }

  /** `startDrag`; a throwing `isBottomHalf` leaves the state as it was. */
  function StartDrag(s: Pet, e: PointerEvent, rect: Rect): Pet {
    if s.mood.crying then s
    else match IsBottomHalf(e, rect)
      case None => s
      case Some(bottom) =>
        var s1 := if bottom then StopRun(s) else s;
        if s1.layout.resizing then s1
        else s1.(layout := s1.layout.(dragging := true,
                   dragOffset := Point(e.clientX - s1.layout.position.x, e.clientY - s1.layout.position.y)))
  }

  function StartTopHalfInteraction(s: Pet, e: PointerEvent, hasAudio: bool): Reaction {
    if s.mood.crying then Reaction(s, false)
    else
      var s1 := CountPoke(s);
      if s1.mood.interactCount >= PokeLimit then Reaction(TriggerCrying(s1), false)
      else Reaction(s1.(gestures := s1.gestures.(mousePoke := Some(Point(e.pageX, e.pageY)))), hasAudio)
  }

  /** The `mousemove` listener of a top-half poke. */
  function PokeMove(s: Pet, e: PointerEvent): Pet {
    match s.gestures.mousePoke
    case None => s
    case Some(start) =>
      if s.mood.crying then s.(gestures := s.gestures.(mousePoke := None))
      else MovePet(s, e.pageX - start.x, e.pageY - start.y)
  }

  /** The `mouseup` listener of a top-half poke. */
  function PokeRelease(s: Pet): Pet {
    if s.gestures.mousePoke.None? then s
    else
      var s1 := s.(gestures := s.gestures.(mousePoke := None));
      if s1.mood.crying then s1 else StartRun(s1)
  }

  function HandleTouchStart(s: Pet, e: PointerEvent, rect: Rect, isBottom: bool, hasAudio: bool): Reaction {
    if s.mood.crying || |e.touches| == 0 then Reaction(s, false)
    else
      var touch := e.touches[0];
      if isBottom then
        Reaction(s.(anim := Halt(s.anim), gestures := s.gestures.(touchDrag := Some(Point(touch.clientX - rect.left, touch.clientY - rect.top)))), false)
      else
        var s1 := CountPoke(s);
        if s1.mood.interactCount >= PokeLimit then Reaction(TriggerCrying(s1), false)
        else Reaction(s1.(gestures := s1.gestures.(touchPoke := Some(Point(touch.pageX, touch.pageY)))), hasAudio)
  }

  /** The `touchmove` listener of a bottom-half drag. */
  function TouchDragMove(s: Pet, e: PointerEvent, vp: Viewport): Pet {
    match s.gestures.touchDrag
    case None => s
    case Some(start) =>
      if s.mood.crying || |e.touches| == 0 then s.(gestures := s.gestures.(touchDrag := None))
      else
        var touch := e.touches[0];
        s.(layout := s.layout.(position := ClampIntoView(Point(touch.clientX - start.x, touch.clientY - start.y), s.layout.size, vp)),
           transform := NoTransform)
  }

  function TouchDragEnd(s: Pet): Pet {
    s.(gestures := s.gestures.(touchDrag := None))
  }

  /** The `touchmove` listener of a top-half poke. */
  function TouchPokeMove(s: Pet, e: PointerEvent): Pet {
    match s.gestures.touchPoke
    case None => s
    case Some(start) =>
      if s.mood.crying || |e.touches| == 0 then s.(gestures := s.gestures.(touchPoke := None))
      else MovePet(s, e.touches[0].pageX - start.x, e.touches[0].pageY - start.y)
  }

  function TouchPokeEnd(s: Pet): Pet {
    if s.gestures.touchPoke.None? then s
    else
      var s1 := s.(gestures := s.gestures.(touchPoke := None));
      if s1.mood.crying then s1 else StartRun(s1)
  }

  /** `handleMouseMove`: follow the pointer, clamped into the window. */
  function HandleMouseMove(s: Pet, e: PointerEvent, vp: Viewport): Pet {
    if !s.layout.dragging || s.mood.crying then s
    else
      var target := Point(e.clientX - s.layout.dragOffset.x, e.clientY - s.layout.dragOffset.y);
      s.(layout := s.layout.(position := ClampIntoView(target, s.layout.size, vp)), transform := NoTransform)
  }

  /** `handleResizeMove`: at least 50 each way, then no further than the window's edge. */
  function HandleResizeMove(s: Pet, e: PointerEvent, vp: Viewport): Pet {
    if !s.layout.resizing || s.mood.crying then s
    else
      var l := s.layout;
      var newWidth := Max(MinSide, l.originalSize.width + (e.clientX - l.resizeStart.x));
      var newHeight := Max(MinSide, l.originalSize.height + (e.clientY - l.resizeStart.y));
      s.(layout := l.(size := Size(Min(newWidth, vp.innerWidth - l.position.x), Min(newHeight, vp.innerHeight - l.position.y))))
  }

  function StartResize(s: Pet, e: PointerEvent): Pet {
    if s.mood.crying then s
    else s.(layout := s.layout.(resizing := true, resizeStart := Point(e.clientX, e.clientY), originalSize := s.layout.size))
  }

  function StopDrag(s: Pet): Pet {
    if !s.layout.dragging then s else s.(layout := s.layout.(dragging := false))
  }

  function StopResize(s: Pet): Pet {
    if !s.layout.resizing then s else s.(layout := s.layout.(resizing := false))
  }

  /** `handleResize`: pull the pet back so its far edges are inside the window. */
  function HandleResize(s: Pet, vp: Viewport): Pet {
    var l := s.layout;
    s.(layout := l.(position := Point(Min(l.position.x, vp.innerWidth - l.size.width), Min(l.position.y, vp.innerHeight - l.size.height))))
  }

  function Unmount(s: Pet): Pet {
    s.(anim := Halt(s.anim), mood := Mood(false, 0, None, false), mounted := false)
  }

  /** Unmount clearing every timer it owns, as its comment says it does. */
  function UnmountIntended(s: Pet): Pet {
    Unmount(s).(settleDeadlines := [], mountDeadline := None)
  }

  // ---------------------------------------------------------------- time

  /** The deadlines still in the future at `now`, in order. */
  function Pending(ds: seq<int>, now: int): (r: seq<int>)
    ensures forall i :: 0 <= i < |r| ==> r[i] > now
    ensures forall i :: 0 <= i < |ds| && ds[i] > now ==> ds[i] in r
    ensures forall x :: x in r ==> x in ds
  {
    if ds == [] then [] else (if ds[0] > now then [ds[0]] else []) + Pending(ds[1..], now)
  }

  /** No deadline in `ds` comes before `t`. */
  predicate NoneBefore(ds: seq<int>, t: int) {
    forall i | 0 <= i < |ds| :: t <= ds[i]
  }

  predicate AnyDue(ds: seq<int>, now: int) {
    exists i | 0 <= i < |ds| :: ds[i] <= now
  }

  /** The poke reset, if its deadline has come. */
  function FirePokeReset(s: Pet, now: int): Pet {
    if s.mood.pokeDeadline.Some? && s.mood.pokeDeadline.value <= now then ResetInteractCount(s) else s
  }

  /**
   * The mount and settle timeouts that are due at `now`, in order of deadline
   * (the mount timeout first on a tie, since it was set first). The settle
   * callbacks of several `stopCrying` calls fire as one, which is exact
   * because a settle is idempotent (`SettleIdempotent`). `intended` selects
   * the corrected settle callback.
   */
  function FireTimeouts(s: Pet, now: int, intended: bool): Pet {
    var mountDue := s.mountDeadline.Some? && s.mountDeadline.value <= now;
    var mountFirst := mountDue && NoneBefore(s.settleDeadlines, s.mountDeadline.value);
    var a2 := if mountFirst then MountAnim(s.anim, s.mounted, s.mood.crying) else s.anim;
    var a3 := if AnyDue(s.settleDeadlines, now) then SettleAnim(a2, s.mood.crying, intended) else a2;
    var a4 := if mountDue && !mountFirst then MountAnim(a3, s.mounted, s.mood.crying) else a3;
    s.(anim := a4, mountDeadline := if mountDue then None else s.mountDeadline,
       settleDeadlines := Pending(s.settleDeadlines, now))
  }

  /** `dt` milliseconds pass and every timeout that falls due fires. */
  function Advance(s: Pet, dt: nat, intended: bool): Pet {
    var now := s.clock + dt;
    FireTimeouts(FirePokeReset(s, now), now, intended).(clock := now)
  }

  function Tick(s: Pet, dt: nat): Pet {
    Advance(s, dt, false)
  }

  function TickIntended(s: Pet, dt: nat): Pet {
    Advance(s, dt, true)
  }

  // ---------------------------------------------------------------- events and invariants

  /** The frame callbacks and the calls that start, stop or end the spring and the crying. */
  datatype SpringEvent =
    | SpringFrameFires(id: nat, step: Step)
    | ShakeFrameFires
    | StopRunCalled
    | TriggerCryingCalled
    | StopCryingCalled

  /** The press and release handlers bound on the pet itself. */
  datatype PressEvent =
    | StartDragCalled(e: PointerEvent, rect: Rect)
    | StartResizeCalled(e: PointerEvent)
    | TopHalfCalled(e: PointerEvent, hasAudio: bool)
    | TouchStartCalled(e: PointerEvent, rect: Rect, isBottom: bool, hasAudio: bool)
    | StopDragCalled
    | StopResizeCalled

  /** The document listeners a poke or a touch gesture installs. */
  datatype GestureEvent =
    | PokeMoved(e: PointerEvent)
    | PokeReleased
    | TouchDragMoved(e: PointerEvent, vp: Viewport)
    | TouchDragEnded
    | TouchPokeMoved(e: PointerEvent)
    | TouchPokeEnded

  /** The mouse-move and window-resize listeners bound at mount. */
  datatype MoveEvent =
    | DragMoved(e: PointerEvent, vp: Viewport)
    | ResizeMoved(e: PointerEvent, vp: Viewport)
    | WindowResized(vp: Viewport)

  /** Everything that can happen to the pet: a handler call, a frame, or time passing. */
  datatype Event =
    | Elapse(dt: nat)
    | OnSpring(spring: SpringEvent)
    | OnPress(press: PressEvent)
    | OnGesture(gesture: GestureEvent)
    | OnMove(move: MoveEvent)
    | Unmounted

  function ApplySpring(s: Pet, ev: SpringEvent): Pet {
    match ev
    case SpringFrameFires(id, step) => SpringFrame(s, id, step)
    case ShakeFrameFires => ShakeFrame(s)
    case StopRunCalled => StopRun(s)
    case TriggerCryingCalled => TriggerCrying(s)
    case StopCryingCalled => StopCrying(s)
  }

  function ApplyPress(s: Pet, ev: PressEvent): Pet {
    match ev
    case StartDragCalled(e, rect) => StartDrag(s, e, rect)
    case StartResizeCalled(e) => StartResize(s, e)
    case TopHalfCalled(e, hasAudio) => StartTopHalfInteraction(s, e, hasAudio).pet
    case TouchStartCalled(e, rect, isBottom, hasAudio) => HandleTouchStart(s, e, rect, isBottom, hasAudio).pet
    case StopDragCalled => StopDrag(s)
    case StopResizeCalled => StopResize(s)
  }

  function ApplyGesture(s: Pet, ev: GestureEvent): Pet {
    match ev
    case PokeMoved(e) => PokeMove(s, e)
    case PokeReleased => PokeRelease(s)
    case TouchDragMoved(e, vp) => TouchDragMove(s, e, vp)
    case TouchDragEnded => TouchDragEnd(s)
    case TouchPokeMoved(e) => TouchPokeMove(s, e)
    case TouchPokeEnded => TouchPokeEnd(s)
  }

  function ApplyMove(s: Pet, ev: MoveEvent): Pet {
    match ev
    case DragMoved(e, vp) => HandleMouseMove(s, e, vp)
    case ResizeMoved(e, vp) => HandleResizeMove(s, e, vp)
    case WindowResized(vp) => HandleResize(s, vp)
  }

  function Apply(s: Pet, ev: Event, intended: bool): Pet {
    match ev
    case Elapse(dt) => Advance(s, dt, intended)
    case OnSpring(e) => ApplySpring(s, e)
    case OnPress(e) => ApplyPress(s, e)
    case OnGesture(e) => ApplyGesture(s, e)
    case OnMove(e) => ApplyMove(s, e)
    case Unmounted => if intended then UnmountIntended(s) else Unmount(s)
  }

  /** The poke counter stays below the limit, is backed by a pending reset, and is zero while crying. */
  predicate PokeInv(s: Pet) {
    && s.mood.interactCount < PokeLimit
    && (s.mood.interactCount > 0 ==> s.mood.pokeDeadline.Some?)
    && (s.mood.crying ==> s.mood.interactCount == 0)
  }

  /** A shake frame is pending exactly while the pet cries. */
  predicate ShakeInv(s: Pet) {
    s.mood.shakeScheduled <==> s.mood.crying
  }

  /** Every pending timeout lies in the future. */
  predicate TimersInv(s: Pet) {
    && (s.mood.pokeDeadline.Some? ==> s.mood.pokeDeadline.value > s.clock)
    && (s.mountDeadline.Some? ==> s.mountDeadline.value > s.clock)
    && AllAfter(s.settleDeadlines, s.clock)
  }

  predicate AllAfter(ds: seq<int>, now: int) {
    forall i :: 0 <= i < |ds| ==> ds[i] > now
  }

  /** Every frame handle handed out so far is below the next one, so a new handle is fresh. */
  predicate HandlesInv(s: Pet) {
    HandlesBelowNext(s.anim)
  }

  predicate HandlesBelowNext(a: Anim) {
    && (forall h | h in a.springFrames :: h < a.nextHandle)
    && (a.frameId.Some? ==> a.frameId.value < a.nextHandle)
  }

  predicate Inv(s: Pet) {
    PokeInv(s) && ShakeInv(s) && TimersInv(s) && HandlesInv(s)
  }

  /** While the spring runs a physics frame is pending for it, and the pet is not crying. */
  predicate SpringInv(s: Pet) {
    var a := s.anim;
    a.spring.running ==> a.frameId.Some? && a.frameId.value in a.springFrames && !s.mood.crying
  }

  lemma InitialInv(vp: Viewport, now: int)
    ensures Inv(Initial(vp, now)) && SpringInv(Initial(vp, now))
  {
  }

  /** The mount and settle timeouts touch only the spring, its frames and the timer list. */
  lemma FireTimeoutsFrame(s: Pet, now: int, intended: bool)
    ensures var r := FireTimeouts(s, now, intended);
      && r.layout == s.layout && r.mood == s.mood && r.gestures == s.gestures
      && r.transform == s.transform && r.clock == s.clock && r.mounted == s.mounted
      && r.settleDeadlines == Pending(s.settleDeadlines, now)
      && (r.mountDeadline.Some? ==> r.mountDeadline == s.mountDeadline && s.mountDeadline.value > now)
  {
  }

  /** What passing time does to the poke counter; nothing else of the mood or the layout changes. */
  lemma AdvancePokes(s: Pet, dt: nat, intended: bool)
    ensures var r := Advance(s, dt, intended);
      && r.clock == s.clock + dt && r.layout == s.layout && r.gestures == s.gestures
      && r.mood.crying == s.mood.crying && r.mood.shakeScheduled == s.mood.shakeScheduled
      && (s.mood.pokeDeadline.Some? && s.mood.pokeDeadline.value <= s.clock + dt ==> r.mood.interactCount == 0 && r.mood.pokeDeadline.None?)
      && (s.mood.pokeDeadline.None? || s.mood.pokeDeadline.value > s.clock + dt ==> r.mood == s.mood)
  {
    FireTimeoutsFrame(FirePokeReset(s, s.clock + dt), s.clock + dt, intended);
  }

  /** The timeout callbacks on the spring hand out only fresh frame handles. */
  lemma TimerAnimsKeepHandles(a: Anim, mounted: bool, crying: bool, intended: bool)
    requires HandlesBelowNext(a)
    ensures HandlesBelowNext(MountAnim(a, mounted, crying)) && HandlesBelowNext(SettleAnim(a, crying, intended))
  {
  }

  lemma FireTimeoutsKeepsHandles(s: Pet, now: int, intended: bool)
    requires HandlesInv(s)
    ensures HandlesInv(FireTimeouts(s, now, intended))
  {
    var mountDue := s.mountDeadline.Some? && s.mountDeadline.value <= now;
    var mountFirst := mountDue && NoneBefore(s.settleDeadlines, s.mountDeadline.value);
    var a2 := if mountFirst then MountAnim(s.anim, s.mounted, s.mood.crying) else s.anim;
    TimerAnimsKeepHandles(s.anim, s.mounted, s.mood.crying, intended);
    var a3 := if AnyDue(s.settleDeadlines, now) then SettleAnim(a2, s.mood.crying, intended) else a2;
    TimerAnimsKeepHandles(a2, s.mounted, s.mood.crying, intended);
    TimerAnimsKeepHandles(a3, s.mounted, s.mood.crying, intended);
  }

  lemma AdvanceKeepsInv(s: Pet, dt: nat, intended: bool)
    requires Inv(s)
    ensures Inv(Advance(s, dt, intended))
  {
    var now := s.clock + dt;
    var s1 := FirePokeReset(s, now);
    var r := Advance(s, dt, intended);
    AdvancePokes(s, dt, intended);
    assert PokeInv(r) && ShakeInv(r);
    FireTimeoutsFrame(s1, now, intended);
    assert AllAfter(r.settleDeadlines, now);
    FireTimeoutsKeepsHandles(s1, now, intended);
  }

  lemma PokeHandlersKeepInv(s: Pet, e: PointerEvent, rect: Rect, isBottom: bool, hasAudio: bool)
    requires Inv(s)
    ensures Inv(StartTopHalfInteraction(s, e, hasAudio).pet)
    ensures Inv(HandleTouchStart(s, e, rect, isBottom, hasAudio).pet)
  {
  }

  /** The spring and shake frames and `stopRun` keep the invariants. */
  lemma FrameHandlersKeepInv(s: Pet, id: nat, step: Step)
    requires Inv(s)
    ensures Inv(SpringFrame(s, id, step)) && Inv(ShakeFrame(s)) && Inv(StopRun(s))
  {
  }

  /** Starting and ending the crying keep the invariants. */
  lemma CryingHandlersKeepInv(s: Pet)
    requires Inv(s)
    ensures Inv(TriggerCrying(s)) && Inv(StopCrying(s))
  {
  }

  lemma StartDragKeepsInv(s: Pet, e: PointerEvent, rect: Rect)
    requires Inv(s)
    ensures Inv(StartDrag(s, e, rect))
  {
  }

  /** Starting, moving and ending a resize keep the invariants. */
  lemma ResizeHandlersKeepInv(s: Pet, e: PointerEvent, vp: Viewport)
    requires Inv(s)
    ensures Inv(StartResize(s, e)) && Inv(HandleResizeMove(s, e, vp)) && Inv(StopResize(s))
  {
  }

  /** Moving and ending a drag, and a window resize, keep the invariants. */
  lemma DragHandlersKeepInv(s: Pet, e: PointerEvent, vp: Viewport)
    requires Inv(s)
    ensures Inv(HandleMouseMove(s, e, vp)) && Inv(StopDrag(s)) && Inv(HandleResize(s, vp))
  {
  }

  /** The listeners of a mouse poke keep the invariants. */
  lemma PokeListenersKeepInv(s: Pet, e: PointerEvent)
    requires Inv(s)
    ensures Inv(PokeMove(s, e)) && Inv(PokeRelease(s))
  {
  }

  /** The listeners of a touch drag keep the invariants. */
  lemma TouchDragListenersKeepInv(s: Pet, e: PointerEvent, vp: Viewport)
    requires Inv(s)
    ensures Inv(TouchDragMove(s, e, vp)) && Inv(TouchDragEnd(s))
  {
  }

  /** The listeners of a touch poke keep the invariants. */
  lemma TouchPokeListenersKeepInv(s: Pet, e: PointerEvent)
    requires Inv(s)
    ensures Inv(TouchPokeMove(s, e)) && Inv(TouchPokeEnd(s))
  {
  }

  lemma UnmountKeepsInv(s: Pet)
    requires Inv(s)
    ensures Inv(Unmount(s)) && Inv(UnmountIntended(s))
  {
  }

  lemma SpringEventsKeepInv(s: Pet, ev: SpringEvent)
    requires Inv(s)
    ensures Inv(ApplySpring(s, ev))
  {
    match ev
    case SpringFrameFires(id, step) => FrameHandlersKeepInv(s, id, step);
    case ShakeFrameFires => FrameHandlersKeepInv(s, 0, Step(0.0, 0.0, 0.0, 0.0));
    case StopRunCalled => FrameHandlersKeepInv(s, 0, Step(0.0, 0.0, 0.0, 0.0));
    case TriggerCryingCalled => CryingHandlersKeepInv(s);
    case StopCryingCalled => CryingHandlersKeepInv(s);
  }

  lemma PressEventsKeepInv(s: Pet, ev: PressEvent)
    requires Inv(s)
    ensures Inv(ApplyPress(s, ev))
  {
    var vp0 := Viewport(0.0, 0.0);
    match ev
    case StartDragCalled(e, rect) => StartDragKeepsInv(s, e, rect);
    case StartResizeCalled(e) => ResizeHandlersKeepInv(s, e, vp0);
    case TopHalfCalled(e, hasAudio) => PokeHandlersKeepInv(s, e, Rect(0.0, 0.0, 0.0), false, hasAudio);
    case TouchStartCalled(e, rect, isBottom, hasAudio) => PokeHandlersKeepInv(s, e, rect, isBottom, hasAudio);
    case StopDragCalled => DragHandlersKeepInv(s, PointerEvent("", 0.0, 0.0, 0.0, 0.0, []), vp0);
    case StopResizeCalled => ResizeHandlersKeepInv(s, PointerEvent("", 0.0, 0.0, 0.0, 0.0, []), vp0);
  }

  lemma GestureEventsKeepInv(s: Pet, ev: GestureEvent)
    requires Inv(s)
    ensures Inv(ApplyGesture(s, ev))
  {
    var e0 := PointerEvent("", 0.0, 0.0, 0.0, 0.0, []);
    match ev
    case PokeMoved(e) => PokeListenersKeepInv(s, e);
    case PokeReleased => PokeListenersKeepInv(s, e0);
    case TouchDragMoved(e, vp) => TouchDragListenersKeepInv(s, e, vp);
    case TouchDragEnded => TouchDragListenersKeepInv(s, e0, Viewport(0.0, 0.0));
    case TouchPokeMoved(e) => TouchPokeListenersKeepInv(s, e);
    case TouchPokeEnded => TouchPokeListenersKeepInv(s, e0);
  }

  lemma MoveEventsKeepInv(s: Pet, ev: MoveEvent)
    requires Inv(s)
    ensures Inv(ApplyMove(s, ev))
  {
    match ev
    case DragMoved(e, vp) => DragHandlersKeepInv(s, e, vp);
    case ResizeMoved(e, vp) => ResizeHandlersKeepInv(s, e, vp);
    case WindowResized(vp) => DragHandlersKeepInv(s, PointerEvent("", 0.0, 0.0, 0.0, 0.0, []), vp);
  }

  /** Every event keeps the poke, shake, timer and handle invariants. */
  lemma EventsKeepInv(s: Pet, ev: Event, intended: bool)
    requires Inv(s)
    ensures Inv(Apply(s, ev, intended))
  {
    match ev
    case Elapse(dt) => AdvanceKeepsInv(s, dt, intended);
    case OnSpring(e) => SpringEventsKeepInv(s, e);
    case OnPress(e) => PressEventsKeepInv(s, e);
    case OnGesture(e) => GestureEventsKeepInv(s, e);
    case OnMove(e) => MoveEventsKeepInv(s, e);
    case Unmounted => UnmountKeepsInv(s);
  }

  /** With the corrected settle callback, passing time keeps the spring invariant. */
  lemma AdvanceIntendedKeepsSpringInv(s: Pet, dt: nat)
    requires Inv(s) && SpringInv(s)
    ensures SpringInv(Advance(s, dt, true))
  {
  }

  lemma SpringEventsKeepSpringInv(s: Pet, ev: SpringEvent)
    requires SpringInv(s)
    ensures SpringInv(ApplySpring(s, ev))
  {
  }

  lemma PressEventsKeepSpringInv(s: Pet, ev: PressEvent)
    requires SpringInv(s)
    ensures SpringInv(ApplyPress(s, ev))
  {
  }

  lemma ListenerEventsKeepSpringInv(s: Pet, g: GestureEvent, m: MoveEvent)
    requires SpringInv(s)
    ensures SpringInv(ApplyGesture(s, g)) && SpringInv(ApplyMove(s, m))
  {
  }

  /**
   * With the corrected settle callback every event keeps the spring
   * invariant: a running spring always has its next frame pending.
   */
  lemma IntendedEventsKeepSpringInv(s: Pet, ev: Event)
    requires Inv(s) && SpringInv(s)
    ensures SpringInv(Apply(s, ev, true))
  {
    match ev
    case Elapse(dt) => AdvanceIntendedKeepsSpringInv(s, dt);
    case OnSpring(e) => SpringEventsKeepSpringInv(s, e);
    case OnPress(e) => PressEventsKeepSpringInv(s, e);
    case OnGesture(e) => ListenerEventsKeepSpringInv(s, e, WindowResized(Viewport(0.0, 0.0)));
    case OnMove(e) => ListenerEventsKeepSpringInv(s, PokeReleased, e);
    case Unmounted =>
  }

  // ---------------------------------------------------------------- properties

  /** While crying, every interaction entry point leaves the pet untouched. */
  lemma CryingBlocksInteraction(s: Pet, e: PointerEvent, rect: Rect, vp: Viewport, isBottom: bool, hasAudio: bool, x: real, y: real)
    requires s.mood.crying
    ensures StartDrag(s, e, rect) == s && StartResize(s, e) == s
    ensures StartTopHalfInteraction(s, e, hasAudio) == Reaction(s, false)
    ensures HandleTouchStart(s, e, rect, isBottom, hasAudio) == Reaction(s, false)
    ensures MovePet(s, x, y) == s && StartRun(s) == s
    ensures HandleMouseMove(s, e, vp) == s && HandleResizeMove(s, e, vp) == s
  {
  }

  /**
   * A poke displacement becomes a stopped spring, tilted 0.05 degree per pixel
   * up to 60 degrees and lifted 0.1 pixel per pixel up to 110 pixels. A frame
   * already pending is not cancelled.
   */
  lemma MovePetClamps(s: Pet, x: real, y: real)
    requires !s.mood.crying
    ensures var m := MovePet(s, x, y); var sp := m.anim.spring;
      && -MaxR <= sp.r <= MaxR && -MaxY <= sp.y <= MaxY
      && sp.t == 0.0 && sp.w == 0.0 && !sp.running
      && (-1200.0 <= x <= 1200.0 ==> sp.r == x / 20.0)
      && (x >= 1200.0 ==> sp.r == MaxR) && (x <= -1200.0 ==> sp.r == -MaxR)
      && (-1100.0 <= y <= 1100.0 ==> sp.y == y / 10.0)
      && (y >= 1100.0 ==> sp.y == MaxY) && (y <= -1100.0 ==> sp.y == -MaxY)
      && m.transform == Pose(sp.r, sp.y)
      && m.anim.springFrames == s.anim.springFrames && m.anim.frameId == s.anim.frameId
  {
  }

  /** `stopRun` stops the spring and cancels its frame; `startRun` schedules exactly one fresh frame, once. */
  lemma RunControl(s: Pet)
    requires HandlesInv(s)
    ensures var h := StopRun(s);
      && !h.anim.spring.running && h.anim.frameId.None? && h.anim.springFrames <= s.anim.springFrames
      && (s.anim.frameId.Some? ==> s.anim.frameId.value !in h.anim.springFrames)
      && StopRun(h) == h
    ensures s.anim.spring.running || s.mood.crying ==> StartRun(s) == s
    ensures !s.anim.spring.running && !s.mood.crying ==>
      var r := StartRun(s);
      && r.anim.spring.running && r.anim.frameId == Some(s.anim.nextHandle)
      && s.anim.nextHandle !in s.anim.springFrames
      && r.anim.springFrames == s.anim.springFrames + {s.anim.nextHandle}
      && StartRun(r) == r && SpringInv(r)
  {
  }

  /**
   * A physics frame that is not pending does nothing; one that finds the
   * spring stopped or the pet crying ends the loop; otherwise the spring
   * either settles and stops, or is shown and asks for one more frame.
   */
  lemma SpringFrameCases(s: Pet, id: nat, step: Step)
    requires HandlesInv(s)
    ensures id !in s.anim.springFrames ==> SpringFrame(s, id, step) == s
    ensures id in s.anim.springFrames ==>
      var r := SpringFrame(s, id, step);
      && (id !in r.anim.springFrames)
      && (!s.anim.spring.running || s.mood.crying ==> r.anim.springFrames == s.anim.springFrames - {id} && r.anim.spring == s.anim.spring)
      && (s.anim.spring.running && !s.mood.crying && Settled(Spring(step.r, step.y, step.t, step.w, true)) ==>
            r.anim.spring == Spring(step.r, step.y, step.t, step.w, false) && r.anim.springFrames == s.anim.springFrames - {id})
      && (s.anim.spring.running && !s.mood.crying && !Settled(Spring(step.r, step.y, step.t, step.w, true)) ==>
            r.anim.spring == Spring(step.r, step.y, step.t, step.w, true) && r.transform == Pose(step.r, step.y)
            && r.anim.springFrames == s.anim.springFrames - {id} + {s.anim.nextHandle} && SpringInv(r))
  {
  }

  /** The crying shake swings between -15 and 14.85 degrees and repeats every 200 ms. */
  lemma ShakeAngleRange(now: int)
    ensures -15.0 <= ShakeAngle(now) <= 14.85
    ensures ShakeAngle(now + 200) == ShakeAngle(now)
  {
    assert (now + 200) % 200 == now % 200;
  }

  /** `triggerCrying` does nothing while the pet already cries, and `stopCrying` nothing while it does not. */
  lemma CryingGuards(s: Pet)
    ensures s.mood.crying ==> TriggerCrying(s) == s
    ensures !s.mood.crying ==> StopCrying(s) == s
  {
  }

  /**
   * Crying stops the spring, clears the counter and starts the shake; ending
   * it stops the shake, resets the transform and sets one 300 ms timeout.
   */
  lemma CryCycle(s: Pet)
    requires !s.mood.crying
    ensures var c := TriggerCrying(s);
      && c.mood == Mood(true, 0, None, true) && !c.anim.spring.running && c.anim.frameId.None?
      && c.transform == Shake(ShakeAngle(s.clock)) && c.layout == s.layout
    ensures var d := StopCrying(TriggerCrying(s));
      && d.mood == Mood(false, 0, None, false) && d.transform == NoTransform
      && d.settleDeadlines == s.settleDeadlines + [s.clock + SettleDelay]
  {
  }

  /**
   * Three top-half pokes, each less than three seconds after the one before,
   * make the pet cry: the first two play the sound, the third does not, and
   * the counter is back to zero.
   */
  lemma ThreeQuickPokesCry(s: Pet, e1: PointerEvent, e2: PointerEvent, e3: PointerEvent, d1: nat, d2: nat, hasAudio: bool)
    requires !s.mood.crying && s.mood.interactCount == 0
    requires d1 < PokeWindow && d2 < PokeWindow
    ensures var r1 := StartTopHalfInteraction(s, e1, hasAudio);
      var r2 := StartTopHalfInteraction(Tick(r1.pet, d1), e2, hasAudio);
      var r3 := StartTopHalfInteraction(Tick(r2.pet, d2), e3, hasAudio);
      && r1.played == hasAudio && r2.played == hasAudio && !r3.played
      && !r2.pet.mood.crying && r3.pet.mood.crying && r3.pet.mood.interactCount == 0
      && r3.pet.mood.shakeScheduled && !r3.pet.anim.spring.running
  {
    var r1 := StartTopHalfInteraction(s, e1, hasAudio);
    AdvancePokes(r1.pet, d1, false);
    var r2 := StartTopHalfInteraction(Tick(r1.pet, d1), e2, hasAudio);
    AdvancePokes(r2.pet, d2, false);
  }

  /**
   * The three-second window trails the latest poke: a second poke `d` ms
   * after the first keeps the count alive until `d` + 3000 ms after the
   * first, not 3000 ms.
   */
  lemma PokeWindowTrailsLastPoke(s: Pet, e: PointerEvent, d: nat, hasAudio: bool)
    requires !s.mood.crying && s.mood.interactCount == 1 && s.mood.pokeDeadline == Some(s.clock + PokeWindow)
    requires d < PokeWindow
    ensures var r := StartTopHalfInteraction(Tick(s, d), e, hasAudio).pet;
      && r.mood.interactCount == 2 && r.mood.pokeDeadline == Some(s.clock + d + PokeWindow)
      && Tick(r, PokeWindow - 1).mood.interactCount == 2
      && Tick(r, PokeWindow).mood.interactCount == 0
  {
    AdvancePokes(s, d, false);
    var r := StartTopHalfInteraction(Tick(s, d), e, hasAudio).pet;
    AdvancePokes(r, PokeWindow - 1, false);
    AdvancePokes(r, PokeWindow, false);
  }

  /** `n` top-half pokes, the `i`-th `gaps[i]` ms after what came before. */
  function PokeSeries(s: Pet, gaps: seq<nat>, e: PointerEvent, hasAudio: bool): Pet
    decreases |gaps|
  {
    if gaps == [] then s
    else PokeSeries(StartTopHalfInteraction(Tick(s, gaps[0]), e, hasAudio).pet, gaps[1..], e, hasAudio)
  }

  /** Not crying, and at most one poke counted, whose window ends within three seconds. */
  predicate Calm(s: Pet) {
    && !s.mood.crying && s.mood.interactCount <= 1
    && (s.mood.interactCount == 1 ==> s.mood.pokeDeadline.Some? && s.mood.pokeDeadline.value <= s.clock + PokeWindow)
  }

  lemma SpacedPokeStaysCalm(s: Pet, gap: nat, e: PointerEvent, hasAudio: bool)
    requires Calm(s) && gap >= PokeWindow
    ensures var r := StartTopHalfInteraction(Tick(s, gap), e, hasAudio);
      Calm(r.pet) && r.pet.mood.interactCount == 1 && r.played == hasAudio
  {
    AdvancePokes(s, gap, false);
  }

  /** Pokes at least three seconds apart never make the pet cry, however many there are. */
  lemma {:induction false} SpacedPokesNeverCry(s: Pet, gaps: seq<nat>, e: PointerEvent, hasAudio: bool)
    requires Calm(s)
    requires forall i :: 0 <= i < |gaps| ==> gaps[i] >= PokeWindow
    ensures Calm(PokeSeries(s, gaps, e, hasAudio)) && !PokeSeries(s, gaps, e, hasAudio).mood.crying
    decreases |gaps|
  {
    if gaps != [] {
      SpacedPokeStaysCalm(s, gaps[0], e, hasAudio);
      SpacedPokesNeverCry(StartTopHalfInteraction(Tick(s, gaps[0]), e, hasAudio).pet, gaps[1..], e, hasAudio);
    }
  }

  /** A mouse drag keeps the pet inside the window whenever it fits, and follows the pointer exactly inside it. */
  lemma DragStaysInView(s: Pet, e: PointerEvent, vp: Viewport)
    requires s.layout.dragging && !s.mood.crying
    ensures var l := HandleMouseMove(s, e, vp).layout; var z := s.layout.size;
      var target := Point(e.clientX - s.layout.dragOffset.x, e.clientY - s.layout.dragOffset.y);
      && l.size == z
      && (z.width <= vp.innerWidth ==> 0.0 <= l.position.x && l.position.x + z.width <= vp.innerWidth)
      && (z.height <= vp.innerHeight ==> 0.0 <= l.position.y && l.position.y + z.height <= vp.innerHeight)
      && (0.0 <= target.x <= vp.innerWidth - z.width ==> l.position.x == target.x)
      && (0.0 <= target.y <= vp.innerHeight - z.height ==> l.position.y == target.y)
  {
  }

  /**
   * A resize never reaches past the window's right or bottom edge, keeps the
   * 50-pixel minimum only where the window leaves room for it, and otherwise
   * follows the pointer.
   */
  lemma ResizeBounds(s: Pet, e: PointerEvent, vp: Viewport)
    requires s.layout.resizing && !s.mood.crying
    ensures var l := s.layout; var z := HandleResizeMove(s, e, vp).layout.size;
      var wantW := l.originalSize.width + (e.clientX - l.resizeStart.x);
      var wantH := l.originalSize.height + (e.clientY - l.resizeStart.y);
      && l.position.x + z.width <= vp.innerWidth && l.position.y + z.height <= vp.innerHeight
      && (vp.innerWidth - l.position.x >= MinSide ==> z.width >= MinSide)
      && (vp.innerHeight - l.position.y >= MinSide ==> z.height >= MinSide)
      && (MinSide <= wantW <= vp.innerWidth - l.position.x ==> z.width == wantW)
      && (MinSide <= wantH <= vp.innerHeight - l.position.y ==> z.height == wantH)
      && HandleResizeMove(s, e, vp).layout.position == l.position
  {
  }

  /** Near the window's edge the edge wins over the minimum: a resize can leave the pet 20 pixels wide. */
  lemma ResizeCanUndercutMinimum(vp: Viewport)
    requires vp.innerWidth == 1000.0 && vp.innerHeight == 800.0
    ensures var s0 := Initial(vp, 0);
      var s := s0.(layout := s0.layout.(position := Point(980.0, 0.0), resizing := true,
                    resizeStart := Point(0.0, 0.0), originalSize := Size(150.0, 150.0)));
      HandleResizeMove(s, PointerEvent("mousemove", 0.0, 0.0, 0.0, 0.0, []), vp).layout.size.width == 20.0
  {
  }

  /**
   * A window resize pulls the far edges back inside but has no lower bound:
   * a window narrower than the pet pushes it past the left edge.
   */
  lemma WindowResizeBounds(s: Pet, vp: Viewport)
    ensures var p := HandleResize(s, vp).layout.position; var l := s.layout;
      && p.x + l.size.width <= vp.innerWidth && p.y + l.size.height <= vp.innerHeight
      && (l.position.x + l.size.width <= vp.innerWidth ==> p.x == l.position.x)
      && (l.position.y + l.size.height <= vp.innerHeight ==> p.y == l.position.y)
      && (vp.innerWidth < l.size.width ==> p.x < 0.0)
  {
  }

  /** One settle callback or several in a row have the same effect. */
  lemma SettleIdempotent(s: Pet)
    ensures Settle(Settle(s)) == Settle(s)
    ensures SettleIntended(SettleIntended(s)) == SettleIntended(s)
  {
  }

  // ---------------------------------------------------------------- the settle timeout

  /**
   * As written, the settle callback marks the spring running before calling
   * `startRun`, which then returns at once: the spring is left running with
   * no new frame, and `startRun` does nothing until a `movePet` or `stopRun`
   * clears the flag; `stopRun` followed by `startRun` does schedule a frame.
   */
  lemma SettleLeavesSpringStalled(s: Pet)
    requires !s.mood.crying
    ensures var r := Settle(s);
      && r.anim.spring.running && r.anim.spring.r == 5.0 && r.anim.spring.y == 3.0
      && r.anim.springFrames == s.anim.springFrames && r.anim.frameId == s.anim.frameId
      && StartRun(r) == r
      && !MovePet(r, 0.0, 0.0).anim.spring.running
      && var t := StartRun(StopRun(r)); t.anim.spring.running && t.anim.frameId.Some? && t.anim.frameId.value in t.anim.springFrames
  {
  }

  /**
   * From the initial state: cry, stop crying, wait 300 ms. The spring is
   * marked running with no frame pending, against `SpringInv`, and the
   * initial-wobble timeout 700 ms later cannot start it either.
   */
  lemma CryingLeavesSpringStalled(vp: Viewport, now: int)
    ensures var s := Tick(StopCrying(TriggerCrying(Initial(vp, now))), SettleDelay);
      && s.anim.spring.running && s.anim.springFrames == {} && !SpringInv(s)
      && StartRun(s) == s
      && Tick(s, MountDelay - SettleDelay).anim.springFrames == {}
  {
  }

  /** The corrected callback resumes the wobble from r = 5, y = 3 with a frame pending. */
  lemma SettleIntendedResumesWobble(s: Pet)
    requires SpringInv(s) && !s.mood.crying
    ensures var r := SettleIntended(s);
      && r.anim.spring.running && r.anim.spring.r == 5.0 && r.anim.spring.y == 3.0 && SpringInv(r)
  {
  }

  lemma CryingThenSettleIntended(vp: Viewport, now: int)
    ensures var s := TickIntended(StopCrying(TriggerCrying(Initial(vp, now))), SettleDelay);
      && s.anim.spring.running && s.anim.frameId == Some(FirstHandle) && s.anim.springFrames == {FirstHandle} && SpringInv(s)
  {
  }

  // ---------------------------------------------------------------- unmount

  /** As written, a settle timeout set before unmount still fires after it and sets the spring running. */
  lemma UnmountLeavesSettleTimer(s: Pet, dt: nat)
    requires AnyDue(s.settleDeadlines, s.clock + dt)
    ensures var t := Tick(Unmount(s), dt);
      && !t.mounted && t.anim.spring.running && t.anim.spring.r == 5.0 && t.anim.spring.y == 3.0
      && t.anim.spring != Unmount(s).anim.spring
  {
    var u := Unmount(s);
    assert FirePokeReset(u, u.clock + dt) == u;
  }

  /** With every timer cleared, nothing happens after unmount however much time passes. */
  lemma UnmountIntendedIsQuiet(s: Pet, dt: nat, intended: bool)
    ensures Advance(UnmountIntended(s), dt, intended) == UnmountIntended(s).(clock := s.clock + dt)
  {
    var u := UnmountIntended(s);
    assert FirePokeReset(u, u.clock + dt) == u;
    assert !AnyDue(u.settleDeadlines, u.clock + dt);
  }
}
