/**
 * The desktop-pet composable as an object: its refs and closure variables
 * are fields, and each handler updates them in place. Every method is
 * proved to perform the transition of the same name in `DesktopPet`,
 * where the properties of those transitions are proved.
 */
module PetComposable {
  import opened Wrappers
  import opened DesktopPet

  class PetController {
    var petPosition: Point
    var petSize: Size
    var isDragging: bool
    var dragOffset: Point
    var isResizing: bool
    var resizeStart: Point
    var originalSize: Size
    var petState: Spring
    var animationFrameId: Option<nat>
    var pendingFrames: set<nat>
    var nextHandle: nat
    var isCrying: bool
    var interactCount: nat
    var interactTimer: Option<int>
    var cryingShakePending: bool
    var settleTimers: seq<int>
    var mountTimer: Option<int>
    var mousePoke: Option<Point>
    var touchPoke: Option<Point>
    var touchDrag: Option<Point>
    var transform: Transform
    var now: int
    var mounted: bool

    function Model(): Pet
      reads this
    {
      Pet(Layout(petPosition, petSize, isDragging, dragOffset, isResizing, resizeStart, originalSize),
          Anim(petState, animationFrameId, pendingFrames, nextHandle),
          Mood(isCrying, interactCount, interactTimer, cryingShakePending),
          Gestures(mousePoke, touchPoke, touchDrag),
          settleTimers, mountTimer, transform, now, mounted)
    }

    /** Setup and `onMounted` at time `start`. */
    constructor (vp: Viewport, start: int)
      ensures Model() == Initial(vp, start)
    {
      petPosition := Point(vp.innerWidth - 200.0, vp.innerHeight - 200.0);
      petSize := Size(150.0, 150.0);
      isDragging := false;
      dragOffset := Point(0.0, 0.0);
      isResizing := false;
      resizeStart := Point(0.0, 0.0);
      originalSize := Size(0.0, 0.0);
      petState := Spring(12.0, 2.0, 0.0, 0.0, false);
      animationFrameId := None;
      pendingFrames := {};
      nextHandle := FirstHandle;
      isCrying := false;
      interactCount := 0;
      interactTimer := None;
      cryingShakePending := false;
      settleTimers := [];
      mountTimer := Some(start + MountDelay);
      mousePoke, touchPoke, touchDrag := None, None, None;
      transform := Unset;
      now := start;
      mounted := true;
    }

    method RequestPhysicsFrame()
      modifies this
      ensures Model() == old(Model()).(anim := Schedule(old(Model()).anim))
    {
      animationFrameId := Some(nextHandle);
      pendingFrames := pendingFrames + {nextHandle};
      nextHandle := nextHandle + 1;
    }

    method StopRun()
      modifies this
      ensures Model() == DesktopPet.StopRun(old(Model()))
    {
      petState := petState.(running := false);
      if animationFrameId.Some? {
        pendingFrames := pendingFrames - {animationFrameId.value};
      }
      animationFrameId := None;
    }

    method StartRun()
      modifies this
      ensures Model() == DesktopPet.StartRun(old(Model()))
    {
      if petState.running || isCrying {
        return;
      }
      petState := petState.(running := true);
      RequestPhysicsFrame();
    }

    method UpdatePetStyle()
      modifies this
      ensures Model() == if old(isCrying) then old(Model()) else old(Model()).(transform := Pose(old(petState).r, old(petState).y))
    {
      if !isCrying {
        transform := Pose(petState.r, petState.y);
      }
    }

    method MovePet(x: real, y: real)
      modifies this
      ensures Model() == DesktopPet.MovePet(old(Model()), x, y)
    {
      if isCrying {
        return;
      }
      var r := Clamp(-MaxR, MaxR, x * Sticky);
      var dy := Clamp(-MaxY, MaxY, y * Sticky * 2.0);
      petState := petState.(r := r, y := dy, w := 0.0, t := 0.0, running := false);
      UpdatePetStyle();
    }

    /** The physics frame `id` fires; `step` is what its integration step computes. */
    method RunPhysics(id: nat, step: Step)
      modifies this
      ensures Model() == SpringFrame(old(Model()), id, step)
    {
      if id !in pendingFrames {
        return;
      }
      pendingFrames := pendingFrames - {id};
      if !petState.running || isCrying {
        return;
      }
      petState := petState.(w := step.w, r := step.r, t := step.t, y := step.y);
      if Settled(petState) {
        petState := petState.(running := false);
        return;
      }
      UpdatePetStyle();
      RequestPhysicsFrame();
    }

    method ResetInteractCount()
      modifies this
      ensures Model() == DesktopPet.ResetInteractCount(old(Model()))
    {
      interactCount := 0;
      interactTimer := None;
    }

    method CryingShake()
      modifies this
      ensures Model() == DesktopPet.CryingShake(old(Model()))
    {
      if !isCrying {
        return;
      }
      transform := Shake(ShakeAngle(now));
      cryingShakePending := true;
    }

    /** The pending crying-shake frame fires. */
    method CryingShakeFrame()
      modifies this
      ensures Model() == ShakeFrame(old(Model()))
    {
      if !cryingShakePending {
        return;
      }
      cryingShakePending := false;
      CryingShake();
    }

    method TriggerCrying()
      modifies this
      ensures Model() == DesktopPet.TriggerCrying(old(Model()))
    {
      if isCrying {
        return;
      }
      isCrying := true;
      StopRun();
      cryingShakePending := false;
      ResetInteractCount();
      CryingShake();
    }

    method StopCrying()
      modifies this
      ensures Model() == DesktopPet.StopCrying(old(Model()))
    {
      if !isCrying {
        return;
      }
      isCrying := false;
      cryingShakePending := false;
      transform := NoTransform;
      settleTimers := settleTimers + [now + SettleDelay];
    }

    /** The callback of the timeout `stopCrying` sets, as written. */
    method SettleTimerFires()
      modifies this
      ensures Model() == Settle(old(Model()))
    {
      petState := petState.(r := 5.0, y := 3.0, running := true);
      StartRun();
    }

    /** The callback of the timeout `onMounted` sets. */
    method MountTimerFires()
      modifies this
      ensures Model() == MountTimer(old(Model()))
    {
      mountTimer := None;
      if mounted && !isCrying {
        StartRun();
      }
    }

    /** The poke-reset timeout, if its deadline `t` has come. */
    method FirePokeTimer(t: int)
      modifies this
      ensures Model() == FirePokeReset(old(Model()), t)
    {
      if interactTimer.Some? && interactTimer.value <= t {
        ResetInteractCount();
      }
    }

    /** The mount and settle timeouts due at `t`, in order of deadline. */
    method FireDueTimeouts(t: int)
      modifies this
      ensures Model() == FireTimeouts(old(Model()), t, false)
    {
      var settles := settleTimers;
      var mount := mountTimer;
      var mountDue := mount.Some? && mount.value <= t;
      var mountFirst := mountDue && NoneBefore(settles, mount.value);
      if mountFirst {
        MountTimerFires();
      }
      if AnyDue(settles, t) {
        SettleTimerFires();
      }
      if mountDue && !mountFirst {
        MountTimerFires();
      }
      settleTimers := Pending(settles, t);
    }

    /** `dt` milliseconds pass and the timeouts due fire. */
    method Elapse(dt: nat)
      modifies this
      ensures Model() == Tick(old(Model()), dt)
    {
      var t := now + dt;
      FirePokeTimer(t);
      FireDueTimeouts(t);
      now := t;
    }

    method StartDrag(e: PointerEvent, rect: Rect)
      modifies this
      ensures Model() == DesktopPet.StartDrag(old(Model()), e, rect)
    {
      if isCrying {
        return;
      }
      var bottom := IsBottomHalf(e, rect);
      if bottom.None? {
        return;
      }
      if bottom.value {
        StopRun();
      }
      if isResizing {
        return;
      }
      isDragging := true;
      dragOffset := Point(e.clientX - petPosition.x, e.clientY - petPosition.y);
    }

    /** One more poke, with the reset timer restarted from now. */
    method CountPoke()
      modifies this
      ensures Model() == DesktopPet.CountPoke(old(Model()))
    {
      interactCount := interactCount + 1;
      interactTimer := Some(now + PokeWindow);
    }

    method StartTopHalfInteraction(e: PointerEvent, hasAudio: bool) returns (played: bool)
      modifies this
      ensures Reaction(Model(), played) == DesktopPet.StartTopHalfInteraction(old(Model()), e, hasAudio)
    {
      if isCrying {
        return false;
      }
      CountPoke();
      if interactCount >= PokeLimit {
        TriggerCrying();
        return false;
      }
      played := hasAudio;
      mousePoke := Some(Point(e.pageX, e.pageY));
    }

    /** The `mousemove` listener a top-half poke registers. */
    method OnPokeMove(e: PointerEvent)
      modifies this
      ensures Model() == PokeMove(old(Model()), e)
    {
      if mousePoke.None? {
        return;
      }
      if isCrying {
        mousePoke := None;
        return;
      }
      var start := mousePoke.value;
      MovePet(e.pageX - start.x, e.pageY - start.y);
    }

    /** The `mouseup` listener a top-half poke registers. */
    method OnPokeRelease()
      modifies this
      ensures Model() == PokeRelease(old(Model()))
    {
      if mousePoke.None? {
        return;
      }
      mousePoke := None;
      if !isCrying {
        StartRun();
      }
    }

    method HandleTouchStart(e: PointerEvent, rect: Rect, isBottom: bool, hasAudio: bool) returns (played: bool)
      modifies this
      ensures Reaction(Model(), played) == DesktopPet.HandleTouchStart(old(Model()), e, rect, isBottom, hasAudio)
    {
      played := false;
      if isCrying || |e.touches| == 0 {
        return;
      }
      var touch := e.touches[0];
      if isBottom {
        StopRun();
        touchDrag := Some(Point(touch.clientX - rect.left, touch.clientY - rect.top));
        return;
      }
      CountPoke();
      if interactCount >= PokeLimit {
        TriggerCrying();
        return;
      }
      played := hasAudio;
      touchPoke := Some(Point(touch.pageX, touch.pageY));
    }

    /** The `touchmove` listener a bottom-half touch registers. */
    method OnTouchDragMove(e: PointerEvent, vp: Viewport)
      modifies this
      ensures Model() == TouchDragMove(old(Model()), e, vp)
    {
      if touchDrag.None? {
        return;
      }
      if isCrying || |e.touches| == 0 {
        touchDrag := None;
        return;
      }
      var start := touchDrag.value;
      var newLeft := e.touches[0].clientX - start.x;
      var newTop := e.touches[0].clientY - start.y;
      petPosition := petPosition.(x := Max(0.0, Min(newLeft, vp.innerWidth - petSize.width)));
      petPosition := petPosition.(y := Max(0.0, Min(newTop, vp.innerHeight - petSize.height)));
      transform := NoTransform;
    }

    method OnTouchDragEnd()
      modifies this
      ensures Model() == TouchDragEnd(old(Model()))
    {
      touchDrag := None;
    }

    /** The `touchmove` listener a top-half touch registers. */
    method OnTouchPokeMove(e: PointerEvent)
      modifies this
      ensures Model() == TouchPokeMove(old(Model()), e)
    {
      if touchPoke.None? {
        return;
      }
      if isCrying || |e.touches| == 0 {
        touchPoke := None;
        return;
      }
      var start := touchPoke.value;
      MovePet(e.touches[0].pageX - start.x, e.touches[0].pageY - start.y);
    }

    method OnTouchPokeEnd()
      modifies this
      ensures Model() == TouchPokeEnd(old(Model()))
    {
      if touchPoke.None? {
        return;
      }
      touchPoke := None;
      if !isCrying {
        StartRun();
      }
    }

    method HandleMouseMove(e: PointerEvent, vp: Viewport)
      modifies this
      ensures Model() == DesktopPet.HandleMouseMove(old(Model()), e, vp)
    {
      if !isDragging || isCrying {
        return;
      }
      petPosition := Point(e.clientX - dragOffset.x, e.clientY - dragOffset.y);
      var maxX := vp.innerWidth - petSize.width;
      var maxY := vp.innerHeight - petSize.height;
      petPosition := Point(Max(0.0, Min(petPosition.x, maxX)), Max(0.0, Min(petPosition.y, maxY)));
      transform := NoTransform;
    }

    method HandleResizeMove(e: PointerEvent, vp: Viewport)
      modifies this
      ensures Model() == DesktopPet.HandleResizeMove(old(Model()), e, vp)
    {
      if !isResizing || isCrying {
        return;
      }
      var deltaX := e.clientX - resizeStart.x;
      var deltaY := e.clientY - resizeStart.y;
      petSize := Size(Max(MinSide, originalSize.width + deltaX), Max(MinSide, originalSize.height + deltaY));
      var maxX := vp.innerWidth - petPosition.x;
      var maxY := vp.innerHeight - petPosition.y;
      petSize := Size(Min(petSize.width, maxX), Min(petSize.height, maxY));
    }

    method StartResize(e: PointerEvent)
      modifies this
      ensures Model() == DesktopPet.StartResize(old(Model()), e)
    {
      if isCrying {
        return;
      }
      isResizing := true;
      resizeStart := Point(e.clientX, e.clientY);
      originalSize := petSize;
    }

    method StopDrag()
      modifies this
      ensures Model() == DesktopPet.StopDrag(old(Model()))
    {
      if !isDragging {
        return;
      }
      isDragging := false;
    }

    method StopResize()
      modifies this
      ensures Model() == DesktopPet.StopResize(old(Model()))
    {
      if !isResizing {
        return;
      }
      isResizing := false;
    }

    method HandleResize(vp: Viewport)
      modifies this
      ensures Model() == DesktopPet.HandleResize(old(Model()), vp)
    {
      var maxX := vp.innerWidth - petSize.width;
      var maxY := vp.innerHeight - petSize.height;
      petPosition := petPosition.(x := Min(petPosition.x, maxX));
      petPosition := petPosition.(y := Min(petPosition.y, maxY));
    }

    method OnUnmounted()
      modifies this
      ensures Model() == Unmount(old(Model()))
    {
      StopRun();
      ResetInteractCount();
      isCrying := false;
      cryingShakePending := false;
      mounted := false;
    }
  }
}
