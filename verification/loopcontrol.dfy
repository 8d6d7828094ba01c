/** The animation loop controller: `animate`, `startAnimation`,
    `stopAnimation`, the visibility handler and `toggle`. The host's frame
    scheduler is modelled only as a source of fresh ids and the set of
    callbacks it currently holds. */
module LoopControl {
  import opened Common

  /** An id handed out by `requestAnimationFrame`: never zero, so a held id
      is always truthy. */
  type FrameId = n: nat | 1 <= n witness 1

  /** The host scheduler: the id it will hand out next and the ids of the
      callbacks it still holds. */
  datatype Scheduler = Scheduler(nextId: FrameId, pending: set<FrameId>)

  /** The controller's view of the world: the canvas (absent when it was
      never created), whether a 2D context exists, the recorded
      `animationId`, the scheduler, and how many update+draw passes ran. */
  datatype Loop = Loop(
    canvas: Option<Canvas>,
    hasContext: bool,
    animationId: Option<FrameId>,
    sched: Scheduler,
    passes: nat)

  /** At most one frame is pending, it is the one recorded in
      `animationId`, and the scheduler has not handed that id out yet again. */
  predicate OneFrame(s: Loop) {
    && (s.animationId.Some? ==> s.animationId.value < s.sched.nextId)
    && (s.sched.pending == {} || (s.animationId.Some? && s.sched.pending == {s.animationId.value}))
  }

  /** The loop is running: the recorded frame is still scheduled. */
  predicate Running(s: Loop) {
    s.animationId.Some? && s.animationId.value in s.sched.pending
  }

  /** `cancelAnimationFrame(id)`. */
  function Cancel(sched: Scheduler, id: FrameId): (r: Scheduler)
    ensures id !in r.pending && r.pending <= sched.pending
    ensures r.nextId == sched.nextId
  {
    sched.(pending := sched.pending - {id})
  }

  /** `animate()`: without a context nothing happens; otherwise one
      update+draw pass runs and the next frame is requested and recorded. */
  function Animate(s: Loop): (r: Loop)
    ensures !s.hasContext ==> r == s
    ensures s.hasContext ==>
              && r.passes == s.passes + 1
              && r.animationId == Some(s.sched.nextId)
              && r.sched.pending == s.sched.pending + {s.sched.nextId}
              && s.sched.nextId < r.sched.nextId
    ensures r.canvas == s.canvas && r.hasContext == s.hasContext
  {
    if !s.hasContext then s
    else
      var id := s.sched.nextId;
      s.(passes := s.passes + 1,
         animationId := Some(id),
         sched := Scheduler(id + 1, s.sched.pending + {id}))
  }

  /** `startAnimation()`: any recorded frame is cancelled first, then one
      pass runs at once and the next frame is requested. */
  function Start(s: Loop): (r: Loop)
    ensures OneFrame(s) ==> OneFrame(r)
    ensures OneFrame(s) && s.animationId.Some? ==> s.animationId.value !in r.sched.pending
    ensures s.hasContext ==> Running(r) && r.passes == s.passes + 1
    ensures !s.hasContext ==> r.passes == s.passes
    ensures r.canvas == s.canvas && r.hasContext == s.hasContext
  {
    var cancelled := if s.animationId.Some? then s.(sched := Cancel(s.sched, s.animationId.value)) else s;
    Animate(cancelled)
  }

  /** `stopAnimation()`: the recorded frame is cancelled and forgotten. */
  function Stop(s: Loop): (r: Loop)
    ensures r.animationId == None && !Running(r)
    ensures OneFrame(s) ==> r.sched.pending == {} && OneFrame(r)
    ensures r.passes == s.passes && r.canvas == s.canvas && r.hasContext == s.hasContext
  {
    if s.animationId.Some? then
      s.(sched := Cancel(s.sched, s.animationId.value), animationId := None)
    else s
  }

  /** The display refresh: the host runs the recorded callback, which is
      `animate()` again. */
  function Tick(s: Loop): (r: Loop)
    ensures OneFrame(s) ==> OneFrame(r)
    ensures Running(s) && s.hasContext ==> Running(r) && r.passes == s.passes + 1
    ensures !Running(s) ==> r == s
  {
    if Running(s) then
      Animate(s.(sched := Cancel(s.sched, s.animationId.value)))
    else s
  }

  /** The `visibilitychange` handler. */
  function VisibilityChange(s: Loop, hidden: bool): (r: Loop)
    ensures OneFrame(s) ==> OneFrame(r)
    ensures hidden ==> !Running(r)
    ensures !hidden && s.hasContext ==> Running(r)
  {
    if hidden then Stop(s) else Start(s)
  }

  /** What `toggle` leaves behind: the new state, or the `TypeError` that
      reading the display of a missing canvas throws (nothing has changed
      by then). */
  datatype Toggled = Toggled(loop: Loop) | CanvasMissing

  /** Shows or hides the canvas, if there is one, and starts or stops the
      loop to match. */
  function ShowAndRun(s: Loop, enabled: bool): (r: Loop)
    ensures r.canvas.Some? <==> s.canvas.Some?
    ensures r.canvas.Some? ==> Shown(r.canvas.value) == enabled
    ensures OneFrame(s) ==> OneFrame(r)
    ensures enabled && s.hasContext ==> Running(r)
    ensures !enabled ==> !Running(r)
  {
    var shown :=
      if s.canvas.Some? then s.(canvas := Some(s.canvas.value.(display := if enabled then Block else Hidden)))
      else s;
    if enabled then Start(shown) else Stop(shown)
  }

  /** `toggle(enabled = null)` as written: with no argument the new state
      is the canvas's current visibility, so the call never changes it. */
  function Toggle(s: Loop, enabled: Option<bool>): (r: Toggled)
    ensures enabled.None? && s.canvas.None? <==> r.CanvasMissing?
    ensures enabled.Some? && r.loop.canvas.Some? ==> Shown(r.loop.canvas.value) == enabled.value
    ensures enabled.None? && s.canvas.Some? ==>
              r.loop.canvas.Some? && Shown(r.loop.canvas.value) == Shown(s.canvas.value)
    ensures enabled == Some(true) && s.hasContext ==> Running(r.loop)
    ensures enabled == Some(false) ==> !Running(r.loop)
    ensures OneFrame(s) && r.Toggled? ==> OneFrame(r.loop)
  {
    if enabled.Some? then Toggled(ShowAndRun(s, enabled.value))
    else if s.canvas.None? then CanvasMissing
    else Toggled(ShowAndRun(s, Shown(s.canvas.value)))
  }

  /** `toggle()` without an argument keeps a shown canvas shown and
      restarts the loop, and keeps a hidden one hidden. */
  lemma ToggleWithoutArgumentKeepsVisibility(s: Loop, c: Canvas)
    requires s.canvas == Some(c) && OneFrame(s)
    ensures Toggle(s, None).Toggled?
    ensures Toggle(s, None).loop.canvas.Some? && Shown(Toggle(s, None).loop.canvas.value) == Shown(c)
    ensures Shown(c) && s.hasContext ==> Running(Toggle(s, None).loop)
    ensures !Shown(c) ==> !Running(Toggle(s, None).loop)
  {
  }

  /** `toggle` as its name and its comment "toggle effects on/off" suggest:
      with no argument it flips the canvas's visibility. */
  function ToggleFlip(s: Loop, enabled: Option<bool>): (r: Toggled)
    ensures enabled.None? && s.canvas.None? <==> r.CanvasMissing?
    ensures enabled.Some? && r.loop.canvas.Some? ==> Shown(r.loop.canvas.value) == enabled.value
    ensures enabled.None? && s.canvas.Some? ==>
              r.loop.canvas.Some? && Shown(r.loop.canvas.value) == !Shown(s.canvas.value)
    ensures enabled == Some(true) && s.hasContext ==> Running(r.loop)
    ensures enabled == Some(false) ==> !Running(r.loop)
    ensures OneFrame(s) && r.Toggled? ==> OneFrame(r.loop)
  {
    if enabled.Some? then Toggled(ShowAndRun(s, enabled.value))
    else if s.canvas.None? then CanvasMissing
    else Toggled(ShowAndRun(s, !Shown(s.canvas.value)))
  }

  /** Two argument-less calls of the flipping toggle restore the canvas's
      visibility. */
  lemma ToggleFlipTwiceRestores(s: Loop, c: Canvas)
    requires s.canvas == Some(c)
    ensures ToggleFlip(s, None).Toggled?
    ensures ToggleFlip(ToggleFlip(s, None).loop, None).Toggled?
    ensures Shown(ToggleFlip(ToggleFlip(s, None).loop, None).loop.canvas.value) == Shown(c)
  {
  }

  /** The events that drive the controller. */
  datatype Event = StartCall | StopCall | Frame | VisibilityEvent(hidden: bool) | ToggleCall(enabled: Option<bool>)

  /** One event. `flips` chooses the argument-less `toggle`: `false` is
      the code as written (`Toggle`), `true` the flipping one
      (`ToggleFlip`). A call that throws leaves the state unchanged. */
  function Apply(s: Loop, e: Event, flips: bool): Loop {
    match e
    case StartCall => Start(s)
    case StopCall => Stop(s)
    case Frame => Tick(s)
    case VisibilityEvent(hidden) => VisibilityChange(s, hidden)
    case ToggleCall(enabled) =>
      match (if flips then ToggleFlip(s, enabled) else Toggle(s, enabled))
      case Toggled(t) => t
      case CanvasMissing => s
  }

  /** A sequence of events, in order. */
  function Run(s: Loop, events: seq<Event>, flips: bool): Loop
    decreases |events|
  {
    if |events| == 0 then s else Run(Apply(s, events[0], flips), events[1..], flips)
  }

  /** The controller as constructed: canvas created, nothing scheduled, then
      `startAnimation()`. Without a 2D context there is no controller:
      `resizeCanvas`, called while the canvas is created, scales the missing
      context and throws before `startAnimation` runs. */
  function Initial(hasContext: bool): (s: Option<Loop>)
    ensures s.None? <==> !hasContext
    ensures s.Some? ==> OneFrame(s.value) && Running(s.value) && s.value.passes == 1
    ensures s.Some? ==> s.value.canvas == Some(InitialCanvas) && s.value.hasContext
  {
    if !hasContext then None
    else Some(Start(Loop(Some(InitialCanvas), true, None, Scheduler(1, {}), 0)))
  }

  /** Whatever events follow, at most one frame is ever pending, and it is
      the recorded one; this holds for `toggle` as written and for the
      flipping one alike. */
  lemma {:induction false} RunKeepsOneFrame(s: Loop, events: seq<Event>, flips: bool)
    requires OneFrame(s)
    ensures OneFrame(Run(s, events, flips))
    ensures |Run(s, events, flips).sched.pending| <= 1
    decreases |events|
  {
    if |events| > 0 {
      var t := Apply(s, events[0], flips);
      assert OneFrame(t) by {
        match events[0]
        case ToggleCall(enabled) =>
        case _ =>
      }
      RunKeepsOneFrame(t, events[1..], flips);
    }
  }
}
