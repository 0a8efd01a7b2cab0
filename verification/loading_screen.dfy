/**
 * The loading splash: a progress bar driven by animation frames for 2.6
 * seconds, then a four-phase sequence loading -> ready -> exit -> done
 * driven by timeouts, after which it calls onComplete and renders nothing.
 *
 * Animation frames and timeouts are events of a transition system; time is
 * an integer number of milliseconds. Step is the transition function, Run
 * folds it over a sequence of events, and the class LoadingScreen keeps the
 * same state in fields and updates them in place, one method per event.
 */
module Loading {
  import opened Wrappers

  /** Milliseconds the progress bar takes to fill. */
  const FillDuration: nat := 2600
  /** Delay between a full bar and the switch to ready. */
  const ReadyDelay: nat := 180
  /** How long the ready beat lasts before the exit starts. */
  const ExitDelay: nat := 700
  /** How long the exit blast lasts before the screen is done. */
  const DoneDelay: nat := 820

  // --------------------------------------------------------------- progress

  /** Math.round(elapsed / FillDuration * 100) for a whole number of
      milliseconds, capped at 100. Math.round rounds halves up:
      round(x) = floor(x + 1/2) = floor((2x + 1) / 2). Below 100 the result is
      the percentage elapsed * 100 / FillDuration to within half a percent,
      and the bar is full from 199/200 of FillDuration (2587 ms) on. */
  function Progress(elapsed: int): (p: int)
    ensures p <= 100
    ensures elapsed >= 0 ==> 0 <= p
    ensures p == 100 <==> 200 * elapsed >= 199 * FillDuration
    ensures p == 100 <==> elapsed >= 2587
    ensures p < 100 ==> (2 * p - 1) * FillDuration <= 200 * elapsed < (2 * p + 1) * FillDuration
  {
    var rounded := (200 * elapsed + FillDuration) / (2 * FillDuration);
    if rounded < 100 then rounded else 100
  }

  /** Later frames never show less progress. */
  lemma ProgressMonotone(e1: int, e2: int)
    requires e1 <= e2
    ensures Progress(e1) <= Progress(e2)
  {
  }

  // ------------------------------------------------------------------ state

  datatype Phase = Loading | Ready | Exit | Done

  /** Position of a phase in the sequence. */
  function Rank(p: Phase): nat {
    match p
    case Loading => 0
    case Ready => 1
    case Exit => 2
    case Done => 3
  }

  /** The one phase that follows each phase; done has none. */
  function Next(p: Phase): (q: Option<Phase>)
    ensures q.Some? <==> p != Done
    ensures q.Some? ==> Rank(q.value) == Rank(p) + 1
  {
    match p
    case Loading => Some(Ready)
    case Ready => Some(Exit)
    case Exit => Some(Done)
    case Done => None
  }

  /** A pending setTimeout that will set the phase to target after delay
      milliseconds. */
  datatype PhaseTimer = PhaseTimer(target: Phase, delay: nat)

  datatype Screen = Screen(
    start: int,                    // performance.now() when the frame loop began
    progress: int,                 // the progress state, in percent
    phase: Phase,                  // the phase state
    frameRequested: bool,          // a requestAnimationFrame(tick) is outstanding
    readyTimer: Option<PhaseTimer>,// the timeout to ready set by the last tick, if outstanding
    phaseTimer: Option<PhaseTimer>,// the timeout the phase effect set and will clear
    completions: nat,              // how many times onComplete has been called
    mounted: bool)

  /** Something the host does to the component. */
  datatype Event =
    | Frame(now: int)      // an animation frame runs the tick callback at time now
    | ReadyTimeout         // the 180 ms timeout fires
    | PhaseTimeout         // the phase effect's timeout fires
    | CallbackChanged      // the parent renders with a different onComplete
    | Unmount

  /** The state right after mounting at time start: both effects have run;
      the first only requested an animation frame, the second found the
      phase loading and did nothing. */
  function Mount(start: int): (m: Screen)
    ensures Valid(m) && m.start == start && m.frameRequested
    ensures View(m) == Some(Overlay(0, false, false, false))
  {
    Screen(start, 0, Loading, true, None, None, 0, true)
  }

  /** The phase effect (dependencies [phase, onComplete]) run for a phase:
      ready and exit schedule the timeout to their successor, done calls
      onComplete. Its cleanup, clearing the timeout it set, has already run. */
  function PhaseEffect(s: Screen): (r: Screen)
    ensures r.(phaseTimer := s.phaseTimer, completions := s.completions) == s
    ensures s.phase in {Ready, Exit} ==> r.phaseTimer.Some? && Next(s.phase) == Some(r.phaseTimer.value.target)
    ensures s.phase in {Loading, Done} ==> r.phaseTimer == s.phaseTimer
    ensures r.completions == if s.phase == Done then s.completions + 1 else s.completions
  {
    match s.phase
    case Ready => s.(phaseTimer := Some(PhaseTimer(Exit, ExitDelay)))
    case Exit => s.(phaseTimer := Some(PhaseTimer(Done, DoneDelay)))
    case Done => s.(completions := s.completions + 1)
    case Loading => s
  }

  /** setPhase(q): setting the current value again changes nothing; a new
      value re-renders, runs the effect's cleanup, then the effect. */
  function SetPhase(s: Screen, q: Phase): (r: Screen)
    ensures !s.mounted || q == s.phase ==> r == s
    ensures r.(phase := s.phase, phaseTimer := s.phaseTimer, completions := s.completions) == s
    ensures s.mounted ==> r.phase == q
    ensures s.mounted && q != s.phase && r.phaseTimer.Some? ==> Next(q) == Some(r.phaseTimer.value.target)
    ensures s.mounted && q != s.phase ==> (r.phaseTimer.Some? <==> q in {Ready, Exit})
    ensures r.completions == if s.mounted && q != s.phase && q == Done then s.completions + 1 else s.completions
  {
    if !s.mounted || q == s.phase then s
    else PhaseEffect(s.(phase := q, phaseTimer := None))
  }

  /** The tick callback: progress from the frame time; another frame while
      below 100, else the timeout that switches to ready. Updates of an
      unmounted component are dropped, but the loop itself has no cleanup. */
  function Tick(s: Screen, now: int): (r: Screen)
    ensures r.(progress := s.progress, frameRequested := s.frameRequested, readyTimer := s.readyTimer) == s
    ensures r.frameRequested ==> Progress(now - s.start) < 100
    ensures s.readyTimer.None? ==> (r.frameRequested <==> r.readyTimer.None?)
    ensures r.readyTimer != s.readyTimer ==>
      Progress(now - s.start) == 100 && r.readyTimer == Some(PhaseTimer(Ready, ReadyDelay))
    ensures s.mounted ==> r.progress == Progress(now - s.start)
    ensures !s.mounted ==> r.progress == s.progress
  {
    var p := Progress(now - s.start);
    s.(progress := if s.mounted then p else s.progress,
       frameRequested := p < 100,
       readyTimer := if p < 100 then s.readyTimer else Some(PhaseTimer(Ready, ReadyDelay)))
  }

  /** The transition function. An event whose callback is not pending (a
      frame nobody asked for, a timeout that was never set or was cleared)
      changes nothing. */
  function Step(s: Screen, e: Event): (r: Screen)
    ensures r.start == s.start
    ensures r.mounted ==> s.mounted
    ensures r.completions >= s.completions
  {
    match e
    case Frame(now) => if s.frameRequested then Tick(s, now) else s
    case ReadyTimeout =>
      if s.readyTimer.Some? then SetPhase(s.(readyTimer := None), s.readyTimer.value.target) else s
    case PhaseTimeout =>
      if s.phaseTimer.Some? then SetPhase(s.(phaseTimer := None), s.phaseTimer.value.target) else s
    case CallbackChanged => if s.mounted then PhaseEffect(s.(phaseTimer := None)) else s
    case Unmount => s.(mounted := false, phaseTimer := None)
  }

  /** The state after the events, in order. Unmounting is for good, and
      onComplete calls are never taken back. */
  function Run(s: Screen, events: seq<Event>): (r: Screen)
    ensures r.start == s.start
    ensures r.mounted ==> s.mounted
    ensures r.completions >= s.completions
    decreases |events|
  {
    if events == [] then s else Run(Step(s, events[0]), events[1..])
  }

  // ------------------------------------------------------------- invariant

  /** What holds in every reachable state. */
  ghost predicate Valid(s: Screen) {
    // the frame loop and the ready timeout belong to the loading phase, and
    // the timeout is set only once the loop has stopped
    && (s.frameRequested || s.readyTimer.Some? ==> s.phase == Loading)
    && !(s.frameRequested && s.readyTimer.Some?)
    && (s.readyTimer.Some? ==> s.readyTimer.value == PhaseTimer(Ready, ReadyDelay))
    // the phase effect's timeout leads to the successor of the current phase
    && (s.phaseTimer.Some? ==>
          s.mounted && s.phase in {Ready, Exit} && Next(s.phase) == Some(s.phaseTimer.value.target))
    && (s.mounted && s.phase in {Ready, Exit} ==> s.phaseTimer.Some?)
    // once the bar is full it stays full
    && (s.phase != Loading ==> s.progress == 100)
    && (s.readyTimer.Some? && s.mounted ==> s.progress == 100)
    && s.progress <= 100
    // onComplete has been called only in the done phase
    && (s.completions > 0 ==> s.phase == Done)
    && (s.mounted && s.phase == Done ==> s.completions > 0)
  }

  /** Frames are not timestamped before the loop started. */
  predicate Timely(s: Screen, e: Event) {
    e.Frame? ==> e.now >= s.start
  }

  lemma StepValid(s: Screen, e: Event)
    requires Valid(s)
    ensures Valid(Step(s, e))
    ensures Step(s, e).start == s.start
    ensures s.progress >= 0 && Timely(s, e) ==> Step(s, e).progress >= 0
  {
  }

  /** A step either keeps the phase or moves to its successor. */
  lemma StepAdvancesPhase(s: Screen, e: Event)
    requires Valid(s)
    ensures var q := Step(s, e).phase;
      q == s.phase || Some(q) == Next(s.phase)
  {
  }

  /** onComplete is called again only by a new onComplete callback. */
  lemma StepCompletesOnce(s: Screen, e: Event)
    requires Valid(s) && s.completions <= 1 && e != CallbackChanged
    ensures Step(s, e).completions <= 1
    ensures Step(s, e).completions > s.completions ==> s.phase == Exit && Step(s, e).phase == Done
  {
  }

  // ---------------------------------------------------------------- runs

  lemma {:induction false} RunValid(s: Screen, events: seq<Event>)
    requires Valid(s)
    ensures Valid(Run(s, events))
    decreases |events|
  {
    if events != [] {
      StepValid(s, events[0]);
      RunValid(Step(s, events[0]), events[1..]);
    }
  }

  /** Along any run the phase never goes back. */
  lemma {:induction false} RunPhaseMonotone(s: Screen, events: seq<Event>)
    requires Valid(s)
    ensures Rank(Run(s, events).phase) >= Rank(s.phase)
    decreases |events|
  {
    if events != [] {
      StepValid(s, events[0]);
      StepAdvancesPhase(s, events[0]);
      RunPhaseMonotone(Step(s, events[0]), events[1..]);
    }
  }

  /** Without a change of callback, onComplete is called at most once. */
  lemma {:induction false} RunCompletesOnce(s: Screen, events: seq<Event>)
    requires Valid(s) && s.completions <= 1
    requires forall i :: 0 <= i < |events| ==> events[i] != CallbackChanged
    ensures Run(s, events).completions <= 1
    decreases |events|
  {
    if events != [] {
      StepValid(s, events[0]);
      StepCompletesOnce(s, events[0]);
      RunCompletesOnce(Step(s, events[0]), events[1..]);
    }
  }

  /** The frames among events come at times t or later, in non-decreasing
      order. */
  predicate FramesInOrderFrom(t: int, events: seq<Event>)
    decreases |events|
  {
    events == [] ||
    if events[0].Frame? then
      events[0].now >= t && FramesInOrderFrom(events[0].now, events[1..])
    else FramesInOrderFrom(t, events[1..])
  }

  /** With frames in time order, the progress bar never shrinks and stays
      within [0, 100]. */
  lemma {:induction false} RunProgressMonotone(s: Screen, t: int, events: seq<Event>)
    requires Valid(s) && 0 <= s.progress && s.start <= t
    requires s.progress <= Progress(t - s.start)
    requires FramesInOrderFrom(t, events)
    ensures s.progress <= Run(s, events).progress <= 100
    decreases |events|
  {
    if events != [] {
      var e := events[0];
      var t' := if e.Frame? then e.now else t;
      StepValid(s, e);
      ProgressMonotone(t - s.start, t' - s.start);
      RunProgressMonotone(Step(s, e), t', events[1..]);
    }
  }

  /** From mounting, frames in time order keep the bar within [0, 100]. */
  lemma ProgressFromMount(start: int, events: seq<Event>)
    requires FramesInOrderFrom(start, events)
    ensures 0 <= Run(Mount(start), events).progress <= 100
  {
    RunProgressMonotone(Mount(start), start, events);
  }

  /** The whole sequence: a frame at or after 2587 ms fills the bar, and the
      three timeouts then lead through ready and exit to done, which calls
      onComplete once and renders nothing. */
  lemma FullSequence(start: int, now: int)
    requires now - start >= 2587
    ensures var s := Run(Mount(start), [Frame(now), ReadyTimeout, PhaseTimeout, PhaseTimeout]);
      s.phase == Done && s.progress == 100 && s.completions == 1 && View(s).None?
  {
    var s1 := Step(Mount(start), Frame(now));
    assert s1.readyTimer.Some? && s1.progress == 100;
    var s2 := Step(s1, ReadyTimeout);
    assert s2.phase == Ready;
    var s3 := Step(s2, PhaseTimeout);
    assert s3.phase == Exit;
    var s4 := Step(s3, PhaseTimeout);
    assert s4.phase == Done;
    assert Run(s3, [PhaseTimeout]) == s4 by {
      assert [PhaseTimeout][1..] == [];
    }
    assert Run(s2, [PhaseTimeout, PhaseTimeout]) == s4 by {
      assert [PhaseTimeout, PhaseTimeout][1..] == [PhaseTimeout];
    }
    assert Run(s1, [ReadyTimeout, PhaseTimeout, PhaseTimeout]) == s4 by {
      assert [ReadyTimeout, PhaseTimeout, PhaseTimeout][1..] == [PhaseTimeout, PhaseTimeout];
    }
    assert [Frame(now), ReadyTimeout, PhaseTimeout, PhaseTimeout][1..] == [ReadyTimeout, PhaseTimeout, PhaseTimeout];
  }

  // ---------------------------------------------------------------- render

  /** What the splash shows while it is rendered. */
  datatype Overlay = Overlay(barPercent: int, showReadyLabel: bool, showBlast: bool, fadingOut: bool)

  /** The render: nothing once done; the "Let's go" label only while ready;
      the blast berries and the fade-out only during exit. */
  function View(s: Screen): (v: Option<Overlay>)
    ensures v.None? <==> s.phase == Done
    ensures v.Some? ==> v.value.barPercent == s.progress
    ensures v.Some? ==> (v.value.showReadyLabel <==> s.phase == Ready)
    ensures v.Some? ==> (v.value.showBlast <==> s.phase == Exit) && (v.value.fadingOut <==> s.phase == Exit)
  {
    if s.phase == Done then None
    else Some(Overlay(s.progress, s.phase == Ready, s.phase == Exit, s.phase == Exit))
  }

  /** While mounted, the splash disappears exactly when onComplete has been
      called. */
  lemma HiddenIffCompleted(s: Screen)
    requires Valid(s) && s.mounted
    ensures View(s).None? <==> s.completions > 0
  {
  }

  // ------------------------------------------------------------ component

  /** The mounted component: its state hooks and the handles of its pending
      callbacks, updated in place by the callbacks the host runs. */
  class LoadingScreen {
    var start: int
    var progress: int
    var phase: Phase
    var frameRequested: bool
    var readyTimer: Option<PhaseTimer>
    var phaseTimer: Option<PhaseTimer>
    var completions: nat
    var mounted: bool

    function State(): Screen
      reads this
    {
      Screen(start, progress, phase, frameRequested, readyTimer, phaseTimer, completions, mounted)
    }

    /** Mounting at time now: progress 0, phase loading, one frame requested. */
    constructor (now: int)
      ensures State() == Mount(now)
    {
      start := now;
      progress := 0;
      phase := Loading;
      frameRequested := true;
      readyTimer := None;
      phaseTimer := None;
      completions := 0;
      mounted := true;
    }

    /** The phase effect, after its cleanup has cleared the old timeout. */
    method RunPhaseEffect()
      modifies this
      ensures State() == PhaseEffect(old(State()))
    {
      if phase == Ready {
        phaseTimer := Some(PhaseTimer(Exit, ExitDelay));
      } else if phase == Exit {
        phaseTimer := Some(PhaseTimer(Done, DoneDelay));
      } else if phase == Done {
        completions := completions + 1;
      }
    }

    method ApplyPhase(q: Phase)
      modifies this
      ensures State() == SetPhase(old(State()), q)
    {
      if mounted && q != phase {
        phase := q;
        phaseTimer := None;
        RunPhaseEffect();
      }
    }

    /** An animation frame at time now runs tick, if one was requested. */
    method OnFrame(now: int)
      modifies this
      ensures State() == Step(old(State()), Frame(now))
    {
      if frameRequested {
        var p := Progress(now - start);
        if mounted {
          progress := p;
        }
        if p < 100 {
          frameRequested := true;
        } else {
          frameRequested := false;
          readyTimer := Some(PhaseTimer(Ready, ReadyDelay));
        }
      }
    }

    /** The 180 ms timeout fires: setPhase('ready'). */
    method OnReadyTimeout()
      modifies this
      ensures State() == Step(old(State()), ReadyTimeout)
    {
      if readyTimer.Some? {
        var target := readyTimer.value.target;
        readyTimer := None;
        ApplyPhase(target);
      }
    }

    /** The phase effect's timeout fires: setPhase to its target. */
    method OnPhaseTimeout()
      modifies this
      ensures State() == Step(old(State()), PhaseTimeout)
    {
      if phaseTimer.Some? {
        var target := phaseTimer.value.target;
        phaseTimer := None;
        ApplyPhase(target);
      }
    }

    /** A different onComplete re-runs the phase effect: cleanup, then the
        effect for the current phase. */
    method OnCallbackChanged()
      modifies this
      ensures State() == Step(old(State()), CallbackChanged)
    {
      if mounted {
        phaseTimer := None;
        RunPhaseEffect();
      }
    }

    /** Unmounting runs the phase effect's cleanup; the frame loop and the
        ready timeout have none. */
    method OnUnmount()
      modifies this
      ensures State() == Step(old(State()), Unmount)
    {
      mounted := false;
      phaseTimer := None;
    }
  }
}
