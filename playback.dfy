/** The frame store and animation driver: the current timeline frame and the
    playing flag, changed by four events (a timer firing, the play/pause
    button, the reset button and the timeline selector). The transitions are
    first given as pure functions on an abstract state; the component itself
    is the class `Visualization`, whose methods are proved to follow them. */
module Playback {
  import opened HeatData
  import opened FrameView

  /** Abstract view of the component's two state fields. */
  datatype PlayState = PlayState(frame: nat, playing: bool)

  /** The state on mount: first frame, paused. */
  const Initial: PlayState := PlayState(0, false)

  /** The events that change the state. `TimerFired` stands for one firing of
      the playback interval. */
  datatype Event = TimerFired | TogglePressed | ResetPressed | FrameSelected(index: nat)

  /** The frame index is a valid index into the timeline. */
  predicate InRange(s: PlayState) {
    s.frame < FrameCount
  }

  /** An event the user interface can produce: the selector only offers the
      frames of the timeline. */
  predicate Offered(e: Event) {
    e.FrameSelected? ==> e.index < |Times|
  }

  /** The frame after `f` on the timeline, wrapping after the last. */
  function NextFrame(f: nat): (g: nat)
    ensures g < FrameCount
    ensures f < FrameCount - 1 ==> g == f + 1
    ensures f == FrameCount - 1 ==> g == 0
  {
    (f + 1) % FrameCount
  }

  /** The effect of one event. A timer firing advances the frame only while
      playing: the interval exists only then. */
  function Step(s: PlayState, e: Event): (t: PlayState)
    ensures InRange(s) && Offered(e) ==> InRange(t)
    ensures e == TimerFired ==> t.playing == s.playing && (s.playing ==> t.frame == NextFrame(s.frame))
    ensures e == TimerFired && !s.playing ==> t == s
    ensures e == TogglePressed ==> t.frame == s.frame && t.playing != s.playing
    ensures e == ResetPressed ==> t == Initial
    ensures e.FrameSelected? ==> t.frame == e.index && !t.playing
    ensures t.playing && !s.playing ==> e == TogglePressed
  {
    match e
    case TimerFired => if s.playing then s.(frame := NextFrame(s.frame)) else s
    case TogglePressed => s.(playing := !s.playing)
    case ResetPressed => PlayState(0, false)
    case FrameSelected(i) => PlayState(i, false)
  }

  /** The effect of a sequence of events, applied in order. */
  function Run(s: PlayState, es: seq<Event>): (r: PlayState)
    ensures es == [] ==> r == s
    ensures InRange(s) && (forall i :: 0 <= i < |es| ==> Offered(es[i])) ==> InRange(r)
    ensures es != [] && es[|es| - 1] == ResetPressed ==> r == Initial
    ensures es != [] && es[|es| - 1].FrameSelected? ==> r == PlayState(es[|es| - 1].index, false)
    decreases |es|
  {
    if es == [] then s else Run(Step(s, es[0]), es[1..])
  }

  /** `n` timer firings in a row. */
  function Ticks(n: nat): (es: seq<Event>)
    ensures |es| == n
    ensures forall i :: 0 <= i < n ==> es[i] == TimerFired
  {
    seq(n, _ => TimerFired)
  }

  /** Running two event sequences one after the other is running their
      concatenation. */
  lemma {:induction false} RunAppend(s: PlayState, es1: seq<Event>, es2: seq<Event>)
    ensures Run(s, es1 + es2) == Run(Run(s, es1), es2)
    decreases |es1|
  {
    if es1 == [] {
      assert es1 + es2 == es2;
    } else {
      assert (es1 + es2)[1..] == es1[1..] + es2;
      RunAppend(Step(s, es1[0]), es1[1..], es2);
    }
  }

  /** `n` firings while playing advance the frame by `n` modulo the timeline
      length; while paused they change nothing. */
  lemma {:induction false} TicksAdvanceModulo(s: PlayState, n: nat)
    requires InRange(s)
    ensures Run(s, Ticks(n)) ==
            if s.playing then s.(frame := (s.frame + n) % FrameCount) else s
    decreases n
  {
    if n > 0 {
      var t := Step(s, TimerFired);
      assert Ticks(n)[1..] == Ticks(n - 1);
      TicksAdvanceModulo(t, n - 1);
      if s.playing {
        assert t.frame == (s.frame + 1) % FrameCount;
        assert (t.frame + (n - 1)) % FrameCount == (s.frame + n) % FrameCount;
      }
    }
  }

  /** Four firings bring the animation back to the frame it started from. */
  lemma FourTicksAreIdentity(s: PlayState)
    requires InRange(s)
    ensures Run(s, Ticks(FrameCount)) == s
  {
    TicksAdvanceModulo(s, FrameCount);
  }

  /** Reset yields the mount state whatever happened before it. */
  lemma ResetForgetsHistory(s: PlayState, es: seq<Event>)
    ensures Run(s, es + [ResetPressed]) == Initial
  {
    RunAppend(s, es, [ResetPressed]);
  }

  /** After a reset no firing changes the state: playback is stopped, so the
      interval has been cleared. */
  lemma NoTickAfterReset(s: PlayState, n: nat)
    ensures Run(s, [ResetPressed] + Ticks(n)) == Initial
  {
    RunAppend(s, [ResetPressed], Ticks(n));
    TicksAdvanceModulo(Initial, n);
  }

  /** Selecting a timeline entry shows exactly that frame and stops playback,
      from any state, and later firings leave it there. */
  lemma SelectionHolds(s: PlayState, i: nat, n: nat)
    requires i < |Times|
    ensures Step(s, FrameSelected(i)) == PlayState(i, false)
    ensures Run(s, [FrameSelected(i)] + Ticks(n)) == PlayState(i, false)
  {
    RunAppend(s, [FrameSelected(i)], Ticks(n));
    TicksAdvanceModulo(PlayState(i, false), n);
  }

  /** Pressing play/pause twice restores the state. */
  lemma ToggleTwiceRestores(s: PlayState)
    ensures Run(s, [TogglePressed, TogglePressed]) == s
  {
  }

  /** A session: press play, three firings reach the last frame, a fourth
      wraps to the first; pausing after three keeps the last frame however
      long one waits. */
  lemma PlaybackSession(n: nat)
    ensures Run(Initial, [TogglePressed] + Ticks(3)) == PlayState(3, true)
    ensures Run(Initial, [TogglePressed] + Ticks(4)) == PlayState(0, true)
    ensures Run(Initial, [TogglePressed] + Ticks(3) + [TogglePressed] + Ticks(n)) == PlayState(3, false)
  {
    var play := Run(Initial, [TogglePressed]);
    assert play == PlayState(0, true);
    RunAppend(Initial, [TogglePressed], Ticks(3));
    RunAppend(Initial, [TogglePressed], Ticks(4));
    TicksAdvanceModulo(play, 3);
    TicksAdvanceModulo(play, 4);
    RunAppend(Initial, [TogglePressed] + Ticks(3), [TogglePressed]);
    RunAppend(Initial, [TogglePressed] + Ticks(3) + [TogglePressed], Ticks(n));
    TicksAdvanceModulo(PlayState(3, false), n);
  }

  /** The component: its two state fields, updated in place by the handlers. */
  class Visualization {
    var currentFrame: nat
    var isPlaying: bool

    /** The abstract state the fields hold. */
    function State(): PlayState
      reads this
    {
      PlayState(currentFrame, isPlaying)
    }

    /** The frame always indexes the timeline. */
    predicate Valid()
      reads this
    {
      currentFrame < FrameCount
    }

    /** Mounting: first frame, not playing. */
    constructor ()
      ensures Valid() && State() == Initial
    {
      currentFrame := 0;
      isPlaying := false;
    }

    /** One firing of the playback interval. */
    method Tick()
      requires Valid()
      modifies this
      ensures Valid() && State() == Step(old(State()), TimerFired)
      ensures isPlaying == old(isPlaying)
      ensures old(isPlaying) && old(currentFrame) < FrameCount - 1 ==> currentFrame == old(currentFrame) + 1
      ensures old(isPlaying) && old(currentFrame) == FrameCount - 1 ==> currentFrame == 0
      ensures !old(isPlaying) ==> currentFrame == old(currentFrame)
    {
      if isPlaying {
        currentFrame := (currentFrame + 1) % FrameCount;
      }
    }

    /** The play/pause button. */
    method TogglePlay()
      requires Valid()
      modifies this
      ensures Valid() && State() == Step(old(State()), TogglePressed)
      ensures isPlaying == !old(isPlaying) && currentFrame == old(currentFrame)
    {
      isPlaying := !isPlaying;
    }

    /** The reset button. */
    method Reset()
      requires Valid()
      modifies this
      ensures Valid() && State() == Step(old(State()), ResetPressed)
      ensures State() == Initial
    {
      currentFrame := 0;
      isPlaying := false;
    }

    /** A timeline selector button; the selector offers one button per
      entry of the timeline. */
    method SelectFrame(idx: nat)
      requires Valid()
      requires idx < |Times|
      modifies this
      ensures Valid() && State() == Step(old(State()), FrameSelected(idx))
      ensures currentFrame == idx && !isPlaying
    {
      currentFrame := idx;
      isPlaying := false;
    }

    /** The locations drawn for the current frame: the lookup of the current
      frame's sample never misses, and each location carries its own
      reading from it. */
    function CurrentLocations(): (locs: seq<HeatPoint>)
      reads this
      requires Valid()
      ensures |locs| == |Locations|
      ensures forall i :: 0 <= i < |locs| ==>
                locs[i].name == Locations[i].name &&
                locs[i].temp == SampleByName(TemperatureData[currentFrame])[Locations[i].name]
    {
      GenerateHeatMap(currentFrame)
    }
  }

  /** A client session on the class: play, three firings, pause, more
      firings; the frame stays where it was paused. */
  method PausedAnimationStays()
  {
    var v := new Visualization();
    v.TogglePlay();
    v.Tick();
    v.Tick();
    v.Tick();
    assert v.currentFrame == 3;
    v.TogglePlay();
    v.Tick();
    assert v.State() == PlayState(3, false);
    v.SelectFrame(2);
    assert v.State() == PlayState(2, false);
    v.Reset();
    assert v.State() == Initial;
  }
}
