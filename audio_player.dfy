/** The waveform audio player: a component whose event handlers and effects
    update its state cells and drive a waveform engine through a handle. The
    engine itself is outside the model; what the component does to it is kept
    as a log of the calls it makes, and the engine's liveness and listeners are
    read back from that log. */
module AudioPlayer {
  import opened Wrappers
  import opened TimeFormat

  // ---------------------------------------------------------------------
  // The clock label

  /** `Math.trunc`. */
  function Trunc(x: real): (i: int)
    ensures x >= 0.0 ==> i == x.Floor
    ensures x < 0.0 ==> i == -((-x).Floor)
    ensures x >= 0.0 ==> 0.0 <= x - (i as real) < 1.0
    ensures x < 0.0 ==> -1.0 < x - (i as real) <= 0.0
  {
    if x >= 0.0 then x.Floor else -((-x).Floor)
  }

  /** The JavaScript `%` on numbers: the remainder carries the dividend's sign. */
  function JsRemainder(x: real, m: real): real
    requires m != 0.0
  {
    x - m * (Trunc(x / m) as real)
  }

  /** The remainder recomposes the dividend with the truncated quotient, is
      smaller than the divisor in magnitude, and is zero or has the dividend's sign. */
  lemma JsRemainderSpec(x: real, m: real)
    requires m != 0.0
    ensures x == m * (Trunc(x / m) as real) + JsRemainder(x, m)
    ensures -Abs(m) < JsRemainder(x, m) < Abs(m)
    ensures JsRemainder(x, m) == 0.0 || (JsRemainder(x, m) > 0.0 <==> x > 0.0)
  {
    var q := x / m;
    var t := Trunc(q) as real;
    var f := q - t;
    assert x == m * q;
    assert JsRemainder(x, m) == m * f;
    if q >= 0.0 {
      assert 0.0 <= f < 1.0;
    } else {
      assert -1.0 < f <= 0.0;
    }
    AbsProduct(m, f);
  }

  function Abs(r: real): real {
    if r < 0.0 then -r else r
  }

  lemma AbsProduct(m: real, f: real)
    requires m != 0.0 && -1.0 < f < 1.0
    ensures -Abs(m) < m * f < Abs(m)
  {
    if m > 0.0 {
      if f >= 0.0 { assert m * f < m * 1.0; } else { assert m * f > m * -1.0; }
    } else {
      if f >= 0.0 { assert m * f > m * 1.0; } else { assert m * f < m * -1.0; }
    }
  }

  /** `formatTime`: minutes and seconds floored, each padded to two characters. */
  function FormatTime(t: real): string {
    PadStart(ShowInt((t / 60.0).Floor), 2, '0') + ":" + PadStart(ShowInt(JsRemainder(t, 60.0).Floor), 2, '0')
  }

  lemma FloorSplit(t: real)
    requires t >= 0.0
    ensures (t / 60.0).Floor == t.Floor / 60
    ensures JsRemainder(t, 60.0).Floor == t.Floor % 60
  {
    var n := t.Floor;
    var q, r := n / 60, n % 60;
    assert n == 60 * q + r;
    assert (60 * q) as real <= t < (60 * q + r + 1) as real;
    assert q as real <= t / 60.0 < (q + 1) as real;
    assert (t / 60.0).Floor == q;
    assert JsRemainder(t, 60.0) == t - (60 * q) as real;
    assert r as real <= t - (60 * q) as real < (r + 1) as real;
  }

  /** For a non-negative time, the label is the clock of its whole seconds,
      and reading it back gives minutes and seconds that recompose them. */
  lemma FormatTimeIsClock(t: real)
    requires t >= 0.0
    ensures FormatTime(t) == Clock(t.Floor / 60, t.Floor % 60)
    ensures ParseClock(FormatTime(t)) == Some((t.Floor / 60, t.Floor % 60))
    ensures t.Floor % 60 < 60 && 60 * (t.Floor / 60) + t.Floor % 60 == t.Floor
  {
    FloorSplit(t);
    ClockRoundTrip(t.Floor / 60, t.Floor % 60);
  }

  // ---------------------------------------------------------------------
  // The engine log

  /** The five events the component listens to. */
  datatype Event = ReadyEvent | AudioprocessEvent | PlayEvent | PauseEvent | FinishEvent

  const AllEvents: set<Event> := {ReadyEvent, AudioprocessEvent, PlayEvent, PauseEvent, FinishEvent}

  /** A call on engine `id` that returned normally. */
  datatype Op = Create | On(event: Event) | Un(event: Event) | UnAll | Load(source: string)
              | Play | Pause | SeekTo(progress: real) | SetRate(rate: real) | Destroy
  datatype EngineCall = Call(id: nat, op: Op)

  /** Whether engine `id` is alive after call `c`, given whether it was before. */
  function AliveAfter(before: bool, c: EngineCall, id: nat): bool {
    if c.id == id && c.op.Create? then true
    else if c.id == id && c.op.Destroy? then false
    else before
  }

  /** The listeners of engine `id` after call `c`, given those before. */
  function ListenersAfter(before: set<Event>, c: EngineCall, id: nat): set<Event> {
    if c.id != id then before
    else match c.op
      case On(e) => before + {e}
      case Un(e) => before - {e}
      case UnAll => {}
      case Create => {}
      case Destroy => {}
      case _ => before
  }

  function AliveFrom(before: bool, calls: seq<EngineCall>, id: nat): bool
    decreases |calls|
  {
    if calls == [] then before else AliveFrom(AliveAfter(before, calls[0], id), calls[1..], id)
  }

  function ListenersFrom(before: set<Event>, calls: seq<EngineCall>, id: nat): set<Event>
    decreases |calls|
  {
    if calls == [] then before else ListenersFrom(ListenersAfter(before, calls[0], id), calls[1..], id)
  }

  /** Whether engine `id` has been created and not destroyed. */
  function Alive(calls: seq<EngineCall>, id: nat): bool {
    AliveFrom(false, calls, id)
  }

  /** The events engine `id` has a listener for. */
  function Listeners(calls: seq<EngineCall>, id: nat): set<Event> {
    ListenersFrom({}, calls, id)
  }

  /** Replaying a log in two parts is replaying it whole. */
  lemma {:induction false} ReplayConcat(x: bool, l: set<Event>, a: seq<EngineCall>, b: seq<EngineCall>, id: nat)
    ensures AliveFrom(x, a + b, id) == AliveFrom(AliveFrom(x, a, id), b, id)
    ensures ListenersFrom(l, a + b, id) == ListenersFrom(ListenersFrom(l, a, id), b, id)
    decreases |a|
  {
    if a == [] {
      assert a + b == b;
    } else {
      assert (a + b)[0] == a[0] && (a + b)[1..] == a[1..] + b;
      ReplayConcat(AliveAfter(x, a[0], id), ListenersAfter(l, a[0], id), a[1..], b, id);
    }
  }

  /** Calls on other engines leave engine `id` as it was. */
  lemma {:induction false} Untouched(x: bool, l: set<Event>, calls: seq<EngineCall>, id: nat)
    requires forall i :: 0 <= i < |calls| ==> calls[i].id != id
    ensures AliveFrom(x, calls, id) == x && ListenersFrom(l, calls, id) == l
    decreases |calls|
  {
    if calls != [] {
      Untouched(x, l, calls[1..], id);
    }
  }

  /** An engine that no call names is neither alive nor listened to. */
  lemma Unused(calls: seq<EngineCall>, id: nat)
    requires forall i :: 0 <= i < |calls| ==> calls[i].id < id
    ensures !Alive(calls, id) && Listeners(calls, id) == {}
  {
    Untouched(false, {}, calls, id);
  }

  /** The calls the effect makes on a fresh engine; `load` may throw. */
  function SetupCalls(id: nat, source: string, loadThrows: bool): seq<EngineCall> {
    [Call(id, Create)] + ListenCalls(id) + (if loadThrows then [] else [Call(id, Load(source))])
  }

  /** The five `on`, in the order the effect attaches them. */
  function ListenCalls(id: nat): seq<EngineCall> {
    [Call(id, On(ReadyEvent)), Call(id, On(AudioprocessEvent)), Call(id, On(PlayEvent)),
     Call(id, On(PauseEvent)), Call(id, On(FinishEvent))]
  }

  /** The five `un` of the cleanup. */
  function UnlistenCalls(id: nat): seq<EngineCall> {
    [Call(id, Un(ReadyEvent)), Call(id, Un(AudioprocessEvent)), Call(id, Un(PlayEvent)),
     Call(id, Un(PauseEvent)), Call(id, Un(FinishEvent))]
  }

  /** The calls `safelyDestroyWaveSurfer` completes before the first one that throws. */
  datatype DestroyFault = NoFault | UnAllThrows | PauseThrows | DestroyThrows

  function DestroyCalls(id: nat, fault: DestroyFault): seq<EngineCall> {
    match fault
    case UnAllThrows => []
    case PauseThrows => [Call(id, UnAll)]
    case DestroyThrows => [Call(id, UnAll), Call(id, Pause)]
    case NoFault => [Call(id, UnAll), Call(id, Pause), Call(id, Destroy)]
  }

  /** The calls of the effect's cleanup: the five `un`, then the destruction.
      When the first `un` throws, the catch skips everything after it. */
  function CleanupCalls(id: nat, unThrows: bool, fault: DestroyFault): seq<EngineCall> {
    if unThrows then [] else UnlistenCalls(id) + DestroyCalls(id, fault)
  }

  /** How one re-run of the effect went: the previous cleanup, the destruction
      at the top of the effect, and the load. */
  datatype Rerun = Rerun(unThrows: bool, cleanupFault: DestroyFault, setupFault: DestroyFault, loadThrows: bool)

  const Smooth: Rerun := Rerun(false, NoFault, NoFault, false)

  /** The speeds offered by the rate buttons. */
  const RateChoices: seq<real> := [0.5, 0.75, 1.0, 1.25, 1.5]

  /** The engines' side: every call the component makes on an engine, and the
      count of engines created so far (their ids are 0, 1, ...). */
  class Engines {
    var calls: seq<EngineCall>
    var nextId: nat

    /** Every call names an engine already created. */
    predicate Named()
      reads this
    {
      forall i :: 0 <= i < |calls| ==> calls[i].id < nextId
    }

    constructor ()
      ensures calls == [] && nextId == 0
    {
      calls := [];
      nextId := 0;
    }

    /** A call on an engine that returns normally. */
    method Emit(c: EngineCall)
      requires Named() && c.id < nextId
      modifies this
      ensures Named() && calls == old(calls) + [c] && nextId == old(nextId)
      ensures forall id: nat :: Alive(calls, id) == AliveAfter(Alive(old(calls), id), c, id)
      ensures forall id: nat :: Listeners(calls, id) == ListenersAfter(Listeners(old(calls), id), c, id)
    {
      calls := calls + [c];
      forall id: nat
        ensures Alive(calls, id) == AliveAfter(Alive(old(calls), id), c, id)
        ensures Listeners(calls, id) == ListenersAfter(Listeners(old(calls), id), c, id)
      {
        ReplayConcat(false, {}, old(calls), [c], id);
      }
    }

    /** `WaveSurfer.create`: a fresh engine, alive and without listeners. */
    method CreateEngine() returns (id: nat)
      requires Named()
      modifies this
      ensures Named() && id == old(nextId) && nextId == id + 1
      ensures calls == old(calls) + [Call(id, Create)]
      ensures Alive(calls, id) && Listeners(calls, id) == {}
      ensures forall j: nat :: j != id ==> Alive(calls, j) == Alive(old(calls), j) && Listeners(calls, j) == Listeners(old(calls), j)
    {
      id := nextId;
      nextId := nextId + 1;
      Emit(Call(id, Create));
    }

    /** The five `on` of the effect. */
    method Listen(id: nat)
      requires Named() && id < nextId
      modifies this
      ensures Named() && nextId == old(nextId) && calls == old(calls) + ListenCalls(id)
      ensures forall j: nat :: Alive(calls, j) == Alive(old(calls), j)
      ensures Listeners(calls, id) == Listeners(old(calls), id) + AllEvents
      ensures forall j: nat :: j != id ==> Listeners(calls, j) == Listeners(old(calls), j)
    {
      Emit(Call(id, On(ReadyEvent)));
      Emit(Call(id, On(AudioprocessEvent)));
      Emit(Call(id, On(PlayEvent)));
      Emit(Call(id, On(PauseEvent)));
      Emit(Call(id, On(FinishEvent)));
    }

    /** The five `un` of the cleanup. */
    method Unlisten(id: nat)
      requires Named() && id < nextId
      modifies this
      ensures Named() && nextId == old(nextId) && calls == old(calls) + UnlistenCalls(id)
      ensures forall j: nat :: Alive(calls, j) == Alive(old(calls), j)
      ensures Listeners(calls, id) == Listeners(old(calls), id) - AllEvents
      ensures forall j: nat :: j != id ==> Listeners(calls, j) == Listeners(old(calls), j)
    {
      Emit(Call(id, Un(ReadyEvent)));
      Emit(Call(id, Un(AudioprocessEvent)));
      Emit(Call(id, Un(PlayEvent)));
      Emit(Call(id, Un(PauseEvent)));
      Emit(Call(id, Un(FinishEvent)));
    }
  }

  class Player {
    // props
    var audio: string
    var autoPlay: bool
    // state cells
    var isPlaying: bool
    var currentTime: real
    var duration: real
    var isLooping: bool
    var playbackRate: real
    // refs
    var engine: Option<nat>
    var loopingRef: bool
    const engines: Engines

    /** The handle points at a live engine, the loop ref mirrors the loop state
        and the speed is one of the offered ones. */
    predicate Tracked()
      reads this, engines
    {
      && engines.Named()
      && (engine.Some? ==> engine.value < engines.nextId && Alive(engines.calls, engine.value))
      && loopingRef == isLooping
      && playbackRate in RateChoices
    }

    /** Between handlers, the engine the handle points at also listens to all five events. */
    predicate Valid()
      reads this, engines
    {
      Tracked() && (engine.Some? ==> Listeners(engines.calls, engine.value) == AllEvents)
    }

    /** No engine is alive except the one the handle points at. */
    ghost predicate NoLeak()
      reads this, engines
    {
      forall id: nat :: Alive(engines.calls, id) ==> engine == Some(id)
    }

    /** The label under the waveform. */
    function TimeLabel(): string
      reads this
    {
      FormatTime(currentTime) + " / " + FormatTime(duration)
    }

    /** Mounting: the initial state, then the first run of the effect. */
    constructor (audio: string, autoPlay: bool, loadThrows: bool)
      ensures Valid() && NoLeak() && fresh(engines)
      ensures this.audio == audio && this.autoPlay == autoPlay
      ensures !isPlaying && currentTime == 0.0 && duration == 0.0 && !isLooping && playbackRate == 1.0
      ensures engine == Some(0) && engines.nextId == 1 && engines.calls == SetupCalls(0, audio, loadThrows)
    {
      this.audio := audio;
      this.autoPlay := autoPlay;
      isPlaying := false;
      currentTime := 0.0;
      duration := 0.0;
      isLooping := false;
      playbackRate := 1.0;
      engine := None;
      loopingRef := false;
      engines := new Engines();
      new;
      Setup(NoFault, loadThrows);
    }

    /** `safelyDestroyWaveSurfer`: the handle is null afterwards whatever throws;
        only a call that completes every step destroys the engine. */
    method SafelyDestroy(fault: DestroyFault)
      requires Tracked()
      modifies this, engines
      ensures Valid() && engine.None?
      ensures engines.nextId == old(engines.nextId)
      ensures engines.calls == old(engines.calls) + (if old(engine).Some? then DestroyCalls(old(engine).value, fault) else [])
      ensures old(engine).Some? ==> Alive(engines.calls, old(engine).value) == (fault != NoFault)
      ensures forall id: nat :: old(engine) != Some(id) ==> Alive(engines.calls, id) == Alive(old(engines.calls), id)
      ensures old(NoLeak()) && fault == NoFault ==> NoLeak()
      ensures audio == old(audio) && autoPlay == old(autoPlay) && isPlaying == old(isPlaying)
      ensures currentTime == old(currentTime) && duration == old(duration) && isLooping == old(isLooping)
      ensures playbackRate == old(playbackRate) && loopingRef == old(loopingRef)
    {
      if engine.Some? {
        var id := engine.value;
        if fault != UnAllThrows {
          engines.Emit(Call(id, UnAll));
          if fault != PauseThrows {
            engines.Emit(Call(id, Pause));
            if fault != DestroyThrows {
              engines.Emit(Call(id, Destroy));
            }
          }
        }
        assert engines.calls == old(engines.calls) + DestroyCalls(id, fault);
      }
      engine := None;
    }

    /** The body of the effect after the abort: destroy, create, listen, load. */
    method Setup(fault: DestroyFault, loadThrows: bool)
      requires Tracked()
      modifies this, engines
      ensures Valid()
      ensures engine == Some(old(engines.nextId)) && engines.nextId == old(engines.nextId) + 1
      ensures engines.calls == old(engines.calls) + (if old(engine).Some? then DestroyCalls(old(engine).value, fault) else [])
                                                  + SetupCalls(old(engines.nextId), audio, loadThrows)
      ensures old(NoLeak()) && fault == NoFault ==> NoLeak()
      ensures audio == old(audio) && autoPlay == old(autoPlay) && isPlaying == old(isPlaying)
      ensures currentTime == old(currentTime) && duration == old(duration) && isLooping == old(isLooping)
      ensures playbackRate == old(playbackRate) && loopingRef == old(loopingRef)
    {
      SafelyDestroy(fault);
      ghost var mid := engines.calls;
      var id := engines.CreateEngine();
      engine := Some(id);
      engines.Listen(id);
      if !loadThrows {
        engines.Emit(Call(id, Load(audio)));
      }
      assert engines.calls == mid + SetupCalls(id, audio, loadThrows);
    }

    /** The cleanup the effect returns. */
    method Cleanup(unThrows: bool, fault: DestroyFault)
      requires Valid()
      modifies this, engines
      ensures Valid()
      ensures engines.nextId == old(engines.nextId)
      ensures engines.calls == old(engines.calls) + (if old(engine).Some? then CleanupCalls(old(engine).value, unThrows, fault) else [])
      ensures engine == (if unThrows then old(engine) else None)
      ensures old(NoLeak()) && fault == NoFault ==> NoLeak()
      ensures audio == old(audio) && autoPlay == old(autoPlay) && isPlaying == old(isPlaying)
      ensures currentTime == old(currentTime) && duration == old(duration) && isLooping == old(isLooping)
      ensures playbackRate == old(playbackRate) && loopingRef == old(loopingRef)
    {
      if unThrows && engine.Some? {
        return;
      }
      if engine.Some? {
        var id := engine.value;
        engines.Unlisten(id);
        ghost var mid := engines.calls;
        SafelyDestroy(fault);
        assert engines.calls == mid + DestroyCalls(id, fault);
      } else {
        SafelyDestroy(fault);
      }
    }

    /** A change of a dependency: the previous run's cleanup, then the new run. */
    method Rerun(r: Rerun)
      requires Valid()
      modifies this, engines
      ensures Valid()
      ensures engine == Some(old(engines.nextId)) && engines.nextId == old(engines.nextId) + 1
      ensures old(NoLeak()) && r.cleanupFault == NoFault && r.setupFault == NoFault ==> NoLeak()
      ensures r == Smooth && old(engine).Some? ==>
        engines.calls == old(engines.calls) + CleanupCalls(old(engine).value, false, NoFault) + SetupCalls(old(engines.nextId), audio, false)
      ensures old(engines.calls) < engines.calls
      ensures audio == old(audio) && autoPlay == old(autoPlay) && isPlaying == old(isPlaying)
      ensures currentTime == old(currentTime) && duration == old(duration) && isLooping == old(isLooping)
      ensures playbackRate == old(playbackRate) && loopingRef == old(loopingRef)
    {
      Cleanup(r.unThrows, r.cleanupFault);
      ghost var mid := engines.calls;
      Setup(r.setupFault, r.loadThrows);
      if r == Smooth && old(engine).Some? {
        assert engines.calls == mid + SetupCalls(old(engines.nextId), audio, false);
      }
    }

    /** A parent render with new props; the effect re-runs when one of them changed. */
    method SetProps(newAudio: string, newAutoPlay: bool, r: Rerun)
      requires Valid()
      modifies this, engines
      ensures Valid()
      ensures audio == newAudio && autoPlay == newAutoPlay
      ensures (newAudio, newAutoPlay) == old((audio, autoPlay)) ==> engines.calls == old(engines.calls) && engine == old(engine)
      ensures (newAudio, newAutoPlay) != old((audio, autoPlay)) ==>
        engine == Some(old(engines.nextId)) && engines.nextId == old(engines.nextId) + 1
      ensures old(NoLeak()) && r.cleanupFault == NoFault && r.setupFault == NoFault ==> NoLeak()
      ensures isPlaying == old(isPlaying) && currentTime == old(currentTime) && duration == old(duration)
      ensures isLooping == old(isLooping) && playbackRate == old(playbackRate)
    {
      if (newAudio, newAutoPlay) != (audio, autoPlay) {
        audio, autoPlay := newAudio, newAutoPlay;
        Rerun(r);
      }
    }

    /** Unmounting runs the last cleanup; without a throw no engine is left alive. */
    method Unmount(unThrows: bool, fault: DestroyFault)
      requires Valid()
      modifies this, engines
      ensures Valid()
      ensures !unThrows && fault == NoFault && old(NoLeak()) ==> forall id: nat :: !Alive(engines.calls, id)
    {
      Cleanup(unThrows, fault);
    }

    /** The `stopAudio` handle method; a throwing `pause` skips the seek but not the state reset. */
    method StopAudio(pauseThrows: bool)
      requires Valid()
      modifies this, engines
      ensures Valid() && (old(NoLeak()) ==> NoLeak())
      ensures old(engine).None? ==> engines.calls == old(engines.calls) && isPlaying == old(isPlaying) && currentTime == old(currentTime)
      ensures old(engine).Some? ==> !isPlaying && currentTime == 0.0
      ensures old(engine).Some? ==>
        engines.calls == old(engines.calls) + (if pauseThrows then [] else [Call(old(engine).value, Pause), Call(old(engine).value, SeekTo(0.0))])
      ensures engine == old(engine) && duration == old(duration) && isLooping == old(isLooping)
      ensures playbackRate == old(playbackRate) && engines.nextId == old(engines.nextId)
    {
      if engine.Some? {
        if !pauseThrows {
          engines.Emit(Call(engine.value, Pause));
          engines.Emit(Call(engine.value, SeekTo(0.0)));
        }
        isPlaying := false;
        currentTime := 0.0;
      }
    }

    /** The `destroyAudio` handle method. */
    method DestroyAudio(fault: DestroyFault)
      requires Valid()
      modifies this, engines
      ensures Valid() && engine.None?
      ensures engines.nextId == old(engines.nextId)
      ensures engines.calls == old(engines.calls) + (if old(engine).Some? then DestroyCalls(old(engine).value, fault) else [])
      ensures old(engine).Some? ==> Alive(engines.calls, old(engine).value) == (fault != NoFault)
      ensures forall id: nat :: old(engine) != Some(id) ==> Alive(engines.calls, id) == Alive(old(engines.calls), id)
      ensures old(NoLeak()) && fault == NoFault ==> NoLeak()
      ensures audio == old(audio) && autoPlay == old(autoPlay) && isPlaying == old(isPlaying)
      ensures currentTime == old(currentTime) && duration == old(duration) && isLooping == old(isLooping)
      ensures playbackRate == old(playbackRate) && loopingRef == old(loopingRef)
    {
      SafelyDestroy(fault);
    }

    /** `ready`: the engine's duration, the current speed, and play iff `autoPlay`. */
    method OnReady(engineDuration: real)
      requires Valid()
      modifies this, engines
      ensures Valid() && (old(NoLeak()) ==> NoLeak())
      ensures old(engine).None? ==> engines.calls == old(engines.calls) && duration == old(duration)
      ensures old(engine).Some? ==> duration == engineDuration
      ensures old(engine).Some? ==>
        engines.calls == old(engines.calls) + [Call(old(engine).value, SetRate(playbackRate))] + (if autoPlay then [Call(old(engine).value, Play)] else [])
      ensures engine == old(engine) && isPlaying == old(isPlaying) && currentTime == old(currentTime)
      ensures isLooping == old(isLooping) && playbackRate == old(playbackRate) && engines.nextId == old(engines.nextId)
    {
      if engine.Some? {
        duration := engineDuration;
        engines.Emit(Call(engine.value, SetRate(playbackRate)));
        if autoPlay {
          engines.Emit(Call(engine.value, Play));
        }
      }
    }

    /** `audioprocess`: the engine's position becomes the displayed time. */
    method OnAudioprocess(position: real)
      requires Valid()
      modifies this
      ensures Valid()
      ensures currentTime == (if engine.Some? then position else old(currentTime))
      ensures engine == old(engine) && isPlaying == old(isPlaying) && duration == old(duration)
      ensures isLooping == old(isLooping) && playbackRate == old(playbackRate)
    {
      if engine.Some? {
        currentTime := position;
      }
    }

    method OnPlay()
      requires Valid()
      modifies this
      ensures Valid() && isPlaying
      ensures engine == old(engine) && currentTime == old(currentTime) && duration == old(duration)
      ensures isLooping == old(isLooping) && playbackRate == old(playbackRate)
    {
      isPlaying := true;
    }

    method OnPause()
      requires Valid()
      modifies this
      ensures Valid() && !isPlaying
      ensures engine == old(engine) && currentTime == old(currentTime) && duration == old(duration)
      ensures isLooping == old(isLooping) && playbackRate == old(playbackRate)
    {
      isPlaying := false;
    }

    /** `finish`: with the loop on, back to the start and play again; otherwise
        stop, show 0 and rewind. */
    method OnFinish()
      requires Valid()
      modifies this, engines
      ensures Valid() && (old(NoLeak()) ==> NoLeak())
      ensures old(engine).None? ==> engines.calls == old(engines.calls) && isPlaying == old(isPlaying) && currentTime == old(currentTime)
      ensures old(engine).Some? && isLooping ==>
        engines.calls == old(engines.calls) + [Call(old(engine).value, SeekTo(0.0)), Call(old(engine).value, Play)]
        && isPlaying == old(isPlaying) && currentTime == old(currentTime)
      ensures old(engine).Some? && !isLooping ==>
        engines.calls == old(engines.calls) + [Call(old(engine).value, SeekTo(0.0))] && !isPlaying && currentTime == 0.0
      ensures engine == old(engine) && duration == old(duration) && isLooping == old(isLooping)
      ensures playbackRate == old(playbackRate) && engines.nextId == old(engines.nextId)
    {
      if engine.None? {
        return;
      }
      if loopingRef {
        engines.Emit(Call(engine.value, SeekTo(0.0)));
        engines.Emit(Call(engine.value, Play));
      } else {
        isPlaying := false;
        currentTime := 0.0;
        engines.Emit(Call(engine.value, SeekTo(0.0)));
      }
    }

    /** The play/pause button: asks the engine to pause when the state says
        playing and to play otherwise; the state itself follows the engine's events. */
    method HandlePlayPause()
      requires Valid()
      modifies engines
      ensures Valid() && (old(NoLeak()) ==> NoLeak())
      ensures engines.calls == old(engines.calls) +
        (if engine.None? then [] else if isPlaying then [Call(engine.value, Pause)] else [Call(engine.value, Play)])
      ensures engines.nextId == old(engines.nextId)
    {
      if engine.None? {
        return;
      }
      if isPlaying {
        engines.Emit(Call(engine.value, Pause));
      } else {
        engines.Emit(Call(engine.value, Play));
      }
    }

    /** The loop button, together with the effect that copies the state into the ref. */
    method ToggleLoop()
      requires Valid()
      modifies this
      ensures Valid()
      ensures isLooping == !old(isLooping) && loopingRef == isLooping
      ensures engine == old(engine) && isPlaying == old(isPlaying)
      ensures currentTime == old(currentTime) && duration == old(duration) && playbackRate == old(playbackRate)
    {
      isLooping := !isLooping;
      loopingRef := isLooping;
    }

    /** A rate button: store the speed, apply it to the engine, and, since the
        speed is a dependency of the effect, rebuild the engine when it changed. */
    method HandlePlaybackRateChange(newRate: real, r: Rerun)
      requires Valid() && newRate in RateChoices
      modifies this, engines
      ensures Valid()
      ensures playbackRate == newRate
      ensures newRate == old(playbackRate) ==> engine == old(engine)
      ensures newRate == old(playbackRate) ==>
        engines.calls == old(engines.calls) + (if old(engine).Some? then [Call(old(engine).value, SetRate(newRate))] else [])
      ensures newRate != old(playbackRate) ==> engine == Some(old(engines.nextId)) && engines.nextId == old(engines.nextId) + 1
      ensures old(NoLeak()) && r.cleanupFault == NoFault && r.setupFault == NoFault ==> NoLeak()
      ensures isPlaying == old(isPlaying) && currentTime == old(currentTime) && duration == old(duration)
      ensures isLooping == old(isLooping) && audio == old(audio) && autoPlay == old(autoPlay)
    {
      var previous := playbackRate;
      playbackRate := newRate;
      if engine.Some? {
        engines.Emit(Call(engine.value, SetRate(newRate)));
      }
      if newRate != previous {
        Rerun(r);
      }
    }
  }

  /** Toggling the loop twice restores both the state and its ref. */
  method ToggleTwice(p: Player)
    requires p.Valid()
    modifies p, p.engines
    ensures p.Valid() && p.isLooping == old(p.isLooping) && p.loopingRef == old(p.loopingRef)
  {
    p.ToggleLoop();
    p.ToggleLoop();
  }

  /** Destroying through the handle twice: the second call makes no engine call
      and changes nothing; only the held engine dies. */
  method DestroyTwice(p: Player)
    requires p.Valid()
    modifies p, p.engines
    ensures p.Valid() && p.engine.None?
    ensures p.engines.calls == old(p.engines.calls) + (if old(p.engine).Some? then DestroyCalls(old(p.engine).value, NoFault) else [])
    ensures p.engines.nextId == old(p.engines.nextId)
    ensures old(p.engine).Some? ==> !Alive(p.engines.calls, old(p.engine).value)
    ensures forall id: nat :: old(p.engine) != Some(id) ==> Alive(p.engines.calls, id) == Alive(old(p.engines.calls), id)
    ensures old(p.NoLeak()) ==> p.NoLeak()
    ensures p.audio == old(p.audio) && p.autoPlay == old(p.autoPlay) && p.isPlaying == old(p.isPlaying)
    ensures p.currentTime == old(p.currentTime) && p.duration == old(p.duration) && p.isLooping == old(p.isLooping)
    ensures p.playbackRate == old(p.playbackRate) && p.loopingRef == old(p.loopingRef)
  {
    p.SafelyDestroy(NoFault);
    p.SafelyDestroy(NoFault);
  }

  /** A new speed while playing: the old engine is torn down and a fresh one
      created, yet the playing flag is left as it was, since the fresh engine's
      listeners have not fired. */
  method RateChangeWhilePlaying(p: Player, newRate: real)
    requires p.Valid() && p.NoLeak() && newRate in RateChoices && newRate != p.playbackRate
    requires p.engine.Some? && p.isPlaying
    modifies p, p.engines
    ensures p.Valid() && p.NoLeak()
    ensures p.isPlaying && p.engine == Some(old(p.engines.nextId))
    ensures !Alive(p.engines.calls, old(p.engine).value)
    ensures Alive(p.engines.calls, p.engine.value) && Listeners(p.engines.calls, p.engine.value) == AllEvents
  {
    p.HandlePlaybackRateChange(newRate, Smooth);
  }
}
