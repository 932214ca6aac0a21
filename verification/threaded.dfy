/** `AiDetection.execute` (src/cowcatcher/aiDetection.py): one call per thread tick. Every
    call counts a frame; every `process_every_n_frames`-th runs the event window in its
    `Threaded` edition. The method's blanket `except` turns a division by zero into a
    logged error: the object keeps whatever was assigned before it. */
module ThreadedEdition {
  import opened Common
  import opened EventEngine
  import opened EngineProperties
  import ScriptEdition

  /** The detector object's mutable fields. */
  datatype Detector = Detector(frameCount: int, engine: State)

  /** What one call did. `FrameCadenceFault` is the division by zero raised when
      `process_every_n_frames` is 0 (after the frame was counted). */
  datatype Tick = Skipped | Processed(closing: Option<Closing>) | FrameCadenceFault

  datatype TickResult = TickResult(detector: Detector, tick: Tick)

  /** The state set up by `__init__`. */
  function Start(): Detector {
    Detector(0, EventEngine.Initial())
  }

  /** One `execute` call on the captured frame `o`. Python's `%` and Dafny's agree on
      whether the remainder is zero, also for a negative divisor. */
  function Execute(cfg: Settings, processEvery: int, d: Detector, o: Observation): (r: TickResult)
    ensures r.detector.frameCount == d.frameCount + 1
    ensures r.tick.FrameCadenceFault? <==> processEvery == 0
    ensures r.tick.Processed? <==> processEvery != 0 && (d.frameCount + 1) % processEvery == 0
    ensures !r.tick.Processed? ==> r.detector.engine == d.engine
    ensures r.tick.Processed? ==> r.detector.engine == Step(cfg, Threaded, d.engine, o).state
    ensures r.tick.Processed? ==> r.tick.closing == Step(cfg, Threaded, d.engine, o).closing
  {
    var n := d.frameCount + 1;
    if processEvery == 0 then TickResult(d.(frameCount := n), FrameCadenceFault)
    else if n % processEvery == 0 then
      var s := Step(cfg, Threaded, d.engine, o);
      TickResult(Detector(n, s.state), Processed(s.closing))
    else TickResult(d.(frameCount := n), Skipped)
  }

  /** The latch and the inactivity timer are never set in this edition. */
  predicate LatchInert(st: State) {
    !st.peakDetected && st.inactivity == 0
  }

  /** A step of this edition keeps the latch and the inactivity timer inert. */
  lemma StepKeepsLatchInert(cfg: Settings, st: State, o: Observation)
    requires LatchInert(st)
    ensures LatchInert(Step(cfg, Threaded, st, o).state)
  {
  }

  /** From construction on, `peak_detected` stays False and `inactivity_period` stays 0
      over any sequence of calls. */
  lemma {:induction false} LatchNeverEngages(cfg: Settings, processEvery: int, d: Detector, os: seq<Observation>)
    requires LatchInert(d.engine)
    ensures LatchInert(Calls(cfg, processEvery, d, os).engine)
    decreases |os|
  {
    if os != [] {
      var r := Execute(cfg, processEvery, d, os[0]);
      if r.tick.Processed? {
        StepKeepsLatchInert(cfg, d.engine, os[0]);
      }
      LatchNeverEngages(cfg, processEvery, r.detector, os[1..]);
    }
  }

  /** A sequence of `execute` calls. */
  function Calls(cfg: Settings, processEvery: int, d: Detector, os: seq<Observation>): Detector
    decreases |os|
  {
    if os == [] then d else Calls(cfg, processEvery, Execute(cfg, processEvery, d, os[0]).detector, os[1..])
  }

  /** With the latch inert only two stop conditions remain: the maximum collection time,
      and a frame of at least 0.85 once the window is a second old (the inactivity rule
      degenerates to "always" when its time is not positive). */
  lemma OnlyTwoStopConditions(cfg: Settings, st: State, o: Observation)
    requires LatchInert(st)
    ensures var s := Admitted(cfg, st, o);
      var duration := o.time - s.openedAt;
      Step(cfg, Threaded, st, o).closing.Some?
      <==> s.collecting
           && (duration >= cfg.collectionTime * Second
               || (TopConfidence(o) >= ImmediateConfidence && duration >= Second)
               || cfg.inactivityStopTime <= 0)
  {
    var s := Admitted(cfg, st, o);
    StepClosesIff(cfg, Threaded, st, o);
    if s.collecting {
      InertStopConditions(cfg, s, o);
    }
  }

  /** The stop conditions of a window collected in this edition from an inert state. */
  lemma InertStopConditions(cfg: Settings, s: State, o: Observation)
    requires LatchInert(s)
    ensures var duration := o.time - s.openedAt;
      ShouldStop(cfg, Collect(cfg, Threaded, s, o), o)
      <==> (duration >= cfg.collectionTime * Second
            || (TopConfidence(o) >= ImmediateConfidence && duration >= Second)
            || cfg.inactivityStopTime <= 0)
  {
    CollectKeepsLatchInert(cfg, s, o);
  }

  /** Collecting a frame in this edition leaves the latch, the timer and the open time alone. */
  lemma CollectKeepsLatchInert(cfg: Settings, s: State, o: Observation)
    requires LatchInert(s)
    ensures var c := Collect(cfg, Threaded, s, o);
      LatchInert(c) && c.openedAt == s.openedAt
  {
  }

  /** The witnesses below use the script's detection constants. */
  const WitnessSettings := ScriptEdition.Constants

  /** As written, a window whose peak was reached is not closed once the minimum
      collection time has passed: after a 0.90 frame at 0 s, a 0.75 frame at 4 s closes
      the script's window but leaves this edition's window open. */
  lemma PeakRuleNeverFires(st: State, o0: Observation, o1: Observation)
    requires st == EventEngine.Initial()
    requires o0 == Observation(0, Some(0.90), 0) && o1 == Observation(4 * Second, Some(0.75), 1)
    ensures Run(WitnessSettings, Script, st, [o0, o1]).1 != []
    ensures Run(WitnessSettings, Threaded, st, [o0, o1]).1 == []
    ensures Run(WitnessSettings, Threaded, st, [o0, o1]).0.collecting
  {
    var cfg := WitnessSettings;
    ScriptEdition.FirstFrameOpens(Script, st, o0);
    ScriptEdition.FirstFrameOpens(Threaded, st, o0);
    var s0 := Step(cfg, Script, st, o0);
    ScriptPeakStop(cfg, s0.state, o1);
    var t0 := Step(cfg, Threaded, st, o0);
    OnlyTwoStopConditions(cfg, t0.state, o1);
    StepKeepsOpenWindow(cfg, Threaded, t0.state, o1);
    TwoFrameRun(cfg, Script, st, o0, o1);
    TwoFrameRun(cfg, Threaded, st, o0, o1);
  }

  /** A run of two frames is its two steps. */
  lemma TwoFrameRun(cfg: Settings, ed: Edition, st: State, o0: Observation, o1: Observation)
    ensures var r0 := Step(cfg, ed, st, o0);
      var r1 := Step(cfg, ed, r0.state, o1);
      Run(cfg, ed, st, [o0, o1]) == (r1.state, ClosingsOf(r0) + ClosingsOf(r1))
  {
    var r0 := Step(cfg, ed, st, o0);
    var r1 := Step(cfg, ed, r0.state, o1);
    RunCons(cfg, ed, r0.state, o1, []);
    assert [o1] + [] == [o1];
    assert ClosingsOf(r1) + [] == ClosingsOf(r1);
    assert [o0, o1] == [o0] + [o1];
    RunCons(cfg, ed, st, o0, [o1]);
  }

  /** Helper for the witness: an open, latched window is closed by a qualifying frame once
      the minimum collection time has passed. */
  lemma ScriptPeakStop(cfg: Settings, st: State, o: Observation)
    requires st.collecting && st.peakDetected && Qualifies(cfg, o)
    requires o.time - st.openedAt >= cfg.minCollectionTime * Second
    ensures Step(cfg, Script, st, o).closing.Some?
  {
    var s := Admitted(cfg, st, o);
    assert s.collecting && s.peakDetected && s.openedAt == st.openedAt;
    var c := Collect(cfg, Script, s, o);
    assert c.peakDetected && c.openedAt == st.openedAt;
    assert ShouldStop(cfg, c, o);
  }

  /** Helper for the witness: an open window is closed by a box-less frame once the last
      qualifying frame is the inactivity stop time ago. */
  lemma ScriptInactivityStop(cfg: Settings, st: State, o: Observation)
    requires st.collecting && o.top.None? && st.lastDetection.Some?
    requires o.time - st.lastDetection.value >= cfg.inactivityStopTime * Second
    ensures Step(cfg, Script, st, o).closing.Some?
  {
    var s := Admitted(cfg, st, o);
    assert s.collecting && s.lastDetection == st.lastDetection;
    var c := Collect(cfg, Script, s, o);
    assert c.inactivity == o.time - st.lastDetection.value;
    assert ShouldStop(cfg, c, o);
  }

  /** As written, a window is not closed by inactivity: after a 0.75 frame at 0 s, a
      box-less frame at 6 s closes the script's window but not this edition's. */
  lemma InactivityRuleNeverFires(st: State, o0: Observation, o1: Observation)
    requires st == EventEngine.Initial()
    requires o0 == Observation(0, Some(0.75), 0) && o1 == Observation(6 * Second, None, 1)
    ensures Run(WitnessSettings, Script, st, [o0, o1]).1 != []
    ensures Run(WitnessSettings, Threaded, st, [o0, o1]).1 == []
    ensures Run(WitnessSettings, Threaded, st, [o0, o1]).0.collecting
  {
    var cfg := WitnessSettings;
    ScriptEdition.FirstFrameOpens(Script, st, o0);
    ScriptEdition.FirstFrameOpens(Threaded, st, o0);
    var s0 := Step(cfg, Script, st, o0);
    ScriptInactivityStop(cfg, s0.state, o1);
    var t0 := Step(cfg, Threaded, st, o0);
    OnlyTwoStopConditions(cfg, t0.state, o1);
    StepKeepsOpenWindow(cfg, Threaded, t0.state, o1);
    TwoFrameRun(cfg, Script, st, o0, o1);
    TwoFrameRun(cfg, Threaded, st, o0, o1);
  }
}
