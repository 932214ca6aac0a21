/** The script loop of src/cowcatcher/cowcatcherai.py: module globals instead of an object,
    the detection constants fixed at the top of the script, and the `Script` edition of
    the event window, in which the peak latch and the inactivity timer work. */
module ScriptEdition {
  import opened Common
  import opened Selection
  import opened EventEngine
  import opened EngineProperties

  /** The script's detection constants: save 0.7, notify 0.84, peak 0.89, two screenshots,
      4 to 50 seconds of collection, 6 seconds of inactivity, three corroborating frames,
      a 40-second cooldown and sound on every fifth notification. */
  const Constants := Settings(0.7, 0.84, 0.89, 2, 50, 4, 6, 3, 40, 5)

  /** `process_every_n_frames`. */
  const ProcessEveryNFrames: int := 2

  /** The loop's globals: the frame counter and the event window. */
  datatype Loop = Loop(frameCount: int, engine: State)

  /** What `cap.read()` gave: nothing, or a frame (described by what detection finds in it). */
  datatype Read = ReadFailed | ReadFrame(o: Observation)

  /** What one pass of the loop did. */
  datatype Pass = Reconnected | Skipped | Processed(closing: Option<Closing>)

  datatype PassResult = PassResult(loop: Loop, pass: Pass)

  /** The globals as the script sets them up before the loop. */
  function Start(): Loop {
    Loop(0, EventEngine.Initial())
  }

  /** One pass of the `while True` loop. A failed read reconnects and counts nothing;
      a read frame is counted, and every second one is processed. */
  function Tick(l: Loop, rd: Read): (r: PassResult)
    ensures rd.ReadFailed? ==> r == PassResult(l, Reconnected)
    ensures rd.ReadFrame? ==> r.loop.frameCount == l.frameCount + 1
    ensures r.pass.Processed? <==> rd.ReadFrame? && (l.frameCount + 1) % ProcessEveryNFrames == 0
    ensures !r.pass.Processed? ==> r.loop.engine == l.engine
    ensures r.pass.Processed? ==>
      var s := Step(Constants, Script, l.engine, rd.o);
      r.loop.engine == s.state && r.pass.closing == s.closing
  {
    match rd
    case ReadFailed => PassResult(l, Reconnected)
    case ReadFrame(o) =>
      var n := l.frameCount + 1;
      if n % ProcessEveryNFrames == 0 then
        var s := Step(Constants, Script, l.engine, o);
        PassResult(Loop(n, s.state), Processed(s.closing))
      else PassResult(l.(frameCount := n), Skipped)
  }

  /** A sequence of loop passes. */
  function Passes(l: Loop, rds: seq<Read>): Loop
    decreases |rds|
  {
    if rds == [] then l else Passes(Tick(l, rds[0]).loop, rds[1..])
  }

  /** The number of successfully read frames in a sequence of reads. */
  function FramesRead(rds: seq<Read>): nat
    decreases |rds|
  {
    if rds == [] then 0 else (if rds[0].ReadFrame? then 1 else 0) + FramesRead(rds[1..])
  }

  /** Only successfully read frames are counted. */
  lemma {:induction false} CountsOnlyReadFrames(l: Loop, rds: seq<Read>)
    ensures Passes(l, rds).frameCount == l.frameCount + FramesRead(rds)
    decreases |rds|
  {
    if rds != [] {
      CountsOnlyReadFrames(Tick(l, rds[0]).loop, rds[1..]);
    }
  }

  /** While a window is open the latch records whether a live (not seeded) frame of the
      window reached the peak threshold. */
  predicate LatchTracksPeak(cfg: Settings, st: State) {
    st.collecting ==>
      (st.peakDetected <==>
        exists i :: 0 <= i < |st.collected| && !st.collected[i].fromHistory
                    && st.collected[i].conf >= cfg.peakThreshold)
  }

  /** The latch is set at the first collected frame at or above the peak threshold, stays
      set while the window is open, and starts cleared in every new window. */
  lemma ScriptPeakLatch(cfg: Settings, st: State, o: Observation)
    requires LatchTracksPeak(cfg, st)
    ensures LatchTracksPeak(cfg, Step(cfg, Script, st, o).state)
  {
    var s := Admitted(cfg, st, o);
    if s.collecting {
      OpenedWindowHasNoLivePeak(cfg, st, o);
      var c := Collect(cfg, Script, s, o);
      CollectTracksPeak(cfg, s, o);
      if ShouldStop(cfg, c, o) {
        assert Step(cfg, Script, st, o) == Close(cfg, c, o.time);
      }
    }
  }

  /** After the open check the latch still tracks the live frames: a window just opened
      holds only seeded frames and a cleared latch. */
  lemma OpenedWindowHasNoLivePeak(cfg: Settings, st: State, o: Observation)
    requires LatchTracksPeak(cfg, st)
    ensures LatchTracksPeak(cfg, Admitted(cfg, st, o))
  {
    var m := Remember(st, o);
    if !st.collecting && Open(cfg, m, o).collecting {
      var seeded := Seeds(m.history, cfg.saveThreshold);
      assert forall i :: 0 <= i < |seeded| ==> seeded[i].fromHistory;
    }
  }

  /** Collecting a frame of the script keeps the latch tracking the live frames. */
  lemma CollectTracksPeak(cfg: Settings, s: State, o: Observation)
    requires s.collecting && LatchTracksPeak(cfg, s)
    ensures LatchTracksPeak(cfg, Collect(cfg, Script, s, o))
  {
    var c := Collect(cfg, Script, s, o);
    if Qualifies(cfg, o) {
      var live := Capture(TopConfidence(o), o.frame, o.time, false);
      assert c.collected == s.collected + [live];
      assert c.collected[|s.collected|] == live;
      assert forall i :: 0 <= i < |s.collected| ==> c.collected[i] == s.collected[i];
    }
  }

  /** In an open window the inactivity timer is 0 after a qualifying frame, and after any
      other frame it is the time since the last qualifying frame. */
  lemma ScriptInactivity(cfg: Settings, st: State, o: Observation)
    requires st.collecting && st.lastDetection.Some?
    ensures var c := Collect(cfg, Script, Admitted(cfg, st, o), o);
      && (Qualifies(cfg, o) ==> c.inactivity == 0 && c.lastDetection == Some(o.time))
      && (!Qualifies(cfg, o) ==>
            c.lastDetection == st.lastDetection && c.inactivity == o.time - st.lastDetection.value)
  {
  }

  /** A window of the script is only ever open with a last qualifying time set. */
  predicate OpenWindowHasDetection(st: State) {
    st.collecting ==> st.lastDetection.Some?
  }

  /** With a positive save threshold (so that a box-less frame cannot open a window),
      every step keeps the last qualifying time set while a window is open. */
  lemma StepKeepsDetection(cfg: Settings, ed: Edition, st: State, o: Observation)
    requires cfg.saveThreshold > 0.0 && OpenWindowHasDetection(st)
    ensures OpenWindowHasDetection(Step(cfg, ed, st, o).state)
  {
  }

  /** With the script's constants (sound on every fifth notification) the sound cadence
      never divides by zero, and every notification has at most two shots, each labelled
      as the best capture or an extra capture. */
  lemma ScriptShotsAreBestOrExtra(st: State, o: Observation)
    ensures var r := Step(Constants, Script, st, o);
      && (r.closing.Some? ==> !r.closing.value.SoundCadenceFault?)
      && (r.closing.Some? && r.closing.value.Notified? ==>
            var shots := r.closing.value.batch.shots;
            |shots| <= 2
            && forall i :: 0 <= i < |shots| ==>
                 shots[i].stage == BestCapture || shots[i].stage == ExtraCapture)
  {
    var r := Step(Constants, Script, st, o);
    if r.closing.Some? && r.closing.value.Notified? {
      var s := Admitted(Constants, st, o);
      var c := Collect(Constants, Script, s, o);
      assert r == Close(Constants, c, o.time);
      SelectedShotsRanked(Constants, c.collected);
      SelectedShotsLabels(Constants, c.collected);
    }
  }

  /** The result of `detect_mounting_peak` when it finds a peak. The fields are in the
      order the function returns them, which differs from its docstring. */
  datatype MountingPeak = MountingPeak(maxIdx: nat, beforeIdx: nat, afterIdx: nat, maxConf: real)

  /** `detect_mounting_peak`: with at least five entries whose maximum reaches the peak
      threshold, the first maximum and the entries up to two before and two after it,
      clipped to the history. `None` stands for the all-`None` tuple. */
  function DetectMountingPeak(h: seq<real>): (r: Option<MountingPeak>)
    ensures r.None? <==> |h| < 5 || Max(h) < Constants.peakThreshold
    ensures r.Some? ==>
      var p := r.value;
      && p.beforeIdx <= p.maxIdx <= p.afterIdx < |h|
      && p.afterIdx - p.beforeIdx <= 4
      && p.maxIdx - p.beforeIdx <= 2 && p.afterIdx - p.maxIdx <= 2
      && (p.beforeIdx == 0 || p.maxIdx - p.beforeIdx == 2)
      && (p.afterIdx == |h| - 1 || p.afterIdx - p.maxIdx == 2)
      && h[p.maxIdx] == p.maxConf && p.maxConf >= Constants.peakThreshold
      && (forall j :: 0 <= j < |h| ==> h[j] <= p.maxConf)
      && (forall j :: 0 <= j < p.maxIdx ==> h[j] < p.maxConf)
  {
    if |h| < 5 then None
    else
      var maxConf := Max(h);
      var maxIdx := IndexOf(h, maxConf);
      if maxConf < Constants.peakThreshold then None
      else
        var before := if maxIdx - 2 > 0 then maxIdx - 2 else 0;
        var after := if |h| - 1 < maxIdx + 2 then |h| - 1 else maxIdx + 2;
        Some(MountingPeak(maxIdx, before, after, maxConf))
  }

  /** An event of three captures with confidences 0.86, 0.91 and 0.88 sends the first two,
      labelled as an extra capture and the best capture. */
  lemma TwoShotsOfThreeFrameEvent(cs: seq<Capture>)
    requires |cs| == 3 && cs[0].conf == 0.86 && cs[1].conf == 0.91 && cs[2].conf == 0.88
    ensures Selected(Constants, cs)
      == [Shot(cs[0], ExtraCapture, 1), Shot(cs[1], BestCapture, 2)]
  {
    assert PeakIndex(cs) == 1;
    assert Neighbourhood(3, 1) == [0, 1, 2];
    var sel := SelectIndices(3, 1, 2);
    assert sel == [0, 1];
  }
  /** The state after the first frame `o` (a box at or above the save threshold) of a
      fresh detector with the script's constants. */
  lemma FirstFrameOpens(ed: Edition, st: State, o: Observation)
    requires st == EventEngine.Initial()
    requires o.time == 0 && o.top.Some? && 0.7 <= o.top.value
    ensures var r := Step(Constants, ed, st, o);
      var snap := Snapshot(o.top.value, o.frame, 0);
      && r.closing.None?
      && r.state == State([snap], Some(0), 0, true, ed == Script && o.top.value >= 0.89, 0, 0,
                          [Capture(o.top.value, o.frame, 0, true), Capture(o.top.value, o.frame, 0, false)])
  {
    var snap := Snapshot(o.top.value, o.frame, 0);
    assert Push([], snap) == [snap];
    assert [snap][1..] == [];
    assert Seeds([snap], 0.7) == [Capture(o.top.value, o.frame, 0, true)];
  }

  /** The second frame of the scenario below: a 0.80 frame a second after the open is
      collected and the window stays open. */
  lemma ScenarioSecondFrame(st: State, o: Observation)
    requires st.collecting && st.openedAt == 0 && !st.peakDetected && st.inactivity == 0
    requires o == Observation(Second, Some(0.80), 1)
    ensures var r := Step(Constants, Script, st, o);
      && r.closing.None? && r.state.collecting && r.state.openedAt == 0
      && r.state.collected == st.collected + [Capture(0.80, 1, Second, false)]
  {
  }

  /** The third frame of the scenario below: a 0.90 frame two seconds after the open closes
      the window by the 0.85 rule, and only one of the four collected frames reaches the
      notify threshold. */
  lemma ScenarioThirdFrame(st: State, o: Observation)
    requires st.collecting && st.openedAt == 0
    requires st.collected == [Capture(0.75, 0, 0, true), Capture(0.75, 0, 0, false), Capture(0.80, 1, Second, false)]
    requires o == Observation(2 * Second, Some(0.90), 2)
    ensures Step(Constants, Script, st, o).closing == Some(TooFewHighConfidence(1))
  {
    var s := Admitted(Constants, st, o);
    var c := Collect(Constants, Script, s, o);
    assert c.collected == st.collected + [Capture(0.90, 2, 2 * Second, false)];
    var confs := Confidences(c.collected);
    assert confs == [0.75, 0.75, 0.80, 0.90];
    assert confs[1..] == [0.75, 0.80, 0.90];
    assert confs[1..][1..] == [0.80, 0.90];
    assert confs[1..][1..][1..] == [0.90];
    assert confs[1..][1..][1..][1..] == [];
    assert CountAtLeast([0.90], 0.84) == 1;
    assert CountAtLeast([0.80, 0.90], 0.84) == 1;
    assert CountAtLeast([0.75, 0.80, 0.90], 0.84) == 1;
    assert CountAtLeast(confs, 0.84) == 1;
    assert Max(confs) == 0.90 by {
      var m := Max(confs);
      assert m >= confs[3];
      assert m == confs[0] || m == confs[1] || m == confs[2] || m == confs[3];
    }
    assert ShouldStop(Constants, c, o);
  }

  /** Frames of 0.75, 0.80 and 0.90 at 0, 1 and 2 seconds: the window opens on the first,
      closes on the third because 0.90 reaches 0.85 after a second, and sends nothing,
      since only one frame reaches the notify threshold of 0.84 where three are required. */
  lemma ShortRisingEventIsNotNotified(st: State, o0: Observation, o1: Observation, o2: Observation)
    requires st == EventEngine.Initial()
    requires o0 == Observation(0, Some(0.75), 0) && o1 == Observation(Second, Some(0.80), 1)
    requires o2 == Observation(2 * Second, Some(0.90), 2)
    ensures Run(Constants, Script, st, [o0, o1, o2]).1 == [TooFewHighConfidence(1)]
  {
    FirstFrameOpens(Script, st, o0);
    var r0 := Step(Constants, Script, st, o0);
    ScenarioSecondFrame(r0.state, o1);
    var r1 := Step(Constants, Script, r0.state, o1);
    ScenarioThirdFrame(r1.state, o2);
    RunCons(Constants, Script, r1.state, o2, []);
    assert [o1, o2] == [o1] + [o2];
    RunCons(Constants, Script, r0.state, o1, [o2]);
    assert [o0, o1, o2] == [o0] + [o1, o2];
    RunCons(Constants, Script, st, o0, [o1, o2]);
  }
}
