/** Properties of the history-aware event window that hold in both editions. */
module EngineProperties {
  import opened Common
  import opened Selection
  import opened EventEngine

  /** A notifying window sends at most three shots (at most `max_screenshots` when that
      is not negative), ranked 1, 2, 3 in order and drawn from the collected frames in
      collection order. */
  lemma SelectedShotsRanked(cfg: Settings, cs: seq<Capture>)
    requires |cs| > 0
    ensures var shots := Selected(cfg, cs);
      && |shots| <= 3 && |shots| <= |cs|
      && (cfg.maxScreenshots >= 0 ==> |shots| <= cfg.maxScreenshots)
      && (forall i :: 0 <= i < |shots| ==> shots[i].rank == i + 1 && shots[i].capture in cs)
      && (|cs| <= 2 ==> forall i :: 0 <= i < |shots| ==> shots[i].capture == cs[i])
      && (|cs| <= 2 && cfg.maxScreenshots >= |cs| ==> |shots| == |cs|)
  {
    var k := PeakIndex(cs);
    var sel := SelectIndices(|cs|, k, cfg.maxScreenshots);
    var shots := Selected(cfg, cs);
    forall i | 0 <= i < |shots| ensures shots[i].capture in cs {
      assert shots[i].capture == cs[sel[i]];
    }
  }

  /** When two or more shots may be sent, the peak frame is among them, labelled as the
      best capture or the peak. */
  lemma SelectedShotsIncludePeak(cfg: Settings, cs: seq<Capture>)
    requires |cs| > 0 && cfg.maxScreenshots >= 2
    ensures var shots := Selected(cfg, cs);
      exists i :: 0 <= i < |shots| && shots[i].capture == cs[PeakIndex(cs)]
                  && (shots[i].stage == BestCapture || shots[i].stage == Peak)
  {
    var k := PeakIndex(cs);
    var sel := SelectIndices(|cs|, k, cfg.maxScreenshots);
    var shots := Selected(cfg, cs);
    var i :| 0 <= i < |sel| && sel[i] == k;
    assert shots[i].capture == cs[k];
  }

  /** Up to two shots are labelled Best/Extra, Best exactly for the peak frame's shot;
      three shots are, in order, before the peak, the peak and after the peak. */
  lemma SelectedShotsLabels(cfg: Settings, cs: seq<Capture>)
    requires |cs| > 0
    ensures var shots := Selected(cfg, cs);
      && (|shots| <= 2 ==> forall i :: 0 <= i < |shots| ==>
            shots[i].stage == BestCapture || shots[i].stage == ExtraCapture)
      && (|shots| <= 2 ==> forall i :: 0 <= i < |shots| ==>
            (shots[i].stage == BestCapture
             <==> SelectIndices(|cs|, PeakIndex(cs), cfg.maxScreenshots)[i] == PeakIndex(cs)))
      && (|shots| == 3 ==>
            [shots[0].stage, shots[1].stage, shots[2].stage] == [BeforePeak, Peak, AfterPeak]
            && shots[1].capture == cs[PeakIndex(cs)])
  {
    var k := PeakIndex(cs);
    if |Selected(cfg, cs)| == 3 {
      ThreeShotsAreBeforePeakAfter(|cs|, k, cfg.maxScreenshots);
    }
  }

  /** A window opens (and is then either open or closed by the same frame) exactly when
      the frame reaches the save threshold and the cooldown is over. */
  lemma OpensOnlyWhenPermitted(cfg: Settings, ed: Edition, st: State, o: Observation)
    requires !st.collecting
    ensures var r := Step(cfg, ed, st, o);
      (r.state.collecting || r.closing.Some?)
      <==> (TopConfidence(o) >= cfg.saveThreshold && CooldownOver(cfg, st, o.time))
  {
  }

  /** A qualifying frame in an open (or just opened) window restarts the cooldown at its
      own time, whatever the gate decides if the window closes on it. */
  lemma QualifyingFrameRestartsCooldown(cfg: Settings, ed: Edition, st: State, o: Observation)
    requires Qualifies(cfg, o)
    requires st.collecting || CooldownOver(cfg, st, o.time)
    ensures Step(cfg, ed, st, o).state.lastDetection == Some(o.time)
  {
  }

  /** While the cooldown since the last qualifying frame runs, an idle window stays idle. */
  lemma CooldownHoldsOffNewWindow(cfg: Settings, ed: Edition, st: State, o: Observation)
    requires !st.collecting && st.lastDetection.Some?
    requires o.time - st.lastDetection.value <= cfg.cooldownPeriod * Second
    ensures var r := Step(cfg, ed, st, o);
      r.closing.None? && !r.state.collecting && r.state.lastDetection == st.lastDetection
      && r.state.counter == st.counter
  {
  }

  /** Over any run of frames within the cooldown of the last qualifying frame, no window
      opens and nothing is closed or sent. */
  lemma {:induction false} NoWindowDuringCooldown(cfg: Settings, ed: Edition, st: State, os: seq<Observation>)
    requires !st.collecting && st.lastDetection.Some?
    requires forall i :: 0 <= i < |os| ==> os[i].time - st.lastDetection.value <= cfg.cooldownPeriod * Second
    ensures var (last, closings) := Run(cfg, ed, st, os);
      closings == [] && !last.collecting && last.lastDetection == st.lastDetection
      && last.counter == st.counter
    decreases |os|
  {
    if os != [] {
      CooldownHoldsOffNewWindow(cfg, ed, st, os[0]);
      var r := Step(cfg, ed, st, os[0]);
      assert forall i :: 0 <= i < |os[1..]| ==> os[1..][i] == os[i + 1];
      NoWindowDuringCooldown(cfg, ed, r.state, os[1..]);
    }
  }

  /** If no frame reaches the save threshold, an idle window never opens and nothing is
      closed or sent. */
  lemma {:induction false} NoQualifyingFrameNoEvent(cfg: Settings, ed: Edition, st: State, os: seq<Observation>)
    requires !st.collecting
    requires forall i :: 0 <= i < |os| ==> TopConfidence(os[i]) < cfg.saveThreshold
    ensures var (last, closings) := Run(cfg, ed, st, os);
      closings == [] && !last.collecting && last.counter == st.counter
    decreases |os|
  {
    if os != [] {
      var r := Step(cfg, ed, st, os[0]);
      assert forall i :: 0 <= i < |os[1..]| ==> os[1..][i] == os[i + 1];
      NoQualifyingFrameNoEvent(cfg, ed, r.state, os[1..]);
    }
  }

  /** Seeding the history plus one entry seeds the history, then that entry if it qualifies. */
  lemma {:induction false} SeedsAppend(h: seq<Snapshot>, s: Snapshot, t: real)
    ensures Seeds(h + [s], t)
      == Seeds(h, t) + (if s.conf >= t then [Capture(s.conf, s.frame, s.time, true)] else [])
  {
    if h == [] {
      assert [s][1..] == [];
    } else {
      assert (h + [s])[1..] == h[1..] + [s];
      SeedsAppend(h[1..], s, t);
    }
  }

  /** On the frame that opens a window, the window is the qualifying history (which
      already ends with this frame) followed by this frame again: the opening frame is
      collected twice, once as a seeded copy and once live. */
  lemma OpeningFrameCollectedTwice(cfg: Settings, ed: Edition, st: State, o: Observation)
    requires !st.collecting && Qualifies(cfg, o) && CooldownOver(cfg, st, o.time)
    ensures var c := Step(cfg, ed, st, o).state.collected;
      var snap := Snapshot(TopConfidence(o), o.frame, o.time);
      && c == Seeds(Push(st.history, snap), cfg.saveThreshold)
              + [Capture(TopConfidence(o), o.frame, o.time, false)]
      && 2 <= |c| <= HistoryCapacity + 1
      && c[|c| - 2] == Capture(TopConfidence(o), o.frame, o.time, true)
      && c[|c| - 1] == Capture(TopConfidence(o), o.frame, o.time, false)
  {
    var snap := Snapshot(TopConfidence(o), o.frame, o.time);
    var h := Push(st.history, snap);
    var j := |st.history| + 1 - |h|;
    assert h == st.history[j..] + [snap];
    SeedsAppend(st.history[j..], snap, cfg.saveThreshold);
    var s := Admitted(cfg, st, o);
    assert s.collecting && s.collected == Seeds(h, cfg.saveThreshold);
    var c := Collect(cfg, ed, s, o);
    assert c.collected == s.collected + [Capture(TopConfidence(o), o.frame, o.time, false)];
    assert Step(cfg, ed, st, o).state.collected == c.collected by {
      if ShouldStop(cfg, c, o) {
        assert Step(cfg, ed, st, o) == Close(cfg, c, o.time);
      }
    }
  }

  /** The first processed frame at least `collection_time` after the open closes the window. */
  lemma ClosesOnceCollectionTimeReached(cfg: Settings, ed: Edition, st: State, o: Observation)
    requires st.collecting && o.time - st.openedAt >= cfg.collectionTime * Second
    ensures Step(cfg, ed, st, o).closing.Some?
  {
  }

  /** A window left open by a step is younger than `collection_time` at that frame. */
  lemma OpenWindowIsYoung(cfg: Settings, ed: Edition, st: State, o: Observation)
    ensures var r := Step(cfg, ed, st, o);
      r.closing.None? && r.state.collecting ==> o.time - r.state.openedAt < cfg.collectionTime * Second
  {
  }

  /** Every close except the division fault leaves the window idle with the latch and
      the inactivity timer cleared. */
  lemma CloseResetsWindow(cfg: Settings, ed: Edition, st: State, o: Observation)
    ensures var r := Step(cfg, ed, st, o);
      r.closing.Some? && !r.closing.value.SoundCadenceFault? ==>
        !r.state.collecting && !r.state.peakDetected && r.state.inactivity == 0
  {
  }

  /** The counter advances by one exactly when a closing window passes the gate. */
  lemma CounterAdvancesOnlyOnNotify(cfg: Settings, ed: Edition, st: State, o: Observation)
    ensures var r := Step(cfg, ed, st, o);
      r.state.counter
      == if r.closing.Some? && (r.closing.value.Notified? || r.closing.value.SoundCadenceFault?)
         then st.counter + 1 else st.counter
  {
    var s := Admitted(cfg, st, o);
    assert s.counter == st.counter;
    if s.collecting {
      var c := Collect(cfg, ed, s, o);
      assert c.counter == st.counter;
      if ShouldStop(cfg, c, o) {
        assert Step(cfg, ed, st, o) == Close(cfg, c, o.time);
      } else {
        assert Step(cfg, ed, st, o) == StepResult(c, None);
      }
    } else {
      assert Step(cfg, ed, st, o) == StepResult(s, None);
    }
  }

  /** A window that fails the gate sends nothing and leaves the counter and the last
      qualifying time as the collected frames left them. */
  lemma FailedGateSendsNothing(cfg: Settings, st: State, now: Time)
    requires !GatePasses(Confidences(st.collected), cfg.notifyThreshold, cfg.minHighConfidence)
    ensures var r := Close(cfg, st, now);
      !r.closing.value.Notified? && r.state.counter == st.counter
      && r.state.lastDetection == st.lastDetection
  {
  }

  /** A step closes a window exactly when, after the open check and the collection of the
      frame, a window is open and one of the stop conditions holds. */
  lemma StepClosesIff(cfg: Settings, ed: Edition, st: State, o: Observation)
    ensures var s := Admitted(cfg, st, o);
      Step(cfg, ed, st, o).closing.Some?
      <==> s.collecting && ShouldStop(cfg, Collect(cfg, ed, s, o), o)
  {
  }

  /** The four stop conditions, in terms of the state before the frame and the frame
      itself: a frame closes a window exactly when a window is open (already, or opened by
      this frame) and the latched peak has had `min_collection_time`, or the window has
      lasted `collection_time`, or the frame reaches 0.85 at least a second after the
      open, or the time since the last qualifying frame reaches `inactivity_stop_time`.
      Only the script sets the latch and measures inactivity. */
  lemma StepStopConditions(cfg: Settings, ed: Edition, st: State, o: Observation)
    ensures
      var opens := !st.collecting && TopConfidence(o) >= cfg.saveThreshold && CooldownOver(cfg, st, o.time);
      var since := if st.collecting then st.openedAt else o.time;
      var duration := o.time - since;
      var latched := (st.collecting && st.peakDetected)
        || (ed == Script && Qualifies(cfg, o) && TopConfidence(o) >= cfg.peakThreshold);
      var idle :=
        if Qualifies(cfg, o) then 0
        else if ed == Script && st.lastDetection.Some? then o.time - st.lastDetection.value
        else st.inactivity;
      Step(cfg, ed, st, o).closing.Some?
      <==> (st.collecting || opens)
           && ( (latched && duration >= cfg.minCollectionTime * Second)
             || duration >= cfg.collectionTime * Second
             || (TopConfidence(o) >= ImmediateConfidence && duration >= Second)
             || idle >= cfg.inactivityStopTime * Second)
  {
    StepClosesIff(cfg, ed, st, o);
    var s := Admitted(cfg, st, o);
    assert s.collecting == (st.collecting || (!st.collecting && TopConfidence(o) >= cfg.saveThreshold
      && CooldownOver(cfg, st, o.time)));
    assert s.collecting ==> s.openedAt == if st.collecting then st.openedAt else o.time;
    assert s.collecting ==> s.peakDetected == (st.collecting && st.peakDetected);
    assert s.lastDetection == st.lastDetection && s.inactivity == st.inactivity;
    var c := Collect(cfg, ed, s, o);
    assert c.openedAt == s.openedAt;
    assert c.peakDetected == (s.peakDetected
      || (ed == Script && Qualifies(cfg, o) && TopConfidence(o) >= cfg.peakThreshold));
    assert c.inactivity ==
      if Qualifies(cfg, o) then 0
      else if ed == Script && s.lastDetection.Some? then o.time - s.lastDetection.value
      else s.inactivity;
  }

  /** An open window that is not closed by a step stays open. */
  lemma StepKeepsOpenWindow(cfg: Settings, ed: Edition, st: State, o: Observation)
    requires st.collecting
    ensures var r := Step(cfg, ed, st, o);
      r.closing.None? ==> r.state.collecting && r.state.openedAt == st.openedAt
  {
  }

  /** The closings a step contributes to a run. */
  function ClosingsOf(r: StepResult): seq<Closing> {
    if r.closing.Some? then [r.closing.value] else []
  }

  /** A run is its first step followed by the run of the rest. */
  lemma RunCons(cfg: Settings, ed: Edition, st: State, o: Observation, os: seq<Observation>)
    ensures var r := Step(cfg, ed, st, o);
      var rest := Run(cfg, ed, r.state, os);
      Run(cfg, ed, st, [o] + os) == (rest.0, ClosingsOf(r) + rest.1)
  {
    assert ([o] + os)[1..] == os;
  }
}
