/** The history-aware event window of `AiDetection.execute` (src/cowcatcher/aiDetection.py)
    and of the script loop (src/cowcatcher/cowcatcherai.py): a ten-entry confidence
    history, a window that opens on a qualifying frame when the cooldown allows it,
    four OR'ed stop conditions, selection, the notify gate and the notification counter.
    `Step` is one processed frame. The two editions run the same code except that in
    `AiDetection.execute` the peak latch and the inactivity timer are assigned to local
    variables, so they never reach the object's state; `Edition` says which one runs. */
module EventEngine {
  import opened Common
  import opened Selection

  /** An opaque reference to a captured image buffer. */
  type FrameId = nat

  /** `deque(maxlen=10)` for the confidence, frame and timestamp histories. */
  const HistoryCapacity: nat := 10

  /** The hard-coded "very clear detection" confidence of stop condition 3. */
  const ImmediateConfidence: real := 0.85

  /** `Threaded` is `AiDetection.execute`, where the peak latch and the inactivity timer
      never engage; `Script` is the cowcatcherai.py loop, where both work. */
  datatype Edition = Threaded | Script

  /** The detection settings; durations are whole seconds. */
  datatype Settings = Settings(
    saveThreshold: real,
    notifyThreshold: real,
    peakThreshold: real,
    maxScreenshots: int,
    collectionTime: int,
    minCollectionTime: int,
    inactivityStopTime: int,
    minHighConfidence: int,
    cooldownPeriod: int,
    soundEvery: int)

  /** One processed frame: when it was taken, the highest box confidence (`None` when
      the detector found no box) and the image. */
  datatype Observation = Observation(time: Time, top: Option<real>, frame: FrameId)

  /** `highest_conf`: the top box confidence, 0.0 when there is no box. */
  function TopConfidence(o: Observation): real {
    if o.top.Some? then o.top.value else 0.0
  }

  /** A frame that is added to an open window: it has a box at or above the save threshold. */
  predicate Qualifies(cfg: Settings, o: Observation) {
    o.top.Some? && TopConfidence(o) >= cfg.saveThreshold
  }

  /** One history entry (confidence, frame, timestamp). */
  datatype Snapshot = Snapshot(conf: real, frame: FrameId, time: Time)

  /** One entry of `event_detections`; `fromHistory` marks frames seeded from the history
      (they carry no detector result, only a text annotation). */
  datatype Capture = Capture(conf: real, frame: FrameId, time: Time, fromHistory: bool)

  /** The per-camera state. `openedAt` is meaningful only while `collecting`;
      `collected` is not cleared on close, only on the next open. */
  datatype State = State(
    history: seq<Snapshot>,
    lastDetection: Option<Time>,
    counter: int,
    collecting: bool,
    peakDetected: bool,
    inactivity: int,
    openedAt: Time,
    collected: seq<Capture>)

  /** The state after construction. */
  function Initial(): State {
    State([], None, 0, false, false, 0, 0, [])
  }

  /** One sent image: the capture, its caption stage and its 1-based rank. */
  datatype Shot = Shot(capture: Capture, stage: Stage, rank: nat)

  /** What one closed window sends. */
  datatype Batch = Batch(shots: seq<Shot>, notification: int, playSound: bool, duration: int)

  /** How a window closed. `SoundCadenceFault` is the division by zero raised when
      `sound_every_n_notifications` is 0, after the counter was already advanced. */
  datatype Closing =
    | EmptyWindow
    | BelowNotifyThreshold(maxConfidence: real)
    | TooFewHighConfidence(count: nat)
    | Notified(batch: Batch)
    | SoundCadenceFault

  datatype StepResult = StepResult(state: State, closing: Option<Closing>)

  /** `deque.append` with `maxlen=10`: the last entries of `h + [s]`, at most ten. */
  function Push(h: seq<Snapshot>, s: Snapshot): (r: seq<Snapshot>)
    ensures |r| == (if |h| + 1 < HistoryCapacity then |h| + 1 else HistoryCapacity)
    ensures r[|r| - 1] == s
    ensures |h| + 1 - |r| >= 0 && r == (h + [s])[|h| + 1 - |r|..]
  {
    var full := h + [s];
    if |full| <= HistoryCapacity then full else full[|full| - HistoryCapacity..]
  }

  /** Appends the frame to the history, with confidence 0.0 when it has no box. */
  function Remember(st: State, o: Observation): State {
    st.(history := Push(st.history, Snapshot(TopConfidence(o), o.frame, o.time)))
  }

  /** `can_send_notification`: no qualifying frame yet, or the last one is strictly more
      than the cooldown period ago. */
  predicate CooldownOver(cfg: Settings, st: State, now: Time) {
    st.lastDetection.None? || now - st.lastDetection.value > cfg.cooldownPeriod * Second
  }

  /** The history entries at or above the threshold, in order, as seeded captures. */
  function Seeds(h: seq<Snapshot>, t: real): (r: seq<Capture>)
    ensures |r| <= |h|
    ensures forall i :: 0 <= i < |r| ==>
      r[i].fromHistory && r[i].conf >= t && Snapshot(r[i].conf, r[i].frame, r[i].time) in h
    ensures forall s :: s in h && s.conf >= t ==> Capture(s.conf, s.frame, s.time, true) in r
  {
    if h == [] then []
    else
      assert forall s :: s in h ==> s == h[0] || s in h[1..];
      (if h[0].conf >= t then [Capture(h[0].conf, h[0].frame, h[0].time, true)] else [])
      + Seeds(h[1..], t)
  }

  /** Opens a window on a frame at or above the save threshold while none is open and
      the cooldown is over, seeding it from the history (which already holds this frame). */
  function Open(cfg: Settings, st: State, o: Observation): State {
    if TopConfidence(o) >= cfg.saveThreshold && !st.collecting && CooldownOver(cfg, st, o.time) then
      st.(collecting := true, openedAt := o.time,
          collected := Seeds(st.history, cfg.saveThreshold), peakDetected := false)
    else st
  }

  /** Adds a qualifying frame to the open window, or measures the inactivity. */
  function Collect(cfg: Settings, ed: Edition, st: State, o: Observation): State {
    if Qualifies(cfg, o) then
      st.(collected := st.collected + [Capture(TopConfidence(o), o.frame, o.time, false)],
          inactivity := 0,
          lastDetection := Some(o.time),
          peakDetected :=
            if ed == Script && TopConfidence(o) >= cfg.peakThreshold then true else st.peakDetected)
    else if ed == Script && st.lastDetection.Some? then
      st.(inactivity := o.time - st.lastDetection.value)
    else st
  }

  /** The four stop conditions, checked after the frame was collected. */
  predicate ShouldStop(cfg: Settings, st: State, o: Observation) {
    var duration := o.time - st.openedAt;
    || (st.peakDetected && duration >= cfg.minCollectionTime * Second)
    || duration >= cfg.collectionTime * Second
    || (TopConfidence(o) >= ImmediateConfidence && duration >= Second)
    || st.inactivity >= cfg.inactivityStopTime * Second
  }

  /** The confidences of the collected frames, in order. */
  function Confidences(cs: seq<Capture>): (r: seq<real>)
    ensures |r| == |cs|
    ensures forall i :: 0 <= i < |cs| ==> r[i] == cs[i].conf
  {
    seq(|cs|, i requires 0 <= i < |cs| => cs[i].conf)
  }

  /** The captures at the selected indices, with stage and rank. */
  function Shots(cs: seq<Capture>, sel: seq<int>, peakIdx: int): (r: seq<Shot>)
    requires forall i :: 0 <= i < |sel| ==> 0 <= sel[i] < |cs|
    ensures |r| == |sel|
    ensures forall i :: 0 <= i < |sel| ==>
      r[i] == Shot(cs[sel[i]], StageOf(|sel|, sel[i], peakIdx), i + 1)
  {
    seq(|sel|, i requires 0 <= i < |sel| => Shot(cs[sel[i]], StageOf(|sel|, sel[i], peakIdx), i + 1))
  }

  /** The first index of the highest collected confidence. */
  function PeakIndex(cs: seq<Capture>): (k: nat)
    requires |cs| > 0
    ensures k < |cs|
    ensures forall j :: 0 <= j < |cs| ==> cs[j].conf <= cs[k].conf
    ensures forall j :: 0 <= j < k ==> cs[j].conf < cs[k].conf
  {
    var confs := Confidences(cs);
    IndexOf(confs, Max(confs))
  }

  /** The frames a notifying window sends. */
  function Selected(cfg: Settings, cs: seq<Capture>): (r: seq<Shot>)
    requires |cs| > 0
  {
    var k := PeakIndex(cs);
    Shots(cs, SelectIndices(|cs|, k, cfg.maxScreenshots), k)
  }

  /** Closes the window: selection, gate, counter, sound cadence and reset. */
  function Close(cfg: Settings, st: State, now: Time): (r: StepResult)
    ensures r.closing.Some?
    ensures r.state.history == st.history && r.state.collected == st.collected
    ensures r.closing.value.EmptyWindow? <==> |st.collected| == 0
    ensures (r.closing.value.Notified? || r.closing.value.SoundCadenceFault?)
      <==> GatePasses(Confidences(st.collected), cfg.notifyThreshold, cfg.minHighConfidence)
    ensures r.closing.value.SoundCadenceFault?
      <==> GatePasses(Confidences(st.collected), cfg.notifyThreshold, cfg.minHighConfidence)
           && cfg.soundEvery == 0
    ensures r.state.counter
      == if r.closing.value.Notified? || r.closing.value.SoundCadenceFault?
         then st.counter + 1 else st.counter
    ensures r.closing.value.Notified? ==> r.state.lastDetection == Some(now)
    ensures !r.closing.value.Notified? ==> r.state.lastDetection == st.lastDetection
    ensures r.closing.value.SoundCadenceFault? ==> r.state == st.(counter := st.counter + 1)
    ensures !r.closing.value.SoundCadenceFault? ==>
      !r.state.collecting && !r.state.peakDetected && r.state.inactivity == 0
    ensures r.closing.value.BelowNotifyThreshold? ==>
      |st.collected| > 0 && r.closing.value.maxConfidence == Max(Confidences(st.collected))
      && r.closing.value.maxConfidence < cfg.notifyThreshold
    ensures r.closing.value.TooFewHighConfidence? ==>
      |st.collected| > 0 && Max(Confidences(st.collected)) >= cfg.notifyThreshold
      && r.closing.value.count == CountAtLeast(Confidences(st.collected), cfg.notifyThreshold)
      && r.closing.value.count < cfg.minHighConfidence
    ensures r.closing.value.Notified? ==>
      var b := r.closing.value.batch;
      && |st.collected| > 0
      && b.shots == Selected(cfg, st.collected)
      && b.notification == r.state.counter
      && (b.playSound <==> b.notification % cfg.soundEvery == 0)
      && b.duration == now - st.openedAt
  {
    var confs := Confidences(st.collected);
    var reset := st.(collecting := false, peakDetected := false, inactivity := 0);
    if |confs| == 0 then StepResult(reset, Some(EmptyWindow))
    else
      var maxConf := Max(confs);
      var high := CountAtLeast(confs, cfg.notifyThreshold);
      if maxConf >= cfg.notifyThreshold && high >= cfg.minHighConfidence then
        var n := st.counter + 1;
        if cfg.soundEvery == 0 then StepResult(st.(counter := n), Some(SoundCadenceFault))
        else
          var batch := Batch(Selected(cfg, st.collected), n, n % cfg.soundEvery == 0, now - st.openedAt);
          StepResult(reset.(counter := n, lastDetection := Some(now)), Some(Notified(batch)))
      else if maxConf < cfg.notifyThreshold then StepResult(reset, Some(BelowNotifyThreshold(maxConf)))
      else StepResult(reset, Some(TooFewHighConfidence(high)))
  }

  /** The window state after the history append and the open check of one frame. */
  function Admitted(cfg: Settings, st: State, o: Observation): State {
    Open(cfg, Remember(st, o), o)
  }

  /** One processed frame. */
  function Step(cfg: Settings, ed: Edition, st: State, o: Observation): StepResult {
    var s := Admitted(cfg, st, o);
    if !s.collecting then StepResult(s, None)
    else
      var c := Collect(cfg, ed, s, o);
      if ShouldStop(cfg, c, o) then Close(cfg, c, o.time) else StepResult(c, None)
  }

  /** A sequence of processed frames: the final state and every window closing, in order. */
  function Run(cfg: Settings, ed: Edition, st: State, os: seq<Observation>): (State, seq<Closing>)
    decreases |os|
  {
    if os == [] then (st, [])
    else
      var r := Step(cfg, ed, st, os[0]);
      var rest := Run(cfg, ed, r.state, os[1..]);
      (rest.0, (if r.closing.Some? then [r.closing.value] else []) + rest.1)
  }
}
