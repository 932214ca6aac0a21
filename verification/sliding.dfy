/** The sliding-window edition, `Detector` of src/aidetector/detector.py: every result of
    the prediction stream first updates the window (`_try_set_collecting`), then may export
    it (`_try_export`). The window keeps the timestamps of the frames with boxes that are
    at most `time_seconds` old; it is exported once it holds `frames_min` of them and is
    itself `time_seconds` old. */
module SlidingWindow {
  import opened Common
  import opened EventEngine
  import opened Exporters

  /** `CollectionConfig`; the confidence threshold only filters boxes inside the
      prediction library. */
  datatype CollectionConfig = CollectionConfig(timeSeconds: int, framesMin: int, confidenceThreshold: real)

  /** `Collecting`: when the window opened, the recent detection times, the maximum
      confidence of the last frame with boxes, and the encoded image to export. */
  datatype Collecting = Collecting(since: Time, detections: seq<Time>, maxConfidence: real, jpg: FrameId)

  /** The `UnboundLocalError` raised when a frame without boxes finds a window open: the
      pruning reads the local `detections`, which only frames with boxes assign. */
  datatype Fault = UnboundDetections

  /** The detection times at most `timeSeconds` before `now`, in order. */
  function Recent(ds: seq<Time>, now: Time, timeSeconds: int): (r: seq<Time>)
    ensures |r| <= |ds|
    ensures forall d :: d in r <==> d in ds && now - d <= timeSeconds * Second
    ensures forall d :: multiset(r)[d] == if now - d <= timeSeconds * Second then multiset(ds)[d] else 0
    decreases |ds|
  {
    if ds == [] then []
    else
      assert forall d :: d in ds <==> d == ds[0] || d in ds[1..];
      assert ds == [ds[0]] + ds[1..];
      var head := if now - ds[0] <= timeSeconds * Second then [ds[0]] else [];
      var rest := Recent(ds[1..], now, timeSeconds);
      assert multiset(head + rest) == multiset(head) + multiset(rest);
      head + rest
  }

  /** `_try_set_collecting`, as written. */
  function TrySetCollecting(cfg: CollectionConfig, w: Option<Collecting>, o: Observation)
    : (r: Result<Option<Collecting>, Fault>)
    ensures r.Failure? <==> o.top.None? && w.Some?
    ensures o.top.None? && w.None? ==> r == Success(None)
    ensures r.Success? && r.value.Some? ==>
      forall i :: 0 <= i < |r.value.value.detections| ==>
        o.time - r.value.value.detections[i] <= cfg.timeSeconds * Second
    ensures o.top.Some? ==>
      var prev := if w.Some? then w.value.detections else [];
      && r.Success?
      && (r.value.None? <==> forall d :: d in prev + [o.time] ==> o.time - d > cfg.timeSeconds * Second)
      && (cfg.timeSeconds >= 0 ==> r.value.Some?)
      && (r.value.Some? ==>
            var c := r.value.value;
            && (forall d :: d in c.detections <==>
                  (d in prev || d == o.time) && o.time - d <= cfg.timeSeconds * Second)
            && c.since == (if w.Some? then w.value.since else o.time)
            && c.maxConfidence == o.top.value
            && c.jpg == (if w.None? || o.top.value > w.value.maxConfidence then o.frame else w.value.jpg))
  {
    if o.top.Some? then
      var m := o.top.value;
      var prev := if w.Some? then w.value.detections else [];
      var kept := Recent(prev + [o.time], o.time, cfg.timeSeconds);
      assert cfg.timeSeconds >= 0 ==> o.time in kept;
      assert kept != [] ==> kept[0] in kept;
      assert forall i :: 0 <= i < |kept| ==> kept[i] in kept;
      if kept == [] then Success(None)
      else
        var since := if w.Some? then w.value.since else o.time;
        var jpg := if w.None? || m > w.value.maxConfidence then o.frame else w.value.jpg;
        Success(Some(Collecting(since, kept, m, jpg)))
    else if w.Some? then Failure(UnboundDetections)
    else Success(None)
  }

  /** A frame with boxes counts as one more occurrence of its time: the window's detection
      list holds each recent time exactly as often as the old list plus now does. */
  lemma TrySetCollectingCounts(cfg: CollectionConfig, w: Option<Collecting>, o: Observation)
    requires o.top.Some?
    ensures var r := TrySetCollecting(cfg, w, o);
      var all := (if w.Some? then w.value.detections else []) + [o.time];
      r.Success? && r.value.Some? ==>
        forall d :: multiset(r.value.value.detections)[d] ==
          if o.time - d <= cfg.timeSeconds * Second then multiset(all)[d] else 0
  {
  }

  /** `_try_set_collecting` as evidently intended: a frame without boxes prunes the
      window's own detection list. */
  function TrySetCollectingIntended(cfg: CollectionConfig, w: Option<Collecting>, o: Observation)
    : (r: Option<Collecting>)
    ensures o.top.None? && w.Some? ==>
      && (r.None? <==> forall d :: d in w.value.detections ==> o.time - d > cfg.timeSeconds * Second)
      && (r.Some? ==>
            && r.value.since == w.value.since
            && r.value.maxConfidence == w.value.maxConfidence
            && r.value.jpg == w.value.jpg
            && (forall d :: d in r.value.detections <==>
                 d in w.value.detections && o.time - d <= cfg.timeSeconds * Second)
            && forall d :: multiset(r.value.detections)[d] ==
                 if o.time - d <= cfg.timeSeconds * Second then multiset(w.value.detections)[d] else 0)
  {
    if o.top.None? && w.Some? then
      var kept := Recent(w.value.detections, o.time, cfg.timeSeconds);
      assert kept != [] ==> kept[0] in kept;
      if kept == [] then None else Some(w.value.(detections := kept))
    else TrySetCollecting(cfg, w, o).value
  }

  /** While no earlier detection has expired, a frame with boxes grows the detection list
      by exactly one entry, so the `frames_min` gate counts every such frame. */
  lemma BoxedFrameAddsOneDetection(cfg: CollectionConfig, w: Option<Collecting>, o: Observation)
    requires o.top.Some? && cfg.timeSeconds >= 0
    requires w.Some? ==> forall d :: d in w.value.detections ==> o.time - d <= cfg.timeSeconds * Second
    ensures var r := TrySetCollecting(cfg, w, o);
      r.Success? && r.value.Some?
      && |r.value.value.detections| == (if w.Some? then |w.value.detections| else 0) + 1
  {
    var prev := if w.Some? then w.value.detections else [];
    var c := TrySetCollecting(cfg, w, o).value.value;
    assert multiset(c.detections) == multiset(prev + [o.time]) by {
      forall d ensures multiset(c.detections)[d] == multiset(prev + [o.time])[d] {
        if o.time - d > cfg.timeSeconds * Second {
          assert d !in prev + [o.time];
        }
      }
    }
    assert |c.detections| == |multiset(c.detections)|;
  }

  /** The intended update never fails and agrees with the code as written wherever the
      latter does not raise. */
  lemma IntendedAgreesWhenNoFault(cfg: CollectionConfig, w: Option<Collecting>, o: Observation)
    ensures TrySetCollecting(cfg, w, o).Success? ==>
      TrySetCollectingIntended(cfg, w, o) == TrySetCollecting(cfg, w, o).value
  {
  }

  /** After the intended update every retained detection is within `time_seconds`. */
  lemma IntendedKeepsRecentDetections(cfg: CollectionConfig, w: Option<Collecting>, o: Observation)
    ensures var r := TrySetCollectingIntended(cfg, w, o);
      r.Some? ==> forall i :: 0 <= i < |r.value.detections| ==>
        o.time - r.value.detections[i] <= cfg.timeSeconds * Second
  {
    var r := TrySetCollectingIntended(cfg, w, o);
    if r.Some? {
      forall i | 0 <= i < |r.value.detections|
        ensures o.time - r.value.detections[i] <= cfg.timeSeconds * Second
      {
        assert r.value.detections[i] in r.value.detections;
      }
    }
  }

  /** The window and the image exported by one `_try_export` call, if any. */
  datatype ExportStep = ExportStep(window: Option<Collecting>, exported: Option<FrameId>)

  /** `_try_export`: a window with at least `frames_min` recent detections that is at
      least `time_seconds` old exports its image and is dropped; otherwise nothing changes. */
  function TryExport(cfg: CollectionConfig, w: Option<Collecting>, now: Time): (r: ExportStep)
    ensures r.exported.Some? <==>
      w.Some? && |w.value.detections| >= cfg.framesMin && now - w.value.since >= cfg.timeSeconds * Second
    ensures r.exported.Some? ==> r.exported.value == w.value.jpg && r.window.None?
    ensures r.exported.None? ==> r.window == w
  {
    if w.None? then ExportStep(w, None)
    else if |w.value.detections| < cfg.framesMin || now - w.value.since < cfg.timeSeconds * Second then
      ExportStep(w, None)
    else ExportStep(None, Some(w.value.jpg))
  }

  /** Which exporters an export called and which of them raised. */
  datatype DispatchLog = DispatchLog(called: seq<Exporter>, failed: seq<Exporter>)

  /** The export thread: every exporter is called in list order; an exception is logged
      and does not stop the later exporters. `raises` says which exporters raise. */
  function DispatchIsolated(exporters: seq<Exporter>, raises: Exporter -> bool): (r: DispatchLog)
    ensures r.called == exporters
    ensures forall e :: e in r.failed <==> e in exporters && raises(e)
    decreases |exporters|
  {
    if exporters == [] then DispatchLog([], [])
    else
      var rest := DispatchIsolated(exporters[1..], raises);
      assert forall e :: e in exporters <==> e == exporters[0] || e in exporters[1..];
      DispatchLog([exporters[0]] + rest.called,
                  (if raises(exporters[0]) then [exporters[0]] else []) + rest.failed)
  }

  /** How the prediction loop ended: the final window, the exported images in order, and
      whether the loop died on the `UnboundLocalError` (the runner thread has no handler). */
  datatype Outcome = Outcome(window: Option<Collecting>, exported: seq<FrameId>, crashed: bool)

  /** The runner thread's loop over the results, with the code as written. */
  function Feed(cfg: CollectionConfig, w: Option<Collecting>, os: seq<Observation>): Outcome
    decreases |os|
  {
    if os == [] then Outcome(w, [], false)
    else
      match TrySetCollecting(cfg, w, os[0])
      case Failure(_) => Outcome(w, [], true)
      case Success(w1) =>
        var e := TryExport(cfg, w1, os[0].time);
        var rest := Feed(cfg, e.window, os[1..]);
        Outcome(rest.window, (if e.exported.Some? then [e.exported.value] else []) + rest.exported,
                rest.crashed)
  }

  /** A stream in which every frame has boxes never crashes the loop. */
  lemma {:induction false} BoxedStreamNeverCrashes(cfg: CollectionConfig, w: Option<Collecting>, os: seq<Observation>)
    requires forall i :: 0 <= i < |os| ==> os[i].top.Some?
    ensures !Feed(cfg, w, os).crashed
    decreases |os|
  {
    if os != [] {
      var w1 := TrySetCollecting(cfg, w, os[0]).value;
      assert forall i :: 0 <= i < |os[1..]| ==> os[1..][i] == os[i + 1];
      BoxedStreamNeverCrashes(cfg, TryExport(cfg, w1, os[0].time).window, os[1..]);
    }
  }

  /** Every exported image is the image of a fed frame (or the one the window started with). */
  lemma {:induction false} ExportedImagesWereFed(cfg: CollectionConfig, w: Option<Collecting>, os: seq<Observation>)
    ensures forall j :: j in Feed(cfg, w, os).exported ==>
      (w.Some? && j == w.value.jpg) || exists i :: 0 <= i < |os| && os[i].frame == j
    decreases |os|
  {
    if os != [] {
      var r := TrySetCollecting(cfg, w, os[0]);
      if r.Success? {
        var e := TryExport(cfg, r.value, os[0].time);
        ExportedImagesWereFed(cfg, e.window, os[1..]);
        var rest := Feed(cfg, e.window, os[1..]);
        forall j | j in Feed(cfg, w, os).exported
          ensures (w.Some? && j == w.value.jpg) || exists i :: 0 <= i < |os| && os[i].frame == j
        {
          if j in rest.exported {
            if !(e.window.Some? && j == e.window.value.jpg) {
              var i :| 0 <= i < |os[1..]| && os[1..][i].frame == j;
              assert os[i + 1].frame == j;
            } else if j != os[0].frame {
              assert w.Some? && j == w.value.jpg;
            }
          } else if j != os[0].frame {
            assert w.Some? && j == w.value.jpg;
          }
        }
      }
    }
  }

  /** The defect as written: a frame with boxes at 0 s and a frame without boxes a second
      later end the prediction loop, where the intended update just keeps the window. */
  lemma GapCrashesRunner()
    ensures var cfg := CollectionConfig(10, 3, 0.5);
      var o0 := Observation(0, Some(0.9), 0);
      var o1 := Observation(Second, None, 1);
      && Feed(cfg, None, [o0, o1]).crashed
      && TrySetCollectingIntended(cfg, TrySetCollecting(cfg, None, o0).value, o1).Some?
  {
    var cfg := CollectionConfig(10, 3, 0.5);
    var o0 := Observation(0, Some(0.9), 0);
    var o1 := Observation(Second, None, 1);
    var w1 := TrySetCollecting(cfg, None, o0).value;
    assert w1.Some?;
    var e := TryExport(cfg, w1, 0);
    assert e.window == w1;
    assert [o0, o1][1..] == [o1];
    assert Feed(cfg, w1, [o1]).crashed;
    assert 0 in w1.value.detections;
  }
}
