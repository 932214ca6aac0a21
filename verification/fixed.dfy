/** The fixed-duration edition, `Detector` of src/cowcatcher/detector.py: the first result
    with boxes opens a window, every later result with boxes replaces its stored result,
    and `collection_seconds` after the open the stored result goes to every exporter. */
module FixedWindow {
  import opened Common
  import opened EventEngine
  import opened Exporters

  /** `Collecting`: when the window opened, the top confidence of the stored result, and
      the stored prediction result (a reference to its frame). */
  datatype Collecting = Collecting(since: Time, maxConfidence: real, result: FrameId)

  /** What `detect` passes to the prediction call: one video file, or the whole list. */
  datatype Source = VideoFile(path: string) | AllSources(paths: seq<string>)

  /** The `IndexError` of `sources[0]` on an empty source list. */
  datatype SourceFault = NoSources

  predicate EndsWith(s: string, suffix: string) {
    |suffix| <= |s| && s[|s| - |suffix|..] == suffix
  }

  /** The extensions the prediction library can only stream one at a time. */
  predicate IsVideoFile(s: string) {
    EndsWith(s, ".mp4") || EndsWith(s, ".avi") || EndsWith(s, ".mov")
  }

  /** The source choice in `detect`: the first source alone when it is a video file,
      otherwise every source. */
  function ChooseSource(sources: seq<string>): (r: Result<Source, SourceFault>)
    ensures r.Failure? <==> sources == []
    ensures r.Success? && r.value.VideoFile? <==> sources != [] && IsVideoFile(sources[0])
    ensures r.Success? && r.value.VideoFile? ==> r.value.path == sources[0]
    ensures r.Success? && r.value.AllSources? ==> r.value.paths == sources
  {
    if sources == [] then Failure(NoSources)
    else if IsVideoFile(sources[0]) then Success(VideoFile(sources[0]))
    else Success(AllSources(sources))
  }

  /** `_try_set_collecting`: a result with boxes becomes the stored result, keeping the
      open time of a window already open; a result without boxes changes nothing. */
  function TrySetCollecting(w: Option<Collecting>, o: Observation): (r: Option<Collecting>)
    ensures o.top.None? ==> r == w
    ensures o.top.Some? ==>
      && r.Some?
      && r.value.since == (if w.Some? then w.value.since else o.time)
      && r.value.maxConfidence == o.top.value
      && r.value.result == o.frame
  {
    if o.top.Some? then
      Some(Collecting(if w.Some? then w.value.since else o.time, o.top.value, o.frame))
    else w
  }

  /** The exporters one export called, and whether the last of them raised. */
  datatype Dispatch = Dispatch(called: seq<Exporter>, raised: bool)

  /** The export loop of `_try_export`: exporters are called in order and the first one
      that raises ends the loop, propagating the exception. */
  function DispatchInOrder(exporters: seq<Exporter>, raises: Exporter -> bool): (r: Dispatch)
    ensures r.raised <==> exists i :: 0 <= i < |exporters| && raises(exporters[i])
    ensures !r.raised ==> r.called == exporters
    ensures r.raised ==>
      && 0 < |r.called| <= |exporters|
      && r.called == exporters[..|r.called|]
      && raises(r.called[|r.called| - 1])
      && forall i :: 0 <= i < |r.called| - 1 ==> !raises(r.called[i])
    decreases |exporters|
  {
    if exporters == [] then Dispatch([], false)
    else if raises(exporters[0]) then Dispatch([exporters[0]], true)
    else
      var tail := exporters[1..];
      var rest := DispatchInOrder(tail, raises);
      assert forall i :: 0 <= i < |tail| ==> tail[i] == exporters[i + 1];
      assert rest.raised ==> [exporters[0]] + rest.called == exporters[..|rest.called| + 1] by {
        if rest.raised {
          assert exporters[..|rest.called| + 1] == [exporters[0]] + tail[..|rest.called|];
        }
      }
      assert (exists i :: 0 <= i < |exporters| && raises(exporters[i]))
        <==> (exists i :: 0 <= i < |tail| && raises(tail[i])) by {
        if exists i :: 0 <= i < |exporters| && raises(exporters[i]) {
          var i :| 0 <= i < |exporters| && raises(exporters[i]);
          assert i > 0 && raises(tail[i - 1]);
        }
      }
      Dispatch([exporters[0]] + rest.called, rest.raised)
  }

  /** The outcome of one `_try_export` call. */
  datatype ExportStep = ExportStep(window: Option<Collecting>, exported: Option<FrameId>, dispatch: Dispatch)

  /** `_try_export`: a window at least `collection_seconds` old sends its stored result to
      the exporters and is dropped, unless an exporter raises, in which case the window
      is left as it was. */
  function TryExport(collectionSeconds: int, w: Option<Collecting>, now: Time,
                     exporters: seq<Exporter>, raises: Exporter -> bool): (r: ExportStep)
    ensures r.exported.Some? <==> w.Some? && now - w.value.since >= collectionSeconds * Second
    ensures r.exported.Some? ==>
      r.exported.value == w.value.result && r.dispatch == DispatchInOrder(exporters, raises)
    ensures r.exported.Some? && !r.dispatch.raised ==> r.window.None?
    ensures r.exported.None? || r.dispatch.raised ==> r.window == w
    ensures r.exported.None? ==> r.dispatch == Dispatch([], false)
  {
    if w.Some? && now - w.value.since >= collectionSeconds * Second then
      var d := DispatchInOrder(exporters, raises);
      ExportStep(if d.raised then w else None, Some(w.value.result), d)
    else ExportStep(w, None, Dispatch([], false))
  }

  /** How the prediction loop ended: the last window, the exported results in order, and
      whether an exporter's exception ended it. */
  datatype Outcome = Outcome(window: Option<Collecting>, exported: seq<FrameId>, aborted: bool)

  /** The `for result in results` loop of `detect`. */
  function Feed(collectionSeconds: int, w: Option<Collecting>, os: seq<Observation>,
                exporters: seq<Exporter>, raises: Exporter -> bool): Outcome
    decreases |os|
  {
    if os == [] then Outcome(w, [], false)
    else
      var e := TryExport(collectionSeconds, TrySetCollecting(w, os[0]), os[0].time, exporters, raises);
      var sent := if e.exported.Some? then [e.exported.value] else [];
      if e.dispatch.raised then Outcome(e.window, sent, true)
      else
        var rest := Feed(collectionSeconds, e.window, os[1..], exporters, raises);
        Outcome(rest.window, sent + rest.exported, rest.aborted)
  }

  /** The window after a run of results when no export happens: `_try_set_collecting` folded. */
  function Gather(w: Option<Collecting>, os: seq<Observation>): Option<Collecting>
    decreases |os|
  {
    if os == [] then w else Gather(TrySetCollecting(w, os[0]), os[1..])
  }

  /** The last result with boxes. */
  function LastBoxed(os: seq<Observation>): (r: Option<Observation>)
    ensures r.Some? ==> r.value in os && r.value.top.Some?
    decreases |os|
  {
    if os == [] then None
    else if os[|os| - 1].top.Some? then Some(os[|os| - 1])
    else LastBoxed(os[..|os| - 1])
  }

  /** The first result with boxes. */
  function FirstBoxed(os: seq<Observation>): (r: Option<Observation>)
    ensures r.Some? ==> r.value in os && r.value.top.Some?
    ensures r.None? <==> LastBoxed(os).None?
    decreases |os|
  {
    if os == [] then None
    else if os[0].top.Some? then
      assert os[|os| - 1] in os;
      LastBoxedSome(os, 0);
      Some(os[0])
    else
      var r := FirstBoxed(os[1..]);
      LastBoxedOfTail(os);
      r
  }

  /** A run with a result with boxes at `i` has a last result with boxes. */
  lemma {:induction false} LastBoxedSome(os: seq<Observation>, i: nat)
    requires i < |os| && os[i].top.Some?
    ensures LastBoxed(os).Some?
    decreases |os|
  {
    if os[|os| - 1].top.None? {
      LastBoxedSome(os[..|os| - 1], i);
    }
  }

  /** Dropping a first result without boxes does not change the last result with boxes. */
  lemma {:induction false} LastBoxedOfTail(os: seq<Observation>)
    requires os != [] && os[0].top.None?
    ensures LastBoxed(os) == LastBoxed(os[1..])
    decreases |os|
  {
    if |os| > 1 && os[|os| - 1].top.None? {
      assert os[1..][..|os[1..]| - 1] == os[..|os| - 1][1..];
      LastBoxedOfTail(os[..|os| - 1]);
    }
  }

  /** Without an export, the window holds the most recent result with boxes (not the most
      confident one), opened at the first result with boxes unless it was open already. */
  lemma {:induction false} GatherKeepsLatestBoxed(w: Option<Collecting>, os: seq<Observation>)
    ensures LastBoxed(os).None? ==> Gather(w, os) == w
    ensures LastBoxed(os).Some? ==>
      var last := LastBoxed(os).value;
      Gather(w, os)
      == Some(Collecting(if w.Some? then w.value.since else FirstBoxed(os).value.time,
                         last.top.value, last.frame))
    decreases |os|
  {
    if os != [] {
      var w1 := TrySetCollecting(w, os[0]);
      GatherKeepsLatestBoxed(w1, os[1..]);
      if os[0].top.None? {
        LastBoxedOfTail(os);
      } else {
        LastBoxedOfHead(os);
      }
    }
  }

  /** With a first result with boxes, the last result with boxes of the run is that of the
      tail, or the first result itself when the tail has none. */
  lemma {:induction false} LastBoxedOfHead(os: seq<Observation>)
    requires os != [] && os[0].top.Some?
    ensures LastBoxed(os) == if LastBoxed(os[1..]).Some? then LastBoxed(os[1..]) else Some(os[0])
    decreases |os|
  {
    if |os| == 1 {
      assert os[..0] == [];
    } else if os[|os| - 1].top.None? {
      assert os[1..][..|os[1..]| - 1] == os[..|os| - 1][1..];
      LastBoxedOfHead(os[..|os| - 1]);
    } else {
      assert os[1..][|os[1..]| - 1] == os[|os| - 1];
    }
  }

  /** Results that never make the window due are simply gathered: nothing is exported. */
  lemma {:induction false} NothingDueNothingExported(collectionSeconds: int, w: Option<Collecting>,
      os: seq<Observation>, exporters: seq<Exporter>, raises: Exporter -> bool)
    requires forall n :: 0 < n <= |os| ==>
      var g := Gather(w, os[..n]);
      g.None? || os[n - 1].time - g.value.since < collectionSeconds * Second
    ensures Feed(collectionSeconds, w, os, exporters, raises) == Outcome(Gather(w, os), [], false)
    decreases |os|
  {
    if os != [] {
      var w1 := TrySetCollecting(w, os[0]);
      assert os[..1] == [os[0]];
      assert Gather(w, [os[0]]) == w1 by {
        assert [os[0]][1..] == [];
      }
      forall n | 0 < n <= |os[1..]|
        ensures var g := Gather(w1, os[1..][..n]);
          g.None? || os[1..][n - 1].time - g.value.since < collectionSeconds * Second
      {
        assert os[..n + 1][1..] == os[1..][..n];
        assert os[..n + 1][0] == os[0];
      }
      NothingDueNothingExported(collectionSeconds, w1, os[1..], exporters, raises);
    }
  }
}
