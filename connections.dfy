/** Grouping of a tagged profile into drawing instructions: consecutive points
    with the same connection type form one run, each run shares its boundary
    point with the next, and the last run is closed back to the first point.
    The same loop appears in the Princeton-D coil and in the mixed sweep. */
module Connections {
  import opened Wrappers
  import opened Paramak

  /** One drawing instruction `{connection: [points]}`. */
  datatype Run = Run(tag: Connection, pts: seq<Point>)

  /** One step of the grouping loop: the point `p` ends the current run; when
      its connection differs from the run's, it also starts a new run. */
  function Extend(runs: seq<Run>, p: TaggedPoint): seq<Run>
    requires |runs| > 0
  {
    var last := Last(runs);
    var ended := Run(last.tag, last.pts + [p.pt]);
    if p.tag == last.tag then runs[..|runs| - 1] + [ended]
    else runs[..|runs| - 1] + [ended, Run(p.tag, [p.pt])]
  }

  /** The runs the grouping loop has built (the finished ones and the current
      one) after it has visited every entry of `ps`. */
  function Group(ps: seq<TaggedPoint>): (runs: seq<Run>)
    requires |ps| > 0
    ensures |runs| > 0
    ensures Last(runs).tag == Last(ps).tag
    ensures |Last(runs).pts| > 0 && Last(Last(runs).pts) == Last(ps).pt
    decreases |ps|
  {
    if |ps| == 1 then [Run(ps[0].tag, [ps[0].pt])]
    else Extend(Group(ps[..|ps| - 1]), Last(ps))
  }

  /** Appends `start` to the last run unless that run already ends there. */
  function Close(runs: seq<Run>, start: Point): (r: seq<Run>)
    requires |runs| > 0 && |Last(runs).pts| > 0
    ensures |r| == |runs| && r[..|r| - 1] == runs[..|runs| - 1]
    ensures Last(r).tag == Last(runs).tag
    ensures |Last(runs).pts| <= |Last(r).pts| <= |Last(runs).pts| + 1
    ensures Last(r).pts[..|Last(runs).pts|] == Last(runs).pts
    ensures Last(Last(r).pts) == start
  {
    var last := Last(runs);
    if Last(last.pts) != start then runs[..|runs| - 1] + [Run(last.tag, last.pts + [start])]
    else runs
  }

  /** Adjacent runs carry different connection types. */
  ghost predicate Alternating(runs: seq<Run>)
  {
    forall k :: 0 < k < |runs| ==> runs[k - 1].tag != runs[k].tag
  }

  /** Every run has a point, and every run after the first begins with the
      point that ended the run before it. */
  ghost predicate Chained(runs: seq<Run>)
  {
    && (forall k :: 0 <= k < |runs| ==> |runs[k].pts| > 0)
    && (forall k :: 0 < k < |runs| ==> LinkedAt(runs, k))
  }

  /** Run `k` begins with the point that ended run `k - 1`. */
  ghost predicate LinkedAt(runs: seq<Run>, k: int)
    requires 0 < k < |runs|
  {
    |runs[k - 1].pts| > 0 && |runs[k].pts| > 0 && runs[k].pts[0] == Last(runs[k - 1].pts)
  }

  /** The number of positions where the connection type changes from one
      entry of `ps` to the next. */
  function TagChanges(ps: seq<TaggedPoint>): nat
  {
    if |ps| < 2 then 0
    else TagChanges(ps[..|ps| - 1]) + (if ps[|ps| - 2].tag != Last(ps).tag then 1 else 0)
  }

  /** Every point of `pts`, tagged `tag`. */
  function Tagged(pts: seq<Point>, tag: Connection): (r: seq<TaggedPoint>)
  {
    seq(|pts|, i requires 0 <= i < |pts| => TaggedPoint(pts[i], tag))
  }

  /** The profile entries a run stands for: its points tagged with its
      connection, except its last point, which belongs to the next run. */
  function Expand(run: Run): seq<TaggedPoint>
  {
    if |run.pts| == 0 then [] else Tagged(run.pts[..|run.pts| - 1], run.tag)
  }

  /** Reads a tagged profile back from drawing instructions. */
  function Ungroup(runs: seq<Run>): seq<TaggedPoint>
  {
    if |runs| == 0 then [] else Ungroup(runs[..|runs| - 1]) + Expand(Last(runs))
  }

  /** Unfolds `Group` on a prefix one entry longer. */
  lemma GroupSnoc(ps: seq<TaggedPoint>, i: nat)
    requires 0 < i < |ps|
    ensures Group(ps[..i + 1]) == Extend(Group(ps[..i]), ps[i])
  {
    assert ps[..i + 1][..i] == ps[..i];
  }

  /** `Extend` on the finished runs followed by the current run. */
  lemma ExtendCurrent(done: seq<Run>, tag: Connection, pts: seq<Point>, p: TaggedPoint)
    ensures p.tag == tag ==> Extend(done + [Run(tag, pts)], p) == done + [Run(tag, pts + [p.pt])]
    ensures p.tag != tag ==> Extend(done + [Run(tag, pts)], p) == (done + [Run(tag, pts + [p.pt])]) + [Run(p.tag, [p.pt])]
  {
    var runs := done + [Run(tag, pts)];
    assert runs[..|runs| - 1] == done;
  }

  /** The grouping loop of `create_solid`. `connections[0]` raises IndexError
      when the profile has fewer than two entries; otherwise the runs are those
      of every entry but the last, closed back to the first point. */
  method GroupConnections(points: seq<TaggedPoint>) returns (r: Result<seq<Run>>)
    ensures r.Err? <==> |points| < 2
    ensures r.Err? ==> r.error == IndexError
    ensures r.Ok? ==> |points| >= 2 && r.value == Close(Group(points[..|points| - 1]), points[0].pt)
  {
    if |points| < 2 {
      return Err(IndexError);
    }
    var n := |points| - 1;
    var currentLinetype := points[0].tag;
    var currentPointsList: seq<Point> := [];
    var instructions: seq<Run> := [];
    var i := 0;
    while i < n
      invariant 0 <= i <= n
      invariant i == 0 ==> instructions == [] && currentPointsList == [] && currentLinetype == points[0].tag
      invariant i > 0 ==> instructions + [Run(currentLinetype, currentPointsList)] == Group(points[..i])
    {
      var c := points[i].tag;
      ghost var prev, prevType, prevList := instructions, currentLinetype, currentPointsList;
      if c == currentLinetype {
        currentPointsList := currentPointsList + [points[i].pt];
      } else {
        currentPointsList := currentPointsList + [points[i].pt];
        instructions := instructions + [Run(currentLinetype, currentPointsList)];
        currentLinetype := c;
        currentPointsList := [points[i].pt];
      }
      if i > 0 {
        GroupSnoc(points, i);
        ExtendCurrent(prev, prevType, prevList, points[i]);
        assert instructions + [Run(currentLinetype, currentPointsList)] == Extend(prev + [Run(prevType, prevList)], points[i]);
      } else {
        assert currentPointsList == [points[0].pt] && instructions == [];
        assert Group(points[..1]) == [Run(points[0].tag, [points[0].pt])];
      }
      i := i + 1;
    }
    instructions := instructions + [Run(currentLinetype, currentPointsList)];
    assert points[..n] == points[..|points| - 1];
    var last := Last(instructions);
    if Last(last.pts) != points[0].pt {
      instructions := instructions[..|instructions| - 1] + [Run(last.tag, last.pts + [points[0].pt])];
    }
    r := Ok(instructions);
  }

  /** Ending the last run at one more point keeps the runs alternating and
      chained. */
  lemma EndedShape(runs: seq<Run>, q: Point)
    requires |runs| > 0 && Alternating(runs) && Chained(runs)
    ensures var ended := runs[..|runs| - 1] + [Run(Last(runs).tag, Last(runs).pts + [q])];
      Alternating(ended) && Chained(ended) && ended[0].pts[0] == runs[0].pts[0]
  {
    var done := runs[..|runs| - 1];
    var last := Last(runs);
    var ended := Run(last.tag, last.pts + [q]);
    assert runs == done + [last];
    var mid := done + [ended];
    assert forall k :: 0 <= k < |done| ==> mid[k] == runs[k];
    assert Last(mid) == ended && |ended.pts| > 0 && ended.pts[0] == last.pts[0];
    assert Alternating(mid);
    forall k | 0 < k < |mid| ensures LinkedAt(mid, k) {
      assert LinkedAt(runs, k);
    }
  }

  /** Starting a run of another connection at the point where the last run
      ends keeps the runs alternating and chained. */
  lemma StartedShape(runs: seq<Run>, p: TaggedPoint)
    requires |runs| > 0 && Alternating(runs) && Chained(runs)
    requires Last(runs).tag != p.tag && Last(Last(runs).pts) == p.pt
    ensures var started := runs + [Run(p.tag, [p.pt])];
      Alternating(started) && Chained(started) && started[0] == runs[0]
  {
    var r := runs + [Run(p.tag, [p.pt])];
    assert forall k :: 0 <= k < |runs| ==> r[k] == runs[k];
    forall k | 0 < k < |r| ensures LinkedAt(r, k) {
      if k < |runs| { assert LinkedAt(runs, k); }
    }
  }

  /** `Extend` keeps the runs alternating and chained. */
  lemma ExtendShape(runs: seq<Run>, p: TaggedPoint)
    requires |runs| > 0 && Alternating(runs) && Chained(runs)
    ensures Alternating(Extend(runs, p)) && Chained(Extend(runs, p))
    ensures Extend(runs, p)[0].pts[0] == runs[0].pts[0]
    ensures Last(Extend(runs, p)).tag == p.tag
    ensures Last(Last(Extend(runs, p)).pts) == p.pt
  {
    var last := Last(runs);
    var mid := runs[..|runs| - 1] + [Run(last.tag, last.pts + [p.pt])];
    EndedShape(runs, p.pt);
    if p.tag != last.tag {
      StartedShape(mid, p);
      assert Extend(runs, p) == mid + [Run(p.tag, [p.pt])];
    } else {
      assert Extend(runs, p) == mid;
    }
  }

  /** The runs alternate in connection type and are chained through their
      shared boundary points; the first starts at the first entry, and the
      last carries the last entry's connection and ends at its point. */
  lemma {:induction false} GroupShape(ps: seq<TaggedPoint>)
    requires |ps| > 0
    ensures Alternating(Group(ps)) && Chained(Group(ps))
    ensures |Group(ps)[0].pts| > 0 && Group(ps)[0].pts[0] == ps[0].pt
    ensures Last(Group(ps)).tag == Last(ps).tag
    ensures |Last(Group(ps)).pts| > 0 && Last(Last(Group(ps)).pts) == Last(ps).pt
    decreases |ps|
  {
    if |ps| > 1 {
      var pre := ps[..|ps| - 1];
      GroupShape(pre);
      ExtendShape(Group(pre), Last(ps));
      assert pre[0] == ps[0];
    }
  }

  /** There is one run more than there are changes of connection type. */
  lemma {:induction false} GroupCount(ps: seq<TaggedPoint>)
    requires |ps| > 0
    ensures |Group(ps)| == 1 + TagChanges(ps)
    decreases |ps|
  {
    if |ps| > 1 {
      var pre := ps[..|ps| - 1];
      GroupCount(pre);
      assert Last(pre) == ps[|ps| - 2];
    }
  }

  lemma TaggedSnoc(pts: seq<Point>, tag: Connection)
    requires |pts| > 0
    ensures Tagged(pts, tag) == Tagged(pts[..|pts| - 1], tag) + [TaggedPoint(Last(pts), tag)]
  {
  }

  lemma UngroupSnoc(done: seq<Run>, run: Run)
    ensures Ungroup(done + [run]) == Ungroup(done) + Expand(run)
  {
    assert (done + [run])[..|done|] == done;
  }

  /** A run extended by one point stands for all of its former points. */
  lemma ExpandEnded(run: Run, q: Point)
    requires |run.pts| > 0
    ensures Expand(Run(run.tag, run.pts + [q])) == Expand(run) + [TaggedPoint(Last(run.pts), run.tag)]
  {
    assert (run.pts + [q])[..|run.pts|] == run.pts;
    TaggedSnoc(run.pts, run.tag);
  }

  /** Reading back `Extend(runs, p)` adds the end point of the last run, with
      that run's connection. */
  lemma UngroupExtend(runs: seq<Run>, p: TaggedPoint)
    requires |runs| > 0 && |Last(runs).pts| > 0
    ensures Ungroup(Extend(runs, p)) == Ungroup(runs) + [TaggedPoint(Last(Last(runs).pts), Last(runs).tag)]
  {
    var done := runs[..|runs| - 1];
    var last := Last(runs);
    var ended := Run(last.tag, last.pts + [p.pt]);
    var tail := [TaggedPoint(Last(last.pts), last.tag)];
    assert runs == done + [last];
    UngroupSnoc(done, last);
    UngroupSnoc(done, ended);
    ExpandEnded(last, p.pt);
    assert Ungroup(done + [ended]) == Ungroup(runs) + tail;
    if p.tag != last.tag {
      var started := Run(p.tag, [p.pt]);
      UngroupSnoc(done + [ended], started);
      assert Expand(started) == [];
      assert Extend(runs, p) == (done + [ended]) + [started];
    } else {
      assert Extend(runs, p) == done + [ended];
    }
  }

  /** Extending runs that read back as all but the last entry of `pre` and
      end at that entry. */
  lemma UngroupExtendEnded(pre: seq<TaggedPoint>, runs: seq<Run>, p: TaggedPoint)
    requires |pre| > 0 && |runs| > 0 && |Last(runs).pts| > 0
    requires Ungroup(runs) == pre[..|pre| - 1]
    requires Last(runs).tag == Last(pre).tag && Last(Last(runs).pts) == Last(pre).pt
    ensures Ungroup(Extend(runs, p)) == pre
  {
    UngroupExtend(runs, p);
    assert TaggedPoint(Last(Last(runs).pts), Last(runs).tag) == Last(pre);
    assert pre == pre[..|pre| - 1] + [Last(pre)];
  }

  /** Reading the runs back gives every entry of `ps` but the last. */
  lemma {:induction false} UngroupGroup(ps: seq<TaggedPoint>)
    requires |ps| > 0
    ensures Ungroup(Group(ps)) == ps[..|ps| - 1]
    decreases |ps|
  {
    if |ps| > 1 {
      var pre := ps[..|ps| - 1];
      UngroupGroup(pre);
      UngroupExtendEnded(pre, Group(pre), Last(ps));
    }
  }

  /** Reading back closed runs adds the end point of the last run, with that
      run's connection, unless the last run already ends at `start`. */
  lemma UngroupCloseRuns(runs: seq<Run>, start: Point)
    requires |runs| > 0 && |Last(runs).pts| > 0
    ensures Ungroup(Close(runs, start))
      == Ungroup(runs) + (if Last(Last(runs).pts) == start then [] else [TaggedPoint(Last(Last(runs).pts), Last(runs).tag)])
  {
    var last := Last(runs);
    if Last(last.pts) != start {
      var done := runs[..|runs| - 1];
      var closed := Run(last.tag, last.pts + [start]);
      assert runs == done + [last];
      UngroupSnoc(done, last);
      UngroupSnoc(done, closed);
      ExpandEnded(last, start);
      assert Close(runs, start) == done + [closed];
    }
  }

  /** Closing runs that read back as all but the last entry of `ps` and end
      at that entry. */
  lemma UngroupCloseEnded(ps: seq<TaggedPoint>, runs: seq<Run>, start: Point)
    requires |ps| > 0 && |runs| > 0 && |Last(runs).pts| > 0
    requires Ungroup(runs) == ps[..|ps| - 1]
    requires Last(runs).tag == Last(ps).tag && Last(Last(runs).pts) == Last(ps).pt
    ensures Ungroup(Close(runs, start)) == if Last(ps).pt == start then ps[..|ps| - 1] else ps
  {
    UngroupCloseRuns(runs, start);
    if Last(ps).pt != start {
      assert TaggedPoint(Last(Last(runs).pts), Last(runs).tag) == Last(ps);
      assert ps == ps[..|ps| - 1] + [Last(ps)];
    }
  }

  /** Reading back the closed runs gives the whole of `ps`, unless its last
      point already lies on `start`: then that entry closes the loop and its
      connection is dropped. */
  lemma UngroupClose(ps: seq<TaggedPoint>, start: Point)
    requires |ps| > 0
    ensures Ungroup(Close(Group(ps), start)) == if Last(ps).pt == start then ps[..|ps| - 1] else ps
  {
    UngroupGroup(ps);
    UngroupCloseEnded(ps, Group(ps), start);
  }

  /** Closing the last run keeps the runs alternating and chained, and
      keeps where the first run begins. */
  lemma CloseShape(runs: seq<Run>, start: Point)
    requires |runs| > 0 && Alternating(runs) && Chained(runs)
    ensures Alternating(Close(runs, start)) && Chained(Close(runs, start))
    ensures Close(runs, start)[0].pts[0] == runs[0].pts[0]
  {
    if Last(Last(runs).pts) != start {
      EndedShape(runs, start);
    }
  }

  /** What `create_solid`'s grouping hands to the kernel for a profile of
      at least two entries: alternating, chained runs, one more than the tag
      changes among all entries but the last, drawn from the first point back
      to it; read back they give every entry but the last, less the
      last-but-one when it already sits at the first point. */
  lemma {:induction false} GroupedProfile(points: seq<TaggedPoint>)
    requires |points| >= 2
    ensures var ps := points[..|points| - 1];
      var runs := Close(Group(ps), points[0].pt);
      && Alternating(runs) && Chained(runs)
      && |runs| == 1 + TagChanges(ps)
      && runs[0].pts[0] == points[0].pt && Last(Last(runs).pts) == points[0].pt
      && Ungroup(runs) == if Last(ps).pt == points[0].pt then ps[..|ps| - 1] else ps
  {
    var ps := points[..|points| - 1];
    GroupShape(ps);
    GroupCount(ps);
    CloseShape(Group(ps), points[0].pt);
    UngroupClose(ps, points[0].pt);
  }
}
