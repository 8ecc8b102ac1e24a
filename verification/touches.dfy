/**
 What a batch of touch events does to the dictionary of lines in progress.
 UIKit hands each handler a `Set<UITouch>`; here a batch is a sequence of
 touches with distinct ids, in the order the handler's loop visits them. The
 key `NSValue(nonretainedObject: t)` becomes the touch's integer id.
 */
module Touches {
  import opened Geometry

  type TouchId = int

  /** One touch of a batch, with the location it reports in the view. */
  datatype Touch = Touch(id: TouchId, location: Point)

  function Ids(ts: seq<Touch>): set<TouchId> {
    set t | t in ts :: t.id
  }

  /** A `Set<UITouch>` holds each touch once. */
  predicate DistinctIds(ts: seq<Touch>) {
    forall i, j | 0 <= i < j < |ts| :: ts[i].id != ts[j].id
  }

  lemma IdsSnoc(ts: seq<Touch>)
    requires ts != []
    ensures Ids(ts) == Ids(ts[..|ts| - 1]) + {ts[|ts| - 1].id}
  {
    assert ts == ts[..|ts| - 1] + [ts[|ts| - 1]];
  }

  lemma IdsPrefix(ts: seq<Touch>, i: nat)
    requires i < |ts|
    ensures Ids(ts[..i + 1]) == Ids(ts[..i]) + {ts[i].id}
  {
    assert ts[..i + 1][..i] == ts[..i];
    IdsSnoc(ts[..i + 1]);
  }

  lemma NotInEarlierIds(ts: seq<Touch>, i: nat)
    requires DistinctIds(ts) && i < |ts|
    ensures ts[i].id !in Ids(ts[..i])
  {
  }

  /**
   `touchesBegan` (lines 147-154): each touch stores a fresh zero-length line at
   its location under its key, replacing whatever the key held.
   */
  function BeginAll(m: map<TouchId, Line>, ts: seq<Touch>): (r: map<TouchId, Line>)
    ensures r.Keys == m.Keys + Ids(ts)
    decreases |ts|
  {
    if ts == [] then m
    else
      var t := ts[|ts| - 1];
      IdsSnoc(ts);
      BeginAll(m, ts[..|ts| - 1])[t.id := Dot(t.location)]
  }

  /**
   `touchesMoved` (lines 160-164): the line of each tracked touch gets the touch
   location as its end; an untracked touch changes nothing (`line?.end`).
   */
  function MoveAll(m: map<TouchId, Line>, ts: seq<Touch>): (r: map<TouchId, Line>)
    ensures r.Keys == m.Keys
    decreases |ts|
  {
    if ts == [] then m
    else
      var t := ts[|ts| - 1];
      var r := MoveAll(m, ts[..|ts| - 1]);
      if t.id in r then r[t.id := r[t.id].(end := t.location)] else r
  }

  /** `touchesEnded` (lines 170-175): the lines the batch moves to `finishedLines`, in loop order. */
  function EndedLines(m: map<TouchId, Line>, ts: seq<Touch>): (r: seq<Line>)
    requires Ids(ts) <= m.Keys
    ensures |r| == |ts|
    decreases |ts|
  {
    if ts == [] then []
    else
      IdsSnoc(ts);
      EndedLines(m, ts[..|ts| - 1]) + [m[ts[|ts| - 1].id]]
  }

  /** Each touch of the batch holds a zero-length line at its location afterwards. */
  lemma {:induction false} BeginAllNew(m: map<TouchId, Line>, ts: seq<Touch>, i: nat)
    requires DistinctIds(ts) && i < |ts|
    ensures BeginAll(m, ts)[ts[i].id] == Dot(ts[i].location)
    decreases |ts|
  {
    if i < |ts| - 1 {
      var p := ts[..|ts| - 1];
      assert p[i] == ts[i];
      BeginAllNew(m, p, i);
    }
  }

  /** Keys the batch does not mention keep their lines. */
  lemma {:induction false} BeginAllKeeps(m: map<TouchId, Line>, ts: seq<Touch>, k: TouchId)
    requires k in m && k !in Ids(ts)
    ensures BeginAll(m, ts)[k] == m[k]
    decreases |ts|
  {
    if ts != [] {
      IdsSnoc(ts);
      BeginAllKeeps(m, ts[..|ts| - 1], k);
    }
  }

  /** A tracked touch's line keeps its begin and takes the touch location as its end. */
  lemma {:induction false} MoveAllTracked(m: map<TouchId, Line>, ts: seq<Touch>, i: nat)
    requires DistinctIds(ts) && i < |ts| && ts[i].id in m
    ensures MoveAll(m, ts)[ts[i].id] == Line(m[ts[i].id].begin, ts[i].location)
    decreases |ts|
  {
    var p := ts[..|ts| - 1];
    if i < |ts| - 1 {
      assert p[i] == ts[i];
      MoveAllTracked(m, p, i);
    } else {
      MoveAllKeeps(m, p, ts[i].id);
    }
  }

  /** Keys the batch does not mention keep their lines. */
  lemma {:induction false} MoveAllKeeps(m: map<TouchId, Line>, ts: seq<Touch>, k: TouchId)
    requires k in m && k !in Ids(ts)
    ensures MoveAll(m, ts)[k] == m[k]
    decreases |ts|
  {
    if ts != [] {
      IdsSnoc(ts);
      MoveAllKeeps(m, ts[..|ts| - 1], k);
    }
  }

  /** The i-th line appended is the line of the i-th touch. */
  lemma {:induction false} EndedLinesAt(m: map<TouchId, Line>, ts: seq<Touch>, i: nat)
    requires Ids(ts) <= m.Keys && i < |ts|
    ensures ts[i].id in m && EndedLines(m, ts)[i] == m[ts[i].id]
    decreases |ts|
  {
    IdsSnoc(ts);
    if i < |ts| - 1 {
      var p := ts[..|ts| - 1];
      assert p[i] == ts[i];
      EndedLinesAt(m, p, i);
    }
  }

  lemma {:induction false} DistinctIdsCard(ts: seq<Touch>)
    requires DistinctIds(ts)
    ensures |Ids(ts)| == |ts|
    decreases |ts|
  {
    if ts != [] {
      var p := ts[..|ts| - 1];
      IdsSnoc(ts);
      NotInEarlierIds(ts, |ts| - 1);
      assert p == ts[..|ts| - 1];
      DistinctIdsCard(p);
    }
  }

  /**
   Ending a batch of tracked touches neither creates nor loses lines: what leaves
   the dictionary is what is appended to the finished list.
   */
  lemma EndedConservesLines(m: map<TouchId, Line>, finished: seq<Line>, ts: seq<Touch>)
    requires DistinctIds(ts) && Ids(ts) <= m.Keys
    ensures |m - Ids(ts)| + |finished + EndedLines(m, ts)| == |m| + |finished|
  {
    DistinctIdsCard(ts);
    assert (m - Ids(ts)).Keys == m.Keys - Ids(ts);
    assert m.Keys == (m.Keys - Ids(ts)) + Ids(ts);
  }
}
