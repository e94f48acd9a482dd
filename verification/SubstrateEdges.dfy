/** The edge recorder of the autonomy gate: one red edge, one recovery, one red edge, and so on, per capability. */
module SubstrateEdges {
  import opened Basics
  import opened PolicyText

  datatype Status = Red | Green | Other

  /** One row of a capability report, and whether recording an edge for it succeeds. */
  datatype Row = Row(id: string, status: Status, recorded: bool)

  datatype Edge = RedEdge(capability: string, at: int) | Recovery(capability: string, redAt: int, greenAt: int)

  /** The recorder's memory and everything recorded so far. */
  datatype Recorder = Recorder(redAt: map<string, int>, edges: seq<Edge>)

  function Observe(r: Recorder, row: Row, checkedAt: int): Recorder {
    var capability := TrimSpace(row.id);
    if capability == "" then r
    else if row.status == Red && capability !in r.redAt then
      if row.recorded then Recorder(r.redAt[capability := checkedAt], r.edges + [RedEdge(capability, checkedAt)]) else r
    else if row.status == Green && capability in r.redAt then
      if row.recorded
      then Recorder(r.redAt - {capability}, r.edges + [Recovery(capability, r.redAt[capability], checkedAt)]) else r
    else r
  }

  function ObserveAll(r: Recorder, rows: seq<Row>, checkedAt: int): Recorder
    decreases |rows|
  {
    if rows == [] then r else ObserveAll(Observe(r, rows[0], checkedAt), rows[1..], checkedAt)
  }

  /** The state after any number of reports. */
  function AfterReports(reports: seq<(seq<Row>, int)>): Recorder {
    if reports == [] then Recorder(map[], [])
    else ObserveAll(AfterReports(reports[..|reports| - 1]), reports[|reports| - 1].0, reports[|reports| - 1].1)
  }

  /** What one capability's edges say it is: red since some time, or not red; None if they do not alternate. */
  function Standing(edges: seq<Edge>, capability: string): Option<Option<int>> {
    if edges == [] then Some(None)
    else
      var before := Standing(edges[..|edges| - 1], capability);
      var e := edges[|edges| - 1];
      if e.capability != capability then before
      else match e
        case RedEdge(_, at) => if before == Some(None) then Some(Some(at)) else None
        case Recovery(_, redAt, _) => if before == Some(Some(redAt)) then Some(None) else None
  }

  /** The recorder's memory is what the recorded edges say, for every capability. */
  ghost predicate Faithful(r: Recorder) {
    forall c: string :: Standing(r.edges, c) == Some(if c in r.redAt then Some(r.redAt[c]) else None)
  }

  lemma StandingMore(edges: seq<Edge>, e: Edge, c: string)
    ensures Standing(edges + [e], c) ==
      (var before := Standing(edges, c);
       if e.capability != c then before
       else match e
         case RedEdge(_, at) => if before == Some(None) then Some(Some(at)) else None
         case Recovery(_, redAt, _) => if before == Some(Some(redAt)) then Some(None) else None)
  {
    assert (edges + [e])[..|edges|] == edges;
  }

  lemma ObserveFaithful(r: Recorder, row: Row, checkedAt: int)
    requires Faithful(r)
    ensures Faithful(Observe(r, row, checkedAt)) && r.edges <= Observe(r, row, checkedAt).edges
  {
    var r' := Observe(r, row, checkedAt);
    if r' != r {
      var e := r'.edges[|r.edges|];
      forall c: string
        ensures Standing(r'.edges, c) == Some(if c in r'.redAt then Some(r'.redAt[c]) else None)
      {
        StandingMore(r.edges, e, c);
      }
    }
  }

  lemma {:induction false} ObserveAllFaithful(r: Recorder, rows: seq<Row>, checkedAt: int)
    requires Faithful(r)
    ensures Faithful(ObserveAll(r, rows, checkedAt)) && r.edges <= ObserveAll(r, rows, checkedAt).edges
    decreases |rows|
  {
    if rows != [] {
      ObserveFaithful(r, rows[0], checkedAt);
      ObserveAllFaithful(Observe(r, rows[0], checkedAt), rows[1..], checkedAt);
    }
  }

  /**
   Whatever the reports and whichever recordings fail, each capability's edges strictly alternate,
   starting red, and every recovery carries the time of its own red edge.
   */
  lemma {:induction false} EdgesAlternate(reports: seq<(seq<Row>, int)>, capability: string)
    ensures Standing(AfterReports(reports).edges, capability).Some? && Faithful(AfterReports(reports))
    decreases |reports|
  {
    if reports != [] {
      EdgesAlternate(reports[..|reports| - 1], capability);
      ObserveAllFaithful(AfterReports(reports[..|reports| - 1]), reports[|reports| - 1].0, reports[|reports| - 1].1);
    }
  }

  // --- What is recorded ---

  /** What one row does, for every kind of row: a new red edge, the recovery from the standing one, or nothing. */
  lemma RowRecorded(r: Recorder, row: Row, checkedAt: int)
    ensures var c, r' := TrimSpace(row.id), Observe(r, row, checkedAt);
      if c != "" && row.recorded && row.status == Red && c !in r.redAt
      then r'.edges == r.edges + [RedEdge(c, checkedAt)] && r'.redAt == r.redAt[c := checkedAt]
      else if c != "" && row.recorded && row.status == Green && c in r.redAt
      then r'.edges == r.edges + [Recovery(c, r.redAt[c], checkedAt)] && r'.redAt == r.redAt - {c}
      else r' == r
  {
  }

  /** The last thing a report says of a capability: red, green, or neither. */
  function LastSaid(rows: seq<Row>, c: string): Option<Status> {
    if rows == [] then None
    else
      var row := rows[|rows| - 1];
      if TrimSpace(row.id) == c && row.status != Other then Some(row.status) else LastSaid(rows[..|rows| - 1], c)
  }

  lemma {:induction false} ObserveLast(r: Recorder, rows: seq<Row>, row: Row, checkedAt: int)
    ensures ObserveAll(r, rows + [row], checkedAt) == Observe(ObserveAll(r, rows, checkedAt), row, checkedAt)
    decreases |rows|
  {
    if rows == [] {
      assert rows + [row] == [row] && [row][1..] == [];
    } else {
      assert (rows + [row])[1..] == rows[1..] + [row];
      ObserveLast(Observe(r, rows[0], checkedAt), rows[1..], row, checkedAt);
    }
  }

  /**
   The memory follows the report: if every edge of a capability can be recorded, then after the report the
   capability is held red exactly if the last thing said of it was red, or if it was red before and nothing
   was said. A capability held red all along keeps the time of its red edge.
   */
  lemma {:induction false} MemoryFollowsReport(r: Recorder, rows: seq<Row>, checkedAt: int, c: string)
    requires c != "" && forall row <- rows :: TrimSpace(row.id) == c ==> row.recorded
    ensures var r' := ObserveAll(r, rows, checkedAt);
      && (c in r'.redAt <==> LastSaid(rows, c) == Some(Red) || (LastSaid(rows, c) == None && c in r.redAt))
      && (c in r'.redAt ==> r'.redAt[c] == checkedAt || (c in r.redAt && r'.redAt[c] == r.redAt[c]))
    decreases |rows|
  {
    if rows != [] {
      var front, row := rows[..|rows| - 1], rows[|rows| - 1];
      assert rows == front + [row];
      ObserveLast(r, front, row, checkedAt);
      MemoryFollowsReport(r, front, checkedAt, c);
      RowRecorded(ObserveAll(r, front, checkedAt), row, checkedAt);
    }
  }

  /** The edges of one capability, in order. */
  function EdgesOf(edges: seq<Edge>, c: string): seq<Edge> {
    if edges == [] then []
    else EdgesOf(edges[..|edges| - 1], c) + (if edges[|edges| - 1].capability == c then [edges[|edges| - 1]] else [])
  }

  /** Red edges stand at the even places; the recovery after each carries its time. */
  ghost predicate Alternating(es: seq<Edge>) {
    forall k: nat | k < |es| :: InTurn(es, k)
  }

  ghost predicate InTurn(es: seq<Edge>, k: nat)
    requires k < |es|
  {
    if k % 2 == 0 then es[k].RedEdge? else es[k].Recovery? && es[k - 1].RedEdge? && es[k].redAt == es[k - 1].at
  }

  lemma AlternatingMore(es: seq<Edge>, e: Edge)
    ensures Alternating(es + [e]) <==>
      Alternating(es) && if |es| % 2 == 0 then e.RedEdge?
                         else e.Recovery? && es[|es| - 1].RedEdge? && e.redAt == es[|es| - 1].at
  {
    var all := es + [e];
    forall k: nat | k < |es|
      ensures InTurn(all, k) <==> InTurn(es, k)
    {
      assert all[k] == es[k] && (k > 0 ==> all[k - 1] == es[k - 1]);
    }
    assert InTurn(all, |es|) <==> if |es| % 2 == 0 then e.RedEdge?
                                  else e.Recovery? && es[|es| - 1].RedEdge? && e.redAt == es[|es| - 1].at;
  }

  /** What a standing says about the last edge of the capability. */
  ghost predicate LastEdge(es: seq<Edge>, standing: Option<int>) {
    if |es| % 2 == 0 then standing == None else es[|es| - 1].RedEdge? && standing == Some(es[|es| - 1].at)
  }

  /** Having a standing is the same as alternating in that sense. */
  lemma {:induction false} StandingMeaning(edges: seq<Edge>, c: string)
    ensures Standing(edges, c).Some? <==> Alternating(EdgesOf(edges, c))
    ensures Standing(edges, c).Some? ==> LastEdge(EdgesOf(edges, c), Standing(edges, c).value)
  {
    if edges != [] {
      var es, e := EdgesOf(edges[..|edges| - 1], c), edges[|edges| - 1];
      StandingMeaning(edges[..|edges| - 1], c);
      AlternatingMore(es, e);
      assert EdgesOf(edges, c) == if e.capability == c then es + [e] else es;
    }
  }

  class EdgeRecorder {
    var redAt: map<string, int>
    var edges: seq<Edge>

    constructor ()
      ensures Value() == Recorder(map[], [])
    {
      redAt, edges := map[], [];
    }

    ghost function Value(): Recorder
      reads this
    {
      Recorder(redAt, edges)
    }

    /** One report under the recorder's lock. */
    method RecordReport(rows: seq<Row>, checkedAt: int)
      modifies this
      ensures Value() == ObserveAll(old(Value()), rows, checkedAt)
    {
      assert rows[0..] == rows;
      for i := 0 to |rows|
        invariant ObserveAll(Value(), rows[i..], checkedAt) == ObserveAll(old(Value()), rows, checkedAt)
      {
        assert rows[i..][0] == rows[i] && rows[i..][1..] == rows[i + 1..];
        var row := rows[i];
        var capability := TrimSpace(row.id);
        if capability == "" {
          continue;
        }
        if row.status == Red && capability !in redAt {
          if !row.recorded {
            continue;
          }
          edges := edges + [RedEdge(capability, checkedAt)];
          redAt := redAt[capability := checkedAt];
        } else if row.status == Green && capability in redAt {
          if !row.recorded {
            continue;
          }
          edges := edges + [Recovery(capability, redAt[capability], checkedAt)];
          redAt := redAt - {capability};
        }
      }
    }
  }
}
