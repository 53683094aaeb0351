/** The data side of the result-plotting task panel: the list of plottable
    labels, the table of chosen targets (label and legend per row, no label
    twice), and the extraction of per-target x and y series from the
    solver's time-indexed position and velocity tables. Widgets and charts
    are replaced by the values they hold. */
module PlotExtraction {
  import opened Optional

  // ---------------------------------------------------------------------
  // Solver results
  // ---------------------------------------------------------------------

  /** The first two components of a result vector; later components are
      never read. */
  datatype Planar = Planar(x: real, y: real)

  /** A result table, indexed first by reported-time index and then by body
      or point index. */
  type Table = seq<seq<Planar>>

  /** One key of a label-to-index dictionary. */
  datatype Entry = Entry(name: string, index: nat)

  predicate UniqueNames(entries: seq<Entry>) {
    forall i, j :: 0 <= i < j < |entries| ==> entries[i].name != entries[j].name
  }

  /** A label-to-index dictionary, its entries in insertion order (the order
      in which the dictionary lists its keys). */
  type LabelMap = m: seq<Entry> | UniqueNames(m)

  /** The index stored under `name`, or None when `name` is not a key. */
  function Lookup(m: LabelMap, name: string): (r: Option<nat>)
    ensures r == None <==> forall k :: 0 <= k < |m| ==> m[k].name != name
    ensures r.Some? ==> exists k :: 0 <= k < |m| && m[k] == Entry(name, r.value)
  {
    if |m| == 0 then None
    else if m[0].name == name then Some(m[0].index)
    else
      var rest: LabelMap := m[1..];
      Lookup(rest, name)
  }

  /** The dictionary's keys, in order: exactly the names it finds, one per
      entry. */
  function Keys(m: LabelMap): (ks: seq<string>)
    ensures |ks| == |m|
    ensures forall name :: name in ks <==> Lookup(m, name).Some?
  {
    var ks := seq(|m|, k requires 0 <= k < |m| => m[k].name);
    assert forall name :: name in ks <==> Lookup(m, name).Some? by {
      forall name | name in ks ensures Lookup(m, name).Some? {
        var k :| 0 <= k < |ks| && ks[k] == name;
        LookupOfKey(m, k);
      }
      forall name | Lookup(m, name).Some? ensures name in ks {
        var k :| 0 <= k < |m| && m[k] == Entry(name, Lookup(m, name).value);
        assert ks[k] == name;
      }
    }
    ks
  }

  /** What the solver object exposes to the panel. */
  datatype SolverResults = SolverResults(
    objectToMovingBody: LabelMap,
    objectToPoint: LabelMap,
    bodiesR: Table,
    bodiesRD: Table,
    pointsR: Table,
    pointsRD: Table)

  const DISPLACEMENT: string := "Displacement"
  const VELOCITY: string := "Velocity"
  const PATH_TRACE: string := "Path Trace"

  /** The table read for a quantity, for bodies or for points: positions for
      displacement and path trace, velocities for velocity, none otherwise. */
  function SourceTable(res: SolverResults, quantity: string, ofBody: bool): (r: Option<Table>)
    ensures r.Some? <==> quantity == DISPLACEMENT || quantity == PATH_TRACE || quantity == VELOCITY
    ensures r.Some? && ofBody ==> r.value == res.bodiesR || r.value == res.bodiesRD
    ensures r.Some? && !ofBody ==> r.value == res.pointsR || r.value == res.pointsRD
  {
    if quantity == DISPLACEMENT || quantity == PATH_TRACE then
      Some(if ofBody then res.bodiesR else res.pointsR)
    else if quantity == VELOCITY then
      Some(if ofBody then res.bodiesRD else res.pointsRD)
    else
      None
  }

  /** Column `idx` of `table` exists at each of the first `n` time indices. */
  predicate Readable(table: Table, idx: nat, n: nat) {
    n <= |table| && forall t :: 0 <= t < n ==> idx < |table[t]|
  }

  /** Which projection of a sample a series holds. */
  datatype Axis = X | Y

  function Component(p: Planar, axis: Axis): real {
    if axis == X then p.x else p.y
  }

  /** The `axis` components of sample `idx` of `table` at the first `n` time
      indices, in time order. */
  function Column(table: Table, idx: nat, n: nat, axis: Axis): (c: seq<real>)
    requires Readable(table, idx, n)
    ensures |c| == n
    ensures forall t :: 0 <= t < n ==> c[t] == Component(table[t][idx], axis)
  {
    if n == 0 then [] else Column(table, idx, n - 1, axis) + [Component(table[n - 1][idx], axis)]
  }


  /** The dictionary of one side of a target: moving bodies or points. */
  function SideMap(res: SolverResults, ofBody: bool): LabelMap {
    if ofBody then res.objectToMovingBody else res.objectToPoint
  }

  /** Column `idx` exists, over the first `n` time indices, in the table
      the quantity selects on one side (if it selects one). */
  predicate ColumnReadable(res: SolverResults, quantity: string, ofBody: bool, idx: nat, n: nat) {
    var table := SourceTable(res, quantity, ofBody);
    table.Some? ==> Readable(table.value, idx, n)
  }

  /** Column `idx` of the table the quantity selects on one side, over the
      first `n` time indices; nothing when the quantity selects no table. */
  function SideColumn(res: SolverResults, quantity: string, ofBody: bool, idx: nat, n: nat, axis: Axis): seq<real>
    requires ColumnReadable(res, quantity, ofBody, idx, n)
  {
    var table := SourceTable(res, quantity, ofBody);
    if table.Some? then Column(table.value, idx, n, axis) else []
  }

  /** The reads made for `name` on one side stay within the selected table. */
  predicate SideReadable(res: SolverResults, quantity: string, ofBody: bool, name: string, n: nat) {
    var index := Lookup(SideMap(res, ofBody), name);
    index.Some? ==> ColumnReadable(res, quantity, ofBody, index.value, n)
  }

  /** The series read for `name` on one side: the column of its index in the
      table the quantity selects, or nothing when the name is not a key of
      that side's dictionary or the quantity is not handled. */
  function SideSeries(res: SolverResults, quantity: string, ofBody: bool, name: string, n: nat, axis: Axis): (s: seq<real>)
    requires SideReadable(res, quantity, ofBody, name, n)
    ensures var index := Lookup(SideMap(res, ofBody), name);
            var table := SourceTable(res, quantity, ofBody);
            && |s| == (if index.Some? && table.Some? then n else 0)
            && forall t :: 0 <= t < |s| ==>
                 index.Some? && table.Some? && t < |table.value| && index.value < |table.value[t]|
                 && s[t] == Component(table.value[t][index.value], axis)
  {
    var index := Lookup(SideMap(res, ofBody), name);
    if index.Some? then SideColumn(res, quantity, ofBody, index.value, n, axis) else []
  }

  /** Every table read for `name` has the rows and columns the reads need. */
  predicate PartReadable(res: SolverResults, quantity: string, name: string, n: nat) {
    SideReadable(res, quantity, true, name, n) && SideReadable(res, quantity, false, name, n)
  }

  /** The series extracted for one target over `n` reported times: its body
      series, then its point series. */
  function Series(res: SolverResults, quantity: string, name: string, n: nat, axis: Axis): seq<real>
    requires PartReadable(res, quantity, name, n)
  {
    SideSeries(res, quantity, true, name, n, axis) + SideSeries(res, quantity, false, name, n, axis)
  }

  /** Every target of `parts` can be read over `n` times. */
  predicate AllReadable(res: SolverResults, quantity: string, parts: seq<string>, n: nat) {
    forall i :: 0 <= i < |parts| ==> PartReadable(res, quantity, parts[i], n)
  }

  /** The series of each target of `parts`, in order. */
  function SeriesList(res: SolverResults, quantity: string, parts: seq<string>, n: nat, axis: Axis): (l: seq<seq<real>>)
    requires AllReadable(res, quantity, parts, n)
    ensures |l| == |parts|
  {
    if parts == [] then []
    else SeriesList(res, quantity, parts[..|parts| - 1], n, axis) + [Series(res, quantity, parts[|parts| - 1], n, axis)]
  }

  /** The time loop for one side of a target (its moving-body or its point
      entry, of index `idx`): for each of the first `n` time indices, the x
      and y of sample `idx` of the table the quantity selects; nothing for a
      quantity that is not handled. */
  method ReadSideSeries(res: SolverResults, quantity: string, ofBody: bool, idx: nat, n: nat)
    returns (x: seq<real>, y: seq<real>)
    requires ColumnReadable(res, quantity, ofBody, idx, n)
    ensures x == SideColumn(res, quantity, ofBody, idx, n, X)
    ensures y == SideColumn(res, quantity, ofBody, idx, n, Y)
  {
    ghost var table := SourceTable(res, quantity, ofBody);
    assert DISPLACEMENT != VELOCITY && PATH_TRACE != VELOCITY by {
      assert |DISPLACEMENT| != |VELOCITY| && |PATH_TRACE| != |VELOCITY|;
    }
    x, y := [], [];
    for timeIndex := 0 to n
      invariant x == if table.Some? then Column(table.value, idx, timeIndex, X) else []
      invariant y == if table.Some? then Column(table.value, idx, timeIndex, Y) else []
    {
      if quantity == DISPLACEMENT || quantity == PATH_TRACE {
        var positions: Table := if ofBody then res.bodiesR else res.pointsR;
        x := x + [positions[timeIndex][idx].x];
        y := y + [positions[timeIndex][idx].y];
      }
      if quantity == VELOCITY {
        var velocities: Table := if ofBody then res.bodiesRD else res.pointsRD;
        x := x + [velocities[timeIndex][idx].x];
        y := y + [velocities[timeIndex][idx].y];
      }
    }
  }

  /** The body of the loop over targets: the body-side series of `part`
      when it names a moving body, followed by its point-side series when it
      names a point. */
  method ReadPartSeries(res: SolverResults, quantity: string, part: string, n: nat)
    returns (x: seq<real>, y: seq<real>)
    requires PartReadable(res, quantity, part, n)
    ensures x == Series(res, quantity, part, n, X)
    ensures y == Series(res, quantity, part, n, Y)
  {
    x, y := [], [];
    var bodyIndex := Lookup(res.objectToMovingBody, part);
    if bodyIndex.Some? {
      var bodyX, bodyY := ReadSideSeries(res, quantity, true, bodyIndex.value, n);
      x, y := x + bodyX, y + bodyY;
    }
    var pointIndex := Lookup(res.objectToPoint, part);
    if pointIndex.Some? {
      var pointX, pointY := ReadSideSeries(res, quantity, false, pointIndex.value, n);
      x, y := x + pointX, y + pointY;
    }
  }

  // ---------------------------------------------------------------------
  // The panel
  // ---------------------------------------------------------------------

  /** One row of the targets table: the label (column 0) and its legend (column 1). */
  datatype Row = Row(name: string, legend: string)

  predicate UniqueLabels(rows: seq<Row>) {
    forall i, j :: 0 <= i < j < |rows| ==> rows[i].name != rows[j].name
  }

  /** Column 0 of the rows, top to bottom. */
  function Labels(rows: seq<Row>): seq<string> {
    seq(|rows|, r requires 0 <= r < |rows| => rows[r].name)
  }

  /** Python list indexing: a negative index counts from the end; an index out
      of range is an IndexError (None). */
  function PyIndex<T>(s: seq<T>, i: int): (r: Option<T>)
    ensures r.Some? <==> -|s| <= i < |s|
    ensures r.Some? ==> r.value in s
  {
    if 0 <= i < |s| then Some(s[i])
    else if -|s| <= i < 0 then Some(s[|s| + i])
    else None
  }

  /** The targets table after adding `partLabel`: unchanged when column 0
      already holds it, else with a new last row whose legend is the label. */
  function AddRow(rows: seq<Row>, partLabel: string): (added: seq<Row>)
    ensures |added| == |rows| + (if partLabel in Labels(rows) then 0 else 1)
    ensures added[..|rows|] == rows
    ensures |added| > |rows| ==> added[|rows|] == Row(partLabel, partLabel)
    ensures partLabel in Labels(added)
  {
    if partLabel in Labels(rows) then rows
    else
      var added := rows + [Row(partLabel, partLabel)];
      assert Labels(added)[|rows|] == partLabel;
      added
  }

  /** The targets table after removing row `r`; an index that names no row
      leaves it unchanged. */
  function RemoveRow(rows: seq<Row>, r: int): (removed: seq<Row>)
    ensures !(0 <= r < |rows|) ==> removed == rows
    ensures 0 <= r < |rows| ==> |removed| == |rows| - 1
    ensures 0 <= r < |rows| ==> forall i :: 0 <= i < |removed| ==> removed[i] == rows[if i < r then i else i + 1]
  {
    if 0 <= r < |rows| then rows[..r] + rows[r + 1..] else rows
  }

  class TaskPanelPlot {
    const solver: SolverResults
    /** The labels offered in the plottable-items box, in box order. */
    var plottableList: seq<string>
    /** The targets table. */
    var rows: seq<Row>

    /** Column 0 of the targets table never holds a label twice. */
    ghost predicate Valid()
      reads this
    {
      UniqueLabels(rows)
    }

    constructor (solver: SolverResults)
      ensures this.solver == solver
      ensures plottableList == Keys(solver.objectToMovingBody) + Keys(solver.objectToPoint)
      ensures rows == [] && Valid()
    {
      this.solver := solver;
      plottableList := [];
      rows := [];
      new;
      plottableList := ExtractPlotableObjects();
    }

    /** All moving-body labels in dictionary order, then all point labels. */
    method ExtractPlotableObjects() returns (plotList: seq<string>)
      ensures |plotList| == |solver.objectToMovingBody| + |solver.objectToPoint|
      ensures plotList == Keys(solver.objectToMovingBody) + Keys(solver.objectToPoint)
    {
      var bodies := solver.objectToMovingBody;
      var points := solver.objectToPoint;
      plotList := [];
      for k := 0 to |bodies|
        invariant plotList == Keys(bodies)[..k]
      {
        plotList := plotList + [bodies[k].name];
      }
      for k := 0 to |points|
        invariant plotList == Keys(bodies) + Keys(points)[..k]
      {
        plotList := plotList + [points[k].name];
      }
    }

    /** Column 0 of the targets table, top to bottom. */
    method ExtractListOfObjectLabels() returns (partsList: seq<string>)
      ensures |partsList| == |rows|
      ensures forall r :: 0 <= r < |rows| ==> partsList[r] == rows[r].name
    {
      partsList := [];
      for row := 0 to |rows|
        invariant |partsList| == row
        invariant forall r :: 0 <= r < row ==> partsList[r] == rows[r].name
      {
        partsList := partsList + [rows[row].name];
      }
    }

    /** Columns 0 and 1 of the targets table, top to bottom. */
    method ExtractObjectsAndLegend() returns (partsList: seq<string>, legendList: seq<string>)
      ensures |partsList| == |rows| && |legendList| == |rows|
      ensures forall r :: 0 <= r < |rows| ==> partsList[r] == rows[r].name && legendList[r] == rows[r].legend
    {
      partsList, legendList := [], [];
      for row := 0 to |rows|
        invariant |partsList| == row && |legendList| == row
        invariant forall r :: 0 <= r < row ==> partsList[r] == rows[r].name && legendList[r] == rows[r].legend
      {
        partsList := partsList + [rows[row].name];
        legendList := legendList + [rows[row].legend];
      }
    }

    /** The add button: the label at the box's current index is appended as a
        new row (legend = label) unless column 0 already holds it. An index the
        list cannot take raises an IndexError before anything changes. */
    method AddButtonPushed(currentIndex: int) returns (indexError: bool)
      requires Valid()
      modifies this`rows
      ensures Valid()
      ensures indexError <==> PyIndex(plottableList, currentIndex) == None
      ensures indexError ==> rows == old(rows)
      ensures !indexError ==> rows == AddRow(old(rows), PyIndex(plottableList, currentIndex).value)
    {
      var picked := PyIndex(plottableList, currentIndex);
      indexError := picked == None;
      if indexError {
        return;
      }
      var partLabel := picked.value;
      var labels := ExtractListOfObjectLabels();
      assert labels == Labels(rows);
      AddRowKeepsLabelsUnique(rows, partLabel);
      if partLabel !in labels {
        rows := rows + [Row(partLabel, partLabel)];
      }
    }

    /** The remove button: the current row is removed; with no current row
        (index -1) or an index past the end nothing changes. */
    method RemoveButtonPushed(currentRow: int)
      requires Valid()
      modifies this`rows
      ensures Valid()
      ensures rows == RemoveRow(old(rows), currentRow)
    {
      RemoveRowKeepsLabelsUnique(rows, currentRow);
      if 0 <= currentRow < |rows| {
        rows := rows[..currentRow] + rows[currentRow + 1..];
      }
    }

    /** The x and y series of every target in `partsList`, in order, over the
        reported `times`, for the quantity `quantity`. */
    method ExtractPlotDispVel(partsList: seq<string>, times: seq<real>, quantity: string)
      returns (xList: seq<seq<real>>, yList: seq<seq<real>>)
      requires AllReadable(solver, quantity, partsList, |times|)
      ensures xList == SeriesList(solver, quantity, partsList, |times|, X)
      ensures yList == SeriesList(solver, quantity, partsList, |times|, Y)
    {
      xList, yList := [], [];
      for i := 0 to |partsList|
        invariant xList == SeriesList(solver, quantity, partsList[..i], |times|, X)
        invariant yList == SeriesList(solver, quantity, partsList[..i], |times|, Y)
      {
        assert partsList[..i + 1][..i] == partsList[..i];
        var x, y := ReadPartSeries(solver, quantity, partsList[i], |times|);
        xList := xList + [x];
        yList := yList + [y];
      }
      assert partsList[..|partsList|] == partsList;
    }
  }

  // ---------------------------------------------------------------------
  // Properties of the targets table
  // ---------------------------------------------------------------------

  /** Adding keeps column 0 free of repeats. */
  lemma AddRowKeepsLabelsUnique(rows: seq<Row>, partLabel: string)
    requires UniqueLabels(rows)
    ensures UniqueLabels(AddRow(rows, partLabel))
  {
    var added := AddRow(rows, partLabel);
    if partLabel !in Labels(rows) {
      forall i, j | 0 <= i < j < |added| ensures added[i].name != added[j].name {
        if j == |rows| {
          assert Labels(rows)[i] == added[i].name;
        } else {
          assert added[i] == rows[i] && added[j] == rows[j];
        }
      }
    }
  }

  /** Adding the same label twice is adding it once. */
  lemma AddRowIdempotent(rows: seq<Row>, partLabel: string)
    ensures AddRow(AddRow(rows, partLabel), partLabel) == AddRow(rows, partLabel)
  {
    var added := AddRow(rows, partLabel);
    if partLabel !in Labels(rows) {
      assert Labels(added)[|rows|] == partLabel;
    }
  }

  /** Removing a row keeps column 0 free of repeats; a valid index takes
      exactly row r out of the table. */
  lemma RemoveRowKeepsLabelsUnique(rows: seq<Row>, r: int)
    requires UniqueLabels(rows)
    ensures UniqueLabels(RemoveRow(rows, r))
    ensures 0 <= r < |rows| ==> multiset(RemoveRow(rows, r)) + multiset{rows[r]} == multiset(rows)
  {
    if 0 <= r < |rows| {
      var removed := RemoveRow(rows, r);
      forall i, j | 0 <= i < j < |removed| ensures removed[i].name != removed[j].name {
        var i' := if i < r then i else i + 1;
        var j' := if j < r then j else j + 1;
        assert removed[i] == rows[i'] && removed[j] == rows[j'] && i' < j';
      }
      assert rows == rows[..r] + [rows[r]] + rows[r + 1..];
    }
  }

  /** Removing the row just added for a new label restores the table. */
  lemma RemoveUndoesAdd(rows: seq<Row>, partLabel: string)
    requires partLabel !in Labels(rows)
    ensures RemoveRow(AddRow(rows, partLabel), |rows|) == rows
  {
    var added := AddRow(rows, partLabel);
    assert added[..|rows|] == rows;
  }

  /** A non-negative index within the list picks the element at that position. */
  lemma PyIndexValue<T>(s: seq<T>, i: int)
    requires 0 <= i < |s|
    ensures PyIndex(s, i) == Some(s[i])
  {
  }

  /** A negative index picks what counting |s| further picks; -1 picks the
      last element. */
  lemma PyIndexFromEnd<T>(s: seq<T>, i: int)
    requires -|s| <= i < 0
    ensures PyIndex(s, i) == PyIndex(s, i + |s|)
    ensures i == -1 ==> PyIndex(s, i) == Some(s[|s| - 1])
  {
  }

  // ---------------------------------------------------------------------
  // Properties of the extraction
  // ---------------------------------------------------------------------

  /** A key of the dictionary is found, with the index stored under it. */
  lemma {:induction false} LookupOfKey(m: LabelMap, k: nat)
    requires k < |m|
    ensures Lookup(m, m[k].name) == Some(m[k].index)
  {
    if k > 0 {
      var rest: LabelMap := m[1..];
      LookupOfKey(rest, k - 1);
    }
  }

  /** Every label offered in the plottable-items box is found in the
      moving-body dictionary or in the point dictionary. */
  lemma PlottableLabelsAreFound(res: SolverResults, name: string)
    requires name in Keys(res.objectToMovingBody) + Keys(res.objectToPoint)
    ensures Lookup(res.objectToMovingBody, name).Some? || Lookup(res.objectToPoint, name).Some?
  {
    var ks := Keys(res.objectToMovingBody) + Keys(res.objectToPoint);
    var k :| 0 <= k < |ks| && ks[k] == name;
    if k < |res.objectToMovingBody| {
      LookupOfKey(res.objectToMovingBody, k);
    } else {
      LookupOfKey(res.objectToPoint, k - |res.objectToMovingBody|);
    }
  }

  /** A prefix of readable targets is readable. */
  lemma AllReadablePrefix(res: SolverResults, quantity: string, parts: seq<string>, n: nat, k: nat)
    requires AllReadable(res, quantity, parts, n)
    requires k <= |parts|
    ensures AllReadable(res, quantity, parts[..k], n)
  {
    forall j | 0 <= j < k ensures PartReadable(res, quantity, parts[..k][j], n) {
      assert parts[..k][j] == parts[j];
    }
  }

  /** The extraction yields, at position `i`, the series of target `i`. */
  lemma {:induction false} SeriesListAt(res: SolverResults, quantity: string, parts: seq<string>,
                                        n: nat, axis: Axis, i: nat)
    requires AllReadable(res, quantity, parts, n)
    requires i < |parts|
    ensures i < |SeriesList(res, quantity, parts, n, axis)|
    ensures SeriesList(res, quantity, parts, n, axis)[i] == Series(res, quantity, parts[i], n, axis)
  {
    var init := parts[..|parts| - 1];
    AllReadablePrefix(res, quantity, parts, n, |parts| - 1);
    var front := SeriesList(res, quantity, init, n, axis);
    var last := Series(res, quantity, parts[|parts| - 1], n, axis);
    var whole := SeriesList(res, quantity, parts, n, axis);
    assert whole == front + [last];
    if i < |init| {
      SeriesListAt(res, quantity, init, n, axis, i);
      assert init[i] == parts[i];
      assert whole[i] == front[i];
    } else {
      assert whole[i] == last;
    }
  }

  /** A target's series holds at most two samples per reported time, its
      body-side samples first and its point-side samples after them. */
  lemma SeriesBodyFirst(res: SolverResults, quantity: string, name: string, n: nat, axis: Axis)
    requires PartReadable(res, quantity, name, n)
    ensures |Series(res, quantity, name, n, axis)| <= 2 * n
    ensures SideSeries(res, quantity, true, name, n, axis) <= Series(res, quantity, name, n, axis)
    ensures var body := SideSeries(res, quantity, true, name, n, axis);
            Series(res, quantity, name, n, axis)[|body|..] == SideSeries(res, quantity, false, name, n, axis)
  {
    var body := SideSeries(res, quantity, true, name, n, axis);
    var point := SideSeries(res, quantity, false, name, n, axis);
    assert (body + point)[|body|..] == point;
  }

  /** Each side found in its dictionary contributes one sample per reported
      time, and only when the quantity selects a table; x and y always have
      the same length. */
  lemma SeriesLength(res: SolverResults, quantity: string, name: string, n: nat)
    requires PartReadable(res, quantity, name, n)
    ensures var handled := quantity == DISPLACEMENT || quantity == PATH_TRACE || quantity == VELOCITY;
            var sides := (if Lookup(res.objectToMovingBody, name).Some? then 1 else 0)
                         + (if Lookup(res.objectToPoint, name).Some? then 1 else 0);
            |Series(res, quantity, name, n, X)| == (if handled then sides * n else 0)
            && |Series(res, quantity, name, n, Y)| == |Series(res, quantity, name, n, X)|
  {
  }

  /** A quantity other than displacement, velocity or path trace gives empty
      series. */
  lemma UnhandledQuantityIsEmpty(res: SolverResults, quantity: string, name: string, n: nat, axis: Axis)
    requires quantity != DISPLACEMENT && quantity != PATH_TRACE && quantity != VELOCITY
    ensures PartReadable(res, quantity, name, n)
    ensures Series(res, quantity, name, n, axis) == []
  {
  }

  /** A path trace reads the same positions as a displacement plot. */
  lemma PathTraceIsDisplacement(res: SolverResults, name: string, n: nat, axis: Axis)
    requires PartReadable(res, DISPLACEMENT, name, n)
    ensures PartReadable(res, PATH_TRACE, name, n)
    ensures Series(res, PATH_TRACE, name, n, axis) == Series(res, DISPLACEMENT, name, n, axis)
  {
    assert SourceTable(res, PATH_TRACE, true) == SourceTable(res, DISPLACEMENT, true);
    assert SourceTable(res, PATH_TRACE, false) == SourceTable(res, DISPLACEMENT, false);
  }

  /** A moving body that is not also a point: its velocity series holds, per
      reported time, the first two components of its row in the body
      velocity table; its displacement series those of the body position
      table. */
  lemma BodySeriesValues(res: SolverResults, name: string, k: nat, n: nat)
    requires Lookup(res.objectToMovingBody, name) == Some(k)
    requires Lookup(res.objectToPoint, name) == None
    requires Readable(res.bodiesR, k, n) && Readable(res.bodiesRD, k, n)
    ensures PartReadable(res, VELOCITY, name, n) && PartReadable(res, DISPLACEMENT, name, n)
    ensures |Series(res, VELOCITY, name, n, X)| == n && |Series(res, DISPLACEMENT, name, n, X)| == n
    ensures forall t :: 0 <= t < n ==>
              && Series(res, VELOCITY, name, n, X)[t] == res.bodiesRD[t][k].x
              && Series(res, VELOCITY, name, n, Y)[t] == res.bodiesRD[t][k].y
              && Series(res, DISPLACEMENT, name, n, X)[t] == res.bodiesR[t][k].x
              && Series(res, DISPLACEMENT, name, n, Y)[t] == res.bodiesR[t][k].y
  {
    assert DISPLACEMENT != VELOCITY by {
      assert |DISPLACEMENT| != |VELOCITY|;
    }
    assert Series(res, VELOCITY, name, n, X) == Column(res.bodiesRD, k, n, X) + [];
    assert Series(res, VELOCITY, name, n, Y) == Column(res.bodiesRD, k, n, Y) + [];
    assert Series(res, DISPLACEMENT, name, n, X) == Column(res.bodiesR, k, n, X) + [];
    assert Series(res, DISPLACEMENT, name, n, Y) == Column(res.bodiesR, k, n, Y) + [];
  }

  /** A point that is not also a moving body: its velocity series holds, per
      reported time, the first two components of its row in the point
      velocity table; its displacement series those of the point position
      table. */
  lemma PointSeriesValues(res: SolverResults, name: string, k: nat, n: nat)
    requires Lookup(res.objectToPoint, name) == Some(k)
    requires Lookup(res.objectToMovingBody, name) == None
    requires Readable(res.pointsR, k, n) && Readable(res.pointsRD, k, n)
    ensures PartReadable(res, VELOCITY, name, n) && PartReadable(res, DISPLACEMENT, name, n)
    ensures |Series(res, VELOCITY, name, n, X)| == n && |Series(res, DISPLACEMENT, name, n, X)| == n
    ensures forall t :: 0 <= t < n ==>
              && Series(res, VELOCITY, name, n, X)[t] == res.pointsRD[t][k].x
              && Series(res, VELOCITY, name, n, Y)[t] == res.pointsRD[t][k].y
              && Series(res, DISPLACEMENT, name, n, X)[t] == res.pointsR[t][k].x
              && Series(res, DISPLACEMENT, name, n, Y)[t] == res.pointsR[t][k].y
  {
    assert DISPLACEMENT != VELOCITY by {
      assert |DISPLACEMENT| != |VELOCITY|;
    }
    assert Series(res, VELOCITY, name, n, X) == [] + Column(res.pointsRD, k, n, X);
    assert Series(res, VELOCITY, name, n, Y) == [] + Column(res.pointsRD, k, n, Y);
    assert Series(res, DISPLACEMENT, name, n, X) == [] + Column(res.pointsR, k, n, X);
    assert Series(res, DISPLACEMENT, name, n, Y) == [] + Column(res.pointsR, k, n, Y);
  }

  /** One moving body "Crank" at index 0 over three reported times at
      (0, 0), (1, 2) and (3, 4): its displacement series are x = [0, 1, 3]
      and y = [0, 2, 4]. */
  lemma DisplacementExample()
    ensures var res := SolverResults([Entry("Crank", 0)], [],
                                     [[Planar(0.0, 0.0)], [Planar(1.0, 2.0)], [Planar(3.0, 4.0)]],
                                     [], [], []);
            && PartReadable(res, DISPLACEMENT, "Crank", 3)
            && Series(res, DISPLACEMENT, "Crank", 3, X) == [0.0, 1.0, 3.0]
            && Series(res, DISPLACEMENT, "Crank", 3, Y) == [0.0, 2.0, 4.0]
  {
    var res := SolverResults([Entry("Crank", 0)], [],
                             [[Planar(0.0, 0.0)], [Planar(1.0, 2.0)], [Planar(3.0, 4.0)]],
                             [], [], []);
    assert Lookup(res.objectToMovingBody, "Crank") == Some(0);
    assert Readable(res.bodiesR, 0, 3);
    assert Series(res, DISPLACEMENT, "Crank", 3, X) == Column(res.bodiesR, 0, 3, X) + [];
    assert Series(res, DISPLACEMENT, "Crank", 3, Y) == Column(res.bodiesR, 0, 3, Y) + [];
  }
}
