# Joint glyph and result-series extraction

This project models two pieces of a multibody-dynamics workbench plugin for a
CAD host.

**The relative-movement ("joint") feature.** `JointGlyph`, in `joint_glyph.dfy`,
models what happens when the feature recomputes:

- It refreshes the two point coordinates from the labelled reference objects.
- It looks up the joint type in `JOINT_TYPES`.
- It averages the volumes of the attached bodies that are not `"Ground"`.
- It picks one of four outcomes:
  - a rotation glyph: a torus with two cone arrowheads around point 1, sized by `vol / 50000`;
  - a translation glyph: a double-headed arrow from point 1 to point 2, sized by their distance `l`;
  - no glyph;
  - no glyph plus the "too close" console diagnostic.
- It writes the shape and the view colour.

The pure decision is `Recompute`. It returns an `Outcome` that lists every
primitive by the parameters the geometry kernel is given. The class
`DapJoint` holds the feature's properties. Its method `Execute` performs one
recompute step by step, as DapJointSelection.py does, and is proved to agree with
`Recompute`.

**The plotting task panel.** `PlotExtraction`, in `task_panel_plot.dfy`,
models the data side of the panel:

- The plottable-label list is every moving-body key, then every point key, in dictionary order.
- The targets table is a sequence of (label, legend) rows.
- The add button appends the chosen label only when column 0 does not already hold it.
- The remove button removes the current row.
- `ExtractPlotDispVel` builds one x series and one y series per target from the solver's time-indexed tables.

Python dictionaries are modelled as insertion-ordered sequences of `Entry` with
unique names (`LabelMap`). The solver object is modelled as a `SolverResults`
value. The table rows are a `seq<Row>` field of the panel class.

Three behaviours of the code worth noting:

- For a linear movement, the "too close" diagnostic is produced on every
  recompute in which both point labels are set and the points are at most
  1e-6 apart (DapJointSelection.py:263-264).
- The rotation glyph is a curved double-headed arrow. The torus sweeps 240
  degrees from the +X side. Each cone is built tip first (its first radius
  is 0), with its wide face on one end of the arc and its tip 5·scale beyond
  that end. Cone 2's base has z = 0, not point 1's z (DapJointSelection.py:243).
  The lemma `Cone2AtArcEnd` states where its wide face therefore lies.
- The translation branch re-tests the point labels even though its condition
  already holds them (DapJointSelection.py:252, 263). `Recompute` keeps those
  tests.

## Model

| member | source | states |
|---|---|---|
| JointGlyph.IndexOrDefault | DapJointSelection.py:210 | the result is the first position of the name when it occurs, otherwise the default |
| JointGlyph.UnknownTypeIsRotation | DapJointSelection.py:210 | a type name not in JOINT_TYPES gets index 0, the same as "Rotation" |
| JointGlyph.LinearMovementIndex | DapJointSelection.py:210 | the joint index is 1 exactly for "Linear Movement" |
| JointGlyph.BodyVolumes | DapJointSelection.py:218-225 | one volume per body that is not the ground, each being vol1 or vol2; none exactly when both bodies are the ground |
| JointGlyph.SumBounds | DapJointSelection.py:216-225 | values all between lo and hi sum to between count·lo and count·hi |
| JointGlyph.MeanWithinBounds | DapJointSelection.py:226-227 | the mean of non-empty volumes lies between their smallest and largest |
| JointGlyph.AverageBetweenVolumes | DapJointSelection.py:216-227 | with at least one real body, the averaged volume lies between vol1 and vol2 |
| JointGlyph.AverageVolume | DapJointSelection.py:216-229 | the step-by-step sum and count of the non-Ground volumes, divided by the count or replaced by 100000, is the mean of the non-Ground volumes |
| JointGlyph.OneBodyVolume | DapJointSelection.py:216-227 | with exactly one body not the ground, the averaged volume is that body's volume |
| JointGlyph.TwoBodiesVolume | DapJointSelection.py:216-227 | with both bodies real, the averaged volume is (vol1 + vol2) / 2 |
| JointGlyph.GroundOnlyVolume | DapJointSelection.py:226-229 | with both bodies the ground, the averaged volume is 100000 |
| JointGlyph.Refreshed | DapJointSelection.py:200-205 | a set label takes the placement; the stored coordinate changes only when a label is set |
| JointGlyph.RotationGlyphFor | DapJointSelection.py:233-246 | a rotation glyph about point 1: major radius 7 times the minor radius, minor radius times 50000 equal to the volume, both cones of tip radius 0, base radius twice and height five times the minor radius |
| JointGlyph.TranslationGlyphFor | DapJointSelection.py:253-257 | a translation glyph with cone tips at point 1 and point 2, cones along dir and -dir of equal size, cylinder along dir twice as long as a cone and half as thick as a cone's base; cylinder plus both cones are exactly l long |
| JointGlyph.Recompute | DapJointSelection.py:210-266 | a shape is built only with point 1 labelled and a known index; a translation glyph or the diagnostic only for index 1 with point 2 labelled; a colour is written exactly when a shape is built; a diagnostic only with the null shape; the ring is centred on point 1 and the arrow tips sit on the two points |
| JointGlyph.DapJoint.constructor | DapJointSelection.py:114-122 | a new feature has type "Rotation", empty point labels, both bodies "Ground", both coordinates at the origin and the null shape |
| JointGlyph.DapJoint.Execute | DapJointSelection.py:190-266 | each point coordinate is refreshed only when its label is set; the labels, bodies and type are unchanged; shape, colour and diagnostic are those of Recompute on the refreshed points and the averaged volume; with no glyph the colour is kept |
| JointGlyph.RotationChosenIff | DapJointSelection.py:214 | the rotation glyph is produced if and only if the joint index is 0 and point 1's label is set |
| JointGlyph.RotationGlyphParts | DapJointSelection.py:233-248 | the rotation shape is the compound of exactly the torus and two cones: torus radii 7·scale and scale about point 1 on +Z, tube angles -180 to 180, sweep 240 degrees; cones of tip radius 0, base radius 2·scale, height 5·scale; cone 1's tip at point1 + (7·scale, -5·scale, 0), pointing its wide face along +Y; gold colour; no diagnostic |
| JointGlyph.Cone1AtArcStart | DapJointSelection.py:236-240 | cone 1's wide face is centred on the ring's centre circle at its +X point, where the arc starts, and its tip lies one cone height below it in -Y |
| JointGlyph.Cone2AtArcEnd | DapJointSelection.py:241-245 | cone 2's wide face is centred at point1 - r1·(cos 60°, sin 60°), the ring's point at 240 degrees where the arc ends, in the plane z = 0, at distance r1 from point 1 seen from above |
| JointGlyph.TranslationChosenIff | DapJointSelection.py:250-252 | the translation glyph is produced if and only if the joint index is 1, both labels are set and l > 1e-6 |
| JointGlyph.TranslationGlyphParts | DapJointSelection.py:251-259 | the translation shape is a cylinder of radius l/20 and height l/2 based at point1 + (l/4)·dir along dir, a cone of base radius l/10 and height l/4 at point 1 along dir and one at point 2 along -dir; red, fully transparent colour; no diagnostic |
| JointGlyph.TranslationArrowIsContiguous | DapJointSelection.py:253-256 | when point 2 is point 1 plus l·dir, the cone tips are at the two points, cone 1's wide face is the cylinder's base, the cylinder's far end is cone 2's wide face, and the cylinder's middle is the midpoint of the points |
| JointGlyph.TooCloseIff | DapJointSelection.py:260-264 | the "too close" diagnostic appears if and only if the joint index is 1, both labels are set and l <= 1e-6; with a diagnostic the shape is null and no colour is written |
| JointGlyph.OtherwiseNothing | DapJointSelection.py:265-266 | outside the two glyph branches the result is the null shape, no colour and no diagnostic |
| JointGlyph.ColorDependsOnlyOnBranch | DapJointSelection.py:248-259 | the colour written depends only on the branch taken, not on points, volumes or sizes |
| JointGlyph.TranslationExample | DapJointSelection.py:254 | points 10 apart along +Z give a cylinder of height 5 and radius 0.5 based at (0, 0, 2.5) |
| JointGlyph.OneBodyRingRadius | DapJointSelection.py:216-234 | one real body of volume v on a ground gives a torus major radius of 7·v/50000 |
| PlotExtraction.Keys | _TaskPanelPlot.py:97 | one key per entry, and a name is a key exactly when looking it up finds it |
| PlotExtraction.Lookup | _TaskPanelPlot.py:132-133 | None exactly when no entry has the name; otherwise an entry with that name stores the returned index |
| PlotExtraction.LookupOfKey | _TaskPanelPlot.py:132-133 | looking up the name of entry k returns entry k's index |
| PlotExtraction.PointSeriesValues | _TaskPanelPlot.py:141-149 | for a label only in the point dictionary with index k, the velocity series hold Points_r_d[t][k]'s first two components and the displacement series those of Points_r[t][k], one per time; with BodySeriesValues this pins which table SourceTable selects for each quantity |
| PlotExtraction.SourceTable | _TaskPanelPlot.py:135-148 | a table is read exactly for "Displacement", "Path Trace" and "Velocity"; the body side reads only body tables, the point side only point tables |
| PlotExtraction.SideSeries | _TaskPanelPlot.py:132-149 | n values when the label is a key of that side and the quantity selects a table, none otherwise; value t is the chosen component of the label's sample at time t |
| PlotExtraction.SeriesBodyFirst | _TaskPanelPlot.py:129-149 | a target's series (Series) holds at most two values per time: its body-side series first, then its point-side series |
| PlotExtraction.Column | _TaskPanelPlot.py:134-137 | n values; value t is the chosen component of sample idx at time t |
| PlotExtraction.ReadSideSeries | _TaskPanelPlot.py:134-140 | the time loop yields, for each of the first n times, the x (and y) of sample idx of the table the quantity selects, and nothing for an unhandled quantity |
| PlotExtraction.ReadPartSeries | _TaskPanelPlot.py:129-149 | one target's series is its body-side series followed by its point-side series, each present only when the label is a key of that side's dictionary |
| PlotExtraction.SeriesList | _TaskPanelPlot.py:128-151 | one series per target |
| PlotExtraction.SeriesListAt | _TaskPanelPlot.py:128-151 | entry i of the extracted lists is the series of target i |
| PlotExtraction.SeriesLength | _TaskPanelPlot.py:132-149 | a series has n values per dictionary the label is found in (0, n or 2n) for a handled quantity and none otherwise; x and y always have equal length |
| PlotExtraction.UnhandledQuantityIsEmpty | _TaskPanelPlot.py:135-149 | a quantity other than "Displacement", "Velocity" and "Path Trace" reads nothing and gives empty series |
| PlotExtraction.PathTraceIsDisplacement | _TaskPanelPlot.py:135-137 | "Path Trace" reads exactly what "Displacement" reads |
| PlotExtraction.BodySeriesValues | _TaskPanelPlot.py:132-140 | for a label only in the moving-body dictionary with index k, the velocity series hold Bodies_r_d[t][k]'s first two components and the displacement series those of Bodies_r[t][k], one per time |
| PlotExtraction.DisplacementExample | _TaskPanelPlot.py:132-137 | one body sampled at (0,0), (1,2), (3,4) gives x = [0, 1, 3] and y = [0, 2, 4] |
| PlotExtraction.PlottableLabelsAreFound | _TaskPanelPlot.py:95-101 | every offered label is a key of the moving-body or the point dictionary |
| PlotExtraction.PyIndex | _TaskPanelPlot.py:65-66 | a value exactly for indices in [-len, len), an IndexError otherwise; the value is an element of the list |
| PlotExtraction.PyIndexValue | _TaskPanelPlot.py:65-66 | a non-negative index i within the list picks s[i] |
| PlotExtraction.PyIndexFromEnd | _TaskPanelPlot.py:65-66 | a negative index picks the same element as that index plus the length; -1 picks the last |
| PlotExtraction.AddRow | _TaskPanelPlot.py:67-75 | the earlier rows are kept in place; the table grows by one row exactly when the label was absent, that row having the label as both label and legend; the label is then in column 0 |
| PlotExtraction.RemoveRow | _TaskPanelPlot.py:85-87 | an index naming no row changes nothing; a valid index r shrinks the table by one, and the remaining rows keep their order, those after r moving up by one |
| PlotExtraction.AddRowKeepsLabelsUnique | _TaskPanelPlot.py:67-75 | adding keeps column 0 free of repeats |
| PlotExtraction.AddRowIdempotent | _TaskPanelPlot.py:67 | adding a label twice is the same as adding it once |
| PlotExtraction.RemoveRowKeepsLabelsUnique | _TaskPanelPlot.py:85-87 | removing keeps column 0 free of repeats; a valid row index takes out exactly that row (as multisets, the rest plus the removed row is the old table) |
| PlotExtraction.RemoveUndoesAdd | _TaskPanelPlot.py:64-87 | removing the row just added for a new label restores the table |
| PlotExtraction.TaskPanelPlot.constructor | _TaskPanelPlot.py:44 | the plottable list is the body keys followed by the point keys; the targets table starts empty |
| PlotExtraction.TaskPanelPlot.ExtractPlotableObjects | _TaskPanelPlot.py:95-101 | all moving-body labels in dictionary order, then all point labels; its length is the sum of the two dictionary sizes |
| PlotExtraction.TaskPanelPlot.ExtractListOfObjectLabels | _TaskPanelPlot.py:78-83 | one label per row, column 0, top to bottom |
| PlotExtraction.TaskPanelPlot.ExtractObjectsAndLegend | _TaskPanelPlot.py:116-123 | one label and one legend per row, columns 0 and 1, top to bottom |
| PlotExtraction.TaskPanelPlot.AddButtonPushed | _TaskPanelPlot.py:64-75 | an index the list cannot take is an IndexError and changes nothing; otherwise the label is appended as a row with itself as legend unless column 0 holds it; column 0 stays free of repeats |
| PlotExtraction.TaskPanelPlot.RemoveButtonPushed | _TaskPanelPlot.py:85-87 | the current row is removed when it names a row, else nothing changes; column 0 stays free of repeats |
| PlotExtraction.TaskPanelPlot.ExtractPlotDispVel | _TaskPanelPlot.py:124-153 | the x and y lists hold, per target in order, the target's series |

## Left out

- Document lookups (`getObjectsByLabel`, `Placement.Base`, `Shape.Volume`) are not modelled. `Execute` takes the referenced placements and body volumes as parameters.
- Geometry kernel calls (`Part.makeTorus`, `makeCone`, `makeCylinder`, `makeCompound`, `Part.Shape()`) are replaced by parameter records (`Primitive`, `Shape`).
- `Execute`: `.Length` and `.normalize()` involve a square root. They are not computed: `l` and `dir` are inputs required to be the length and the unit direction of point2 - point1 (`l >= 0`, `l·l` is the squared distance, and `l > 0` means `point2 - point1 = l·dir`).
- `sin`/`cos` of pi/3 and pi/6 are left uninterpreted (`Trig`). `Cone2AtArcEnd` assumes only cos² + sin² = 1 for pi/3.
- Execute: every `getObjectsByLabel(...)[0]` lookup is assumed to find an object, so the IndexError that aborts the recompute when no object carries a label is not modelled. A view object is assumed to exist, so the AttributeError raised without a GUI after the shape is already assigned is not modelled either.
- Floating-point rounding is not modelled; lengths, volumes and colours are exact reals.
- `DapTools.indexOrDefault` is not part of this model. `IndexOrDefault` gives it the meaning "first position of the value, else the default".
- Property declarations, `setEditorMode`, document restore, the feature command and the view provider are not modelled. They are host and GUI wiring.
- The message is returned instead of being printed on the console.
- In the panel, these are left out as widget, selection and chart code: `plotSelection` and the energy plots, `tableCellClicked`, `plottableIndexChanged`, `whatToPlotChanged`, `reject`, `getStandardButtons` and UI loading.
- The third component of result vectors is never read, so `Planar` carries only x and y.
- `ExtractPlotDispVel`: a read outside a table would raise an IndexError in _TaskPanelPlot.py. The model requires instead that every read stays inside its table (`AllReadable`).
- `ExtractPlotDispVel`: the nested loops of _TaskPanelPlot.py are split into helpers. `ReadSideSeries` is the time loop for one side, and `ReadPartSeries` is the body of the loop over targets.
- `RemoveButtonPushed`: the table widget's behaviour is taken to be "remove the current row when it names a row, else nothing". This covers -1 when no row is current.
