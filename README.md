# ML Made Easy — verified model of the simulations and the navigation bar

This project models the parts of the "ML Made Easy" teaching site that compute
something, and proves properties about them. The rest of the site is markup. The
modelled parts are:

- **K-means** (`kmeans.dfy`, module `KMeans`). Lloyd's algorithm with three
  coloured centroids over three random blobs of 30 points. Each point is assigned
  to its nearest centroid, with ties going to the lowest index. Each centroid then
  moves to the mean of its points, and a centroid with no points stays where it is.
- **PCA** (`pca.dfy`, module `PCA`). Forty points along the canvas diagonal. A
  toggle projects them onto the fixed direction (0.707, 0.707) through the canvas
  centre, or restores them. Each point remembers its original position.
- **Linear regression** (`linreg.dfy`, module `LinearRegression`). Twenty noisy
  points and one batch gradient-descent step on the mean squared error, with
  learning rate 0.0001. The regression line's two plotted endpoints are also
  modelled.
- **Logistic regression** (`logreg.dfy`, module `LogisticRegression`). Two
  labelled blobs and one batch gradient step on the cross-entropy, with
  learning rate 0.05 / m; the reported loss uses the clamped probability. The two endpoints of the decision boundary are also
  modelled.
- **Navigation bar** (`topnav.dfy`, module `TopNav`):
  - the grouping of the topic catalog by learning type;
  - the per-section lookup with its empty default;
  - the "section is active" test;
  - the section dropdowns;
  - each topic's sub-menu of in-page anchors.

How the source's pieces map to Dafny:

- Each visualisation component is a `class`.
  - Its fields are the component's `useState` variables.
  - Its constructor is the mount effect, which runs `init` / `generateData`.
  - Each of its methods replaces state the way the component's setters do.
- The step and toggle methods are proved equal to a pure function of the old
  state (`StepOf`, `ProjectionToggled`, `TrainStepOf`, …). The properties are
  proved about those functions.
- `init` and the `generateData` methods state the new state outright, in terms
  of the random draws.
- The blob and point generators are read-only methods. Each is proved to give,
  at every index, the point a per-index function makes from its draws
  (`BlobPoint`, `SamplePoint`).
- The other loops that compute a value are read-only methods proved against a
  recursive specification function:
  - the nearest-centroid scan;
  - the gradient accumulations;
  - the topic-grouping `reduce`.
- JavaScript numbers are modelled as exact `real`s.
- Each `Math.random()` call is a parameter in [0, 1). The draws are consumed in
  the order the source makes them.
- `Math.exp` and `Math.log` are function-valued parameters. Only what the proofs
  need is assumed about them:
  - `exp` returns positive values;
  - `log` is not positive on (0, 1].

## Model

| member | source | states |
|---|---|---|
| KMeans.BlobCentre | components/viz/KMeansViz.tsx:20-21 | a blob centre lies in [50, 350) x [50, 250) |
| KMeans.BlobPoint | components/viz/KMeansViz.tsx:22-28 | a blob point lies within 30 of its centre in each coordinate, inside [20, 380) x [20, 280), and is unassigned (cluster -1) |
| KMeans.GenerateBlobs | components/viz/KMeansViz.tsx:18-30 | the nested loops yield exactly 90 points; point 30 i + j is point j of blob i, in draw order; every cluster is -1 |
| KMeans.InitialCentroids | components/viz/KMeansViz.tsx:34-39 | three centroids, coloured pink, emerald, blue in palette order, each inside the 400 x 300 canvas |
| KMeans.NearestAmong | components/viz/KMeansViz.tsx:51-59 | the scan over the first n centroids yields -1 exactly when none was scanned (the `Infinity` seed); otherwise an index in range whose squared distance is minimal, and strictly smaller than at every lower index (strict `<`: the first minimum wins) |
| KMeans.NearestCentroid | components/viz/KMeansViz.tsx:51-59 | the `forEach` loop computes the nearest index; it is -1 iff there are no centroids, otherwise in range |
| KMeans.Assign | components/viz/KMeansViz.tsx:50-61 | the assignment keeps the point count and every x, y; it gives each point an in-range index of a nearest centroid, strictly nearer than every lower index; with no centroids every point gets -1 |
| KMeans.MembersCount | components/viz/KMeansViz.tsx:65 | the filter keeps every copy of each point whose cluster is the centroid's index, and no other point (as multisets) |
| KMeans.MembersAppend | components/viz/KMeansViz.tsx:65 | filtering a list made of two parts filters each part and concatenates, so the kept points stay in list order |
| KMeans.UpdateCentroids | components/viz/KMeansViz.tsx:64-70 | the centroid count and every colour are preserved; a centroid with no points is returned unchanged, so it is never divided by zero |
| KMeans.StepOf | components/viz/KMeansViz.tsx:48-75 | a step keeps point and centroid counts, every point's position and every colour, and raises the iteration by exactly 1 |
| KMeans.CentroidIsMeanOfMembers | components/viz/KMeansViz.tsx:66-69 | a centroid with points moves to their arithmetic mean: the points' offsets from its new position sum to zero in both coordinates |
| KMeans.DevXIsSumMinusCount | components/viz/KMeansViz.tsx:67 | the summed horizontal offsets from a are the summed x minus n a |
| KMeans.DevYIsSumMinusCount | components/viz/KMeansViz.tsx:68 | the summed vertical offsets from a are the summed y minus n a |
| KMeans.CentroidsDependOnlyOnAssignment | components/viz/KMeansViz.tsx:64-70 | when every cluster has points, the new centroids do not depend on the old positions |
| KMeans.UpdateIsIdempotent | components/viz/KMeansViz.tsx:64-70 | updating twice against the same assignment gives the same centroids as updating once |
| KMeans.ConvergedStepIsFixedPoint | components/viz/KMeansViz.tsx:48-75 | once re-assignment no longer changes any cluster, the next step leaves points and centroids as they are and only counts the iteration |
| KMeans.KMeansViz.constructor | components/viz/KMeansViz.tsx:17-45 | mounting runs `init`: 90 generated points, the initial centroids, iteration 0, and the class invariant |
| KMeans.KMeansViz.Init | components/viz/KMeansViz.tsx:17-41 | `init` replaces all three pieces of state: 90 unassigned points, fresh centroids, iteration 0 |
| KMeans.KMeansViz.Step | components/viz/KMeansViz.tsx:48-75 | `step` sets the state to `StepOf` of the old state and keeps the invariant (90 points, 3 palette centroids, clusters in [-1, 3)) |
| PCA.SamplePoint | components/viz/PCAViz.tsx:21-28 | a generated point starts at its original (x = ox, y = oy), within 200 of the centre along the diagonal and within 60 across it (as sum and difference of offsets) |
| PCA.GeneratePoints | components/viz/PCAViz.tsx:18-29 | 40 points, point i made from draws 2i and 2i+1, each at its original position |
| PCA.Projection | components/viz/PCAViz.tsx:50-61 | the projected point lies on the diagonal through the centre (x - 200 = y - 150), at offset 0.707 * 0.707 times the sum of the original offsets |
| PCA.ToggleMap | components/viz/PCAViz.tsx:42-62 | the map keeps the point count and every ox, oy; restoring sets x = ox, y = oy exactly; projecting puts every point on the diagonal |
| PCA.ProjectionToggled | components/viz/PCAViz.tsx:41-65 | `toggleProjection` flips `projected`, keeps `showVectors` and the point count |
| PCA.VectorsToggled | components/viz/PCAViz.tsx:39 | `toggleVectors` flips `showVectors` and changes nothing else |
| PCA.ToggleReadsOnlyOriginals | components/viz/PCAViz.tsx:44-54 | the toggle reads only ox, oy: two point lists that agree on their originals toggle to the same list |
| PCA.ToggleEstablishesConsistency | components/viz/PCAViz.tsx:41-64 | from any state, after a toggle every point is at its original (not projected) or at the projection of its original (projected) |
| PCA.ToggleTwiceIsIdentity | components/viz/PCAViz.tsx:41-64 | from a consistent state, toggling twice gives back the identical point list and flags |
| PCA.ProjectionShrinksDiagonal | components/viz/PCAViz.tsx:47-50 | since 0.707 is not exactly 1/sqrt(2), a point already on the diagonal at offset t is moved to offset 0.999698 t rather than left in place |
| PCA.PCAViz.constructor | components/viz/PCAViz.tsx:17-37 | mounting runs `generateData`: 40 points at their originals, both flags cleared, invariant established |
| PCA.PCAViz.GenerateData | components/viz/PCAViz.tsx:17-33 | `generateData` replaces the points with 40 fresh ones at their originals and clears both flags |
| PCA.PCAViz.ToggleVectors | components/viz/PCAViz.tsx:39 | the state becomes `VectorsToggled` of the old one; the invariant is untouched |
| PCA.PCAViz.ToggleProjection | components/viz/PCAViz.tsx:41-65 | the state becomes `ProjectionToggled` of the old one; it is always consistent afterwards; from a consistent state, toggling again restores the old state |
| LinearRegression.SamplePoint | components/viz/LinearRegressionViz.tsx:16-19 | x is an integer in [0, 99] (`Math.floor`) and y lies within 20 of 0.8 x + 10 |
| LinearRegression.GeneratePoints | components/viz/LinearRegressionViz.tsx:14-20 | 20 points, point i made from draws 2i and 2i+1, every x in [0, 99] |
| LinearRegression.Gradient | components/viz/LinearRegressionViz.tsx:35-44 | the loop accumulates dm = sum (2/n) (slope x + intercept - y) x and dc = sum (2/n) (slope x + intercept - y); both are 0 for no points |
| LinearRegression.StepOf | components/viz/LinearRegressionViz.tsx:33-49 | a step keeps the points and the training flag and raises the epoch by exactly 1; with no points slope and intercept are unchanged |
| LinearRegression.LineData | components/viz/LinearRegressionViz.tsx:60-65 | the two endpoints have x = 0 and x = 100 and both lie on the current line |
| LinearRegression.GradientIsScaledSum | components/viz/LinearRegressionViz.tsx:39-44 | the accumulated gradients are 2/n times the sums of residual x and of residual |
| LinearRegression.PerfectFitHasZeroGradient | components/viz/LinearRegressionViz.tsx:39-44 | if every point lies on the line, both gradients are 0 |
| LinearRegression.PerfectFitIsFixedPoint | components/viz/LinearRegressionViz.tsx:33-49 | a line through every point is a fixed point of the step: only the epoch changes |
| LinearRegression.SqErrAfterMove | components/viz/LinearRegressionViz.tsx:46-47 | after moving (slope, intercept) by -eta (a, b), the squared error equals the old one minus 2 eta (a sum(r x) + b sum(r)) plus eta^2 sum((a x + b)^2) |
| LinearRegression.SumShiftBound | components/viz/LinearRegressionViz.tsx:16 | for x in [-99, 99], sum((a x + b)^2) is at most n (a^2 + b^2) 9802 |
| LinearRegression.StepLowersError | components/viz/LinearRegressionViz.tsx:33-49 | on non-empty data with x in [-99, 99] (which generateData guarantees), a step lowers the mean squared error by at least 0.0198 * 0.0001 * (dm^2 + dc^2): the error never rises, and it strictly falls unless the gradient is zero |
| LinearRegression.LinearRegressionViz.constructor | components/viz/LinearRegressionViz.tsx:13-30 | mounting runs `generateData`: 20 points, slope = intercept = 0, epoch 0, training off |
| LinearRegression.LinearRegressionViz.GenerateData | components/viz/LinearRegressionViz.tsx:13-26 | `generateData` replaces the points and resets slope, intercept and epoch to 0 with training off |
| LinearRegression.LinearRegressionViz.ToggleTraining | components/viz/LinearRegressionViz.tsx:83 | the Start/Stop button flips `isTraining` and nothing else |
| LinearRegression.LinearRegressionViz.Step | components/viz/LinearRegressionViz.tsx:33-49 | the state becomes `StepOf` of the old state |
| LogisticRegression.SamplePoint | components/viz/LogisticRegressionViz.tsx:24-36 | class 0 points lie in [10, 50)^2 and class 1 points in [50, 90)^2, with the given label |
| LogisticRegression.GeneratePoints | components/viz/LogisticRegressionViz.tsx:21-37 | 40 points: the first 20 labelled 0 and the last 20 labelled 1, each from its two draws in order |
| LogisticRegression.InitialWeights | components/viz/LogisticRegressionViz.tsx:40-44 | w1 and w2 start in [-0.5, 0.5) and b in [0, 10) |
| LogisticRegression.Sigmoid | components/viz/LogisticRegressionViz.tsx:54 | for any positive exponential, the sigmoid lies strictly between 0 and 1 |
| LogisticRegression.Clamp | components/viz/LogisticRegressionViz.tsx:78 | the clamped probability lies in [0.0001, 0.9999]; it equals h inside that range and the nearer bound outside it |
| LogisticRegression.Predict | components/viz/LogisticRegressionViz.tsx:73-74 | the prediction sigmoid(w1 x + w2 y + b) is a probability in (0, 1) |
| LogisticRegression.Gradients | components/viz/LogisticRegressionViz.tsx:67-85 | the loop yields dw1 = sum (h - label) x, dw2 = sum (h - label) y, db = sum (h - label) and the summed clamped loss, every h computed from the pre-step weights (a batch step) |
| LogisticRegression.AccumulateStep | components/viz/LogisticRegressionViz.tsx:71-84 | one pass of the loop body extends the four accumulators by exactly the next point's terms |
| LogisticRegression.TrainStepOf | components/viz/LogisticRegressionViz.tsx:56-95 | a step keeps the data and the training flag and raises the epoch by exactly 1 |
| LogisticRegression.LinePoints | components/viz/LogisticRegressionViz.tsx:107-118 | no segment exactly when abs(w2) < 0.001; otherwise two endpoints at x = 0 and x = 100, both satisfying w1 x + w2 y + b = 0 |
| LogisticRegression.LogArgumentsInRange | components/viz/LogisticRegressionViz.tsx:78-79 | both logarithm arguments, safeH and 1 - safeH, lie in [0.0001, 0.9999], so neither is 0 |
| LogisticRegression.PointLossNonNegative | components/viz/LogisticRegressionViz.tsx:79 | one point's clamped cross-entropy is never negative |
| LogisticRegression.SumLossNonNegative | components/viz/LogisticRegressionViz.tsx:67-85 | the accumulated total loss is never negative |
| LogisticRegression.CostNonNegative | components/viz/LogisticRegressionViz.tsx:93 | the reported cost totalLoss / m is never negative |
| LogisticRegression.BiasGradientBounds | components/viz/LogisticRegressionViz.tsx:81-84 | db is 0 for no points, and otherwise lies strictly between minus the number of points labelled 1 and the number labelled 0 |
| LogisticRegression.BiasMovesTowardTheLabels | components/viz/LogisticRegressionViz.tsx:88-90 | a step raises b when every label is 1 and lowers it when every label is 0 |
| LogisticRegression.LogisticRegressionViz.constructor | components/viz/LogisticRegressionViz.tsx:14-52 | mounting sets (1, 1, 0) and then runs `generateData`: 40 points, random weights, epoch and cost 0, training off |
| LogisticRegression.LogisticRegressionViz.GenerateData | components/viz/LogisticRegressionViz.tsx:20-48 | `generateData` replaces data and weights and resets epoch, cost and the training flag |
| LogisticRegression.LogisticRegressionViz.ToggleTraining | components/viz/LogisticRegressionViz.tsx:134 | the Start/Stop button flips `isTraining` and nothing else |
| LogisticRegression.LogisticRegressionViz.TrainStep | components/viz/LogisticRegressionViz.tsx:56-95 | the state becomes `TrainStepOf` of the old one: each weight moves by -(0.05 / m) times its gradient, cost = totalLoss / m, epoch + 1, with m = 40 |
| TopNav.GroupMembers | components/TopNav.tsx:13-17 | a group holds exactly the catalog's topics of its type |
| TopNav.GroupSnoc | components/TopNav.tsx:15 | a pushed topic extends only its own type's group, at the end |
| TopNav.GroupCount | components/TopNav.tsx:13-17 | a group holds each topic of its type as often as the catalog does, and no topic of another type |
| TopNav.GroupTopics | components/TopNav.tsx:13-17 | the reduce creates a key exactly for each type some topic has, and under it that type's topics in catalog order |
| TopNav.SectionTopicsIsGroup | components/TopNav.tsx:100 | the lookup with its empty default gives exactly the topics of the section's type, and the empty list iff no topic has that type |
| TopNav.GroupAppend | components/TopNav.tsx:13-17 | grouping a concatenated catalog concatenates the groups, so a group keeps catalog order |
| TopNav.TopicInOwnGroup | components/TopNav.tsx:13-17 | every topic is in the group keyed by its own type |
| TopNav.GroupsPartitionCatalog | components/TopNav.tsx:13-17 | the three groups together are a permutation of the catalog (as multisets): nothing dropped, nothing duplicated |
| TopNav.IsSectionActive | components/TopNav.tsx:103 | `some` holds iff some topic in the list has the active id |
| TopNav.SectionActiveIff | components/TopNav.tsx:100-103 | a section is active iff some catalog topic of its type has the active id |
| TopNav.ActiveGroupHasTopic | components/TopNav.tsx:100-103 | a highlighted section holds a catalog topic of its type with the active id |
| TopNav.TopicMakesGroupActive | components/TopNav.tsx:100-103 | the active topic highlights the section of its own type |
| TopNav.GeneralTopicsInNoSection | components/TopNav.tsx:20-41 | only Supervised and Unsupervised are sections, so a General topic appears in no dropdown |
| TopNav.DropdownItemFromCatalog | components/TopNav.tsx:129-149 | every topic item of a section's dropdown carries the id of a catalog topic of that section's type |
| TopNav.NotInOtherDropdown | components/TopNav.tsx:129-149 | with distinct topic ids, a topic's id is in no dropdown of a section of another type |
| TopNav.GeneralTopicSelectableOnlyByBrand | components/TopNav.tsx:58 | with distinct topic ids, a click on the bar (the brand button or a dropdown item) can select a General topic iff its id is the brand target 'intro' |
| TopNav.Dropdown | components/TopNav.tsx:129-149 | "Coming Soon" iff the section has no topics; otherwise one item per topic, in order, with its id and title, marked active iff its id is the active id |
| TopNav.DropdownHighlightAgrees | components/TopNav.tsx:103-134 | the section button is highlighted iff one of its dropdown items is |
| TopNav.Decimal | components/TopNav.tsx:187 | `${idx}` is a non-empty string of decimal digits |
| TopNav.DecimalRoundTrip | components/TopNav.tsx:187 | reading the decimal string back gives the index |
| TopNav.DecimalInjective | components/TopNav.tsx:184-187 | different indices give different anchor suffixes |
| TopNav.SubMenu | components/TopNav.tsx:166-201 | the sub-menu runs Overview first and Use Cases last; it offers Interactive Viz iff `viz.type !== 'none'`; maths entry k, with its title, sits right after those in order |
| TopNav.MathAnchorsInOrder | components/TopNav.tsx:184-187 | the k-th maths entry passes `math-k` as its scroll target id |
| TopNav.AnchorOf | components/TopNav.tsx:166-201 | only the maths anchors start with 'm'; a maths anchor is `math-` followed by the decimal digits of its index |
| TopNav.SubMenuEntryAt | components/TopNav.tsx:166-201 | position 0 is Overview, then Interactive Viz when present, then maths entry k with index k, and Use Cases last |
| TopNav.AnchorDetermined | components/TopNav.tsx:166-201 | equal anchors come from entries of the same kind, and equal maths anchors from equal indices |
| TopNav.SubMenuAnchorsDistinct | components/TopNav.tsx:166-201 | no two sub-menu entries pass the same scroll target id |

## Left out

- Network, I/O and animation files are not part of this model. These are
  services/geminiService.ts, components/GeminiTutor.tsx and
  components/viz/NeuralNetViz.tsx. They are a network client, a streamed chat
  and a cosmetic animation with no algorithm.
- Timers are not modelled. The `setInterval` effects that repeat a step while
  training are left out; one method call is one step.
- Rendering is not modelled: all D3, Recharts and JSX markup, including colours
  of points, arrowheads and CSS classes.
- App.tsx, components/ContentArea.tsx, components/MathBlock.tsx,
  components/Sidebar.tsx, constants.ts and types.ts are not part of this model.
  They are layout and static content. Sidebar's only logic is the same
  grouping `reduce`, modelled once in `TopNav.GroupTopics`. types.ts only
  shapes the `Topic` datatype.
- Floating point is not modelled. Numbers are exact reals, so rounding, NaN
  and Infinity do not arise.
- KMeans.NearestAmong: uses squared distance instead of
  `Math.sqrt(Math.pow(…))`. Because the square root is monotone, the same
  centroid wins.
- KMeans.NearestCentroid: `clusterIndex == -1` stands in for "minDist is still
  Infinity". The first centroid scanned is therefore always accepted.
- LogisticRegression.Sigmoid: `Math.exp` is a parameter that returns positive
  values. Nothing else about the exponential is used.
- LogisticRegression.PointLossNonNegative: `Math.log` is a parameter assumed
  only to be non-positive on (0, 1]. The finite value of the loss beyond that
  is not modelled.
- LogisticRegression.TrainStepOf: requires at least one point. With no data
  the source divides 0 by 0 and stores NaN. Every reachable state has 40 points.
- LogisticRegression.TrainStepOf: states the update formula. Beyond the
  direction of the bias, nothing is proved about how the classifier improves.
- TopNav.GeneralTopicSelectableOnlyByBrand: requires the catalog's topic ids
  to be distinct. The catalog in constants.ts has distinct ids, but nothing in
  the bar's code enforces it.
- `Math.random` is not modelled. Every draw is a parameter in [0, 1), taken
  in the source's order.
- The logistic-regression component is not mounted by any page of the site.
  It is modelled as a self-contained component.
- `handleSectionClick` selects the topic, then after a 100 ms timeout looks up
  the element whose id is the entry's scroll target and scrolls to it if it
  exists. The target ids are modelled (`TopNav.AnchorOf`); the selection
  callback and the lookup are not.
- No rendered element carries the ids 'overview', 'viz', `math-<k>` or
  'usecases': ContentArea, MathBlock and App set no `id`. The lookup
  therefore finds nothing, no scrolling happens, and a sub-menu click only
  selects its topic.
- PCA.Projection: 0.707 is used exactly as the source writes it, and it is not
  1/sqrt(2). The projection therefore slightly shrinks points on the diagonal
  (`PCA.ProjectionShrinksDiagonal`) and is not idempotent.
