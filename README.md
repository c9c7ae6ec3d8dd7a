# graph.js — a Dafny model of the graph engine

graph.js draws a weighted graph on a canvas and animates classic graph
algorithms on it. This project models the engine behind the drawing:

- the support data structures of `pub/graph-lib.js`:
  - the array binary heap `TinyQueue`;
  - the offset-plus-slice FIFO `Queue`;
  - the union-find `disjointSet`;
  - Prim's algorithm `mstprim`;
- the `Graph` class of `pub/scripts/graph.js`:
  - vertex creation and bulk population;
  - the first-draw clamp;
  - hit-test selection, vertex move and whole-graph pan;
  - unstyling;
  - the three mouse handlers;
  - the `addAlgorithms` name dispatch;
- the traversal and spanning-tree runners `bfs`, `dfs` and `mstkruskal` of
  `pub/scripts/algorithms`;
- the older `Graph` of `src/graph.js` and its `bfs`/`dfs` of `src/algorithms`.

## How the JavaScript maps to Dafny

**Vertex records.** The adjacency list is an insertion-ordered map:
`OrderedMap`, a key sequence plus a map. It goes from vertex names to vertex
records. A record `[edges, x, y, style, state]` is a datatype with named
fields, and its `edges` Map is again an `OrderedMap`. Styles and options are
maps from property names to scalar `Value`s.

**Data structures.** `TinyQueue`, `Queue`, `disjointSet` and `Graph` are
classes whose fields their methods update.

**Loops.** Each loop of the source is a `method` with a `while` or `for`
loop. It is proved equal to a recursive specification function that folds
the same steps, and what the source promises is proved as lemmas about that
function.

**Algorithm runs.** The runners take the graph as a value and return the
new one. The `Graph` class wraps each of them with its writes to
`styledVertices`, `currentAlgorithm` and `isAlgorithmRunning`, and with the
throw on an absent source.

**Names used below.**

- *Mark*: the string in a record's state slot ("visited", "explored", "").
- *Log*: the list of vertices an algorithm appends to
  `styledVertices[<name>]`.
- *Closed*: every vertex or edge target a record names is itself a vertex of
  the graph.

## Model

| member | source | states |
|---|---|---|
| Values.ToLower | pub/scripts/graph.js:450 | `alg.toLowerCase()`: the result has the same length, upper-case ASCII letters become lower case, and every other character is kept |
| Values.ToLowerIdempotent | pub/scripts/graph.js:450 | lower-casing a lower-cased name changes nothing |
| Fifo.Queue.constructor | pub/graph-lib.js:814-817 | a new queue is empty, with an empty enqueue history |
| Fifo.Queue.GetLength | pub/graph-lib.js:820-822 | `getLength()` is the number of items queued, which is the number enqueued minus the number dequeued |
| Fifo.Queue.IsEmpty | pub/graph-lib.js:825-827 | `isEmpty()` reads the raw array length, yet it holds exactly when nothing is queued, because compaction keeps the offset at 0 or below half the array length |
| Fifo.Queue.Enqueue | pub/graph-lib.js:833-835 | the item joins the back; the history gains it and the dequeue count is unchanged |
| Fifo.Queue.Dequeue | pub/graph-lib.js:840-857 | on an empty queue: None (`undefined`), nothing changes. Otherwise: the front item, which is the oldest enqueued item not yet dequeued; the rest stay in order, and the compaction invariant still holds |
| Fifo.Queue.Peek | pub/graph-lib.js:860-862 | the front item, or None when empty; nothing changes |
| PriorityQueue.SiftUpCorrect | pub/graph-lib.js:1012-1025 | `_up` on an array that is a heap everywhere except at the hole gives a heap with the same multiset of elements |
| PriorityQueue.SiftDownCorrect | pub/graph-lib.js:1027-1046 | `_down` on an array that is a heap below the hole gives a heap from the start index on, with the same multiset |
| PriorityQueue.SiftUpStep | pub/graph-lib.js:1016-1022 | one turn of the `_up` loop keeps the hole invariant |
| PriorityQueue.SiftDownStep | pub/graph-lib.js:1032-1043 | one turn of the `_down` loop keeps the hole invariant; the right child is taken only when it is strictly smaller |
| PriorityQueue.HeapifyCorrect | pub/graph-lib.js:984-986 | the constructor's `for (i = (length >> 1) - 1; i >= 0; i--) _down(i)` turns any array into a heap over the same multiset |
| PriorityQueue.BuildCorrect | pub/graph-lib.js:979-987 | after the constructor the array is a heap holding exactly the given elements |
| PriorityQueue.PushCorrect | pub/graph-lib.js:989-992 | `push` keeps the heap order and adds exactly one occurrence of the item |
| PriorityQueue.RootIsMinimum | pub/graph-lib.js:1008-1010 | the root of a heap is no greater than any element |
| PriorityQueue.PopCorrect | pub/graph-lib.js:994-1006 | `pop` on a non-empty heap keeps the heap order, removes exactly one occurrence of the root, and the root is no greater than every remaining element |
| PriorityQueue.TinyQueue.constructor | pub/graph-lib.js:979-987 | the queue keeps the comparator; its array is the heapified input, so it is a heap with the input's multiset, and `length == data.length` |
| PriorityQueue.TinyQueue.Push | pub/graph-lib.js:989-992 | the array becomes the pushed-and-sifted array; the contents gain the item; the heap invariant holds |
| PriorityQueue.TinyQueue.Pop | pub/graph-lib.js:994-1006 | empty: None (`undefined`), nothing changes. Otherwise: the old root, which is no greater than any element left; the contents lose exactly that one occurrence; the heap invariant holds |
| PriorityQueue.TinyQueue.Peek | pub/graph-lib.js:1008-1010 | `data[0]`, the minimum, or None when empty; nothing changes |
| PriorityQueue.TinyQueue.Up | pub/graph-lib.js:1012-1025 | the loop computes the `_up` specification function on the array in place |
| PriorityQueue.TinyQueue.Down | pub/graph-lib.js:1027-1046 | the loop computes the `_down` specification function on the array in place |
| UnionFind.AddKeepsRoot | pub/graph-lib.js:875-882 | registering a fresh singleton moves no existing root |
| UnionFind.LinkRoot | pub/graph-lib.js:911-917 | after root r2 is hung under root r1, exactly the members of r2's set change root, and all of them move to r1 |
| UnionFind.LinkConnects | pub/graph-lib.js:903-920 | after a union, two ids share a root exactly when they did before, or when one was in each merged set |
| UnionFind.LinkRootCount | pub/graph-lib.js:911-917 | a link of two different roots removes exactly one root |
| UnionFind.GroupsAll | pub/graph-lib.js:927-934 | after `extract`'s first loop there is one list per root, holding exactly that root's members in id order |
| UnionFind.RootsBelowFacts | pub/graph-lib.js:936-938 | the roots are listed ascending, each once |
| UnionFind.GroupedCount | pub/graph-lib.js:922-941 | `extract` gives one group per set |
| UnionFind.GroupAt | pub/graph-lib.js:922-941 | every group is non-empty, and it holds only the values whose id has that group's root |
| UnionFind.MembersFacts | pub/graph-lib.js:927-934 | a value is in a root's list exactly when some id with that root holds it |
| UnionFind.MemberAt | pub/graph-lib.js:927-934 | every registered value is in the list of its own root |
| UnionFind.PickedGrouped | pub/graph-lib.js:936-940 | taking one list per root in ascending root order gives exactly the groups |
| UnionFind.InRootOrder | pub/graph-lib.js:936-940 | `extract`'s second loop gives the lists in ascending order of their roots |
| UnionFind.DisjointSet.constructor | pub/graph-lib.js:871-873 | a new instance has no ids and no links |
| UnionFind.DisjointSet.Add | pub/graph-lib.js:875-884 | a value with no tag gets the next id as a singleton set; a tagged value changes nothing, even on a fresh instance |
| UnionFind.DisjointSet.FindById | pub/graph-lib.js:891-897 | `_findById` follows parent links, without compression, to the id's self-parented root; an id that is `undefined` or unknown answers None |
| UnionFind.DisjointSet.Find | pub/graph-lib.js:886-889 | `find` is the root of the value's tag |
| UnionFind.DisjointSet.Connected | pub/graph-lib.js:899-901 | true exactly when both finds agree |
| UnionFind.DisjointSet.Union | pub/graph-lib.js:903-920 | already joined values: no change. Otherwise val2's root is hung under val1's, and the ids and values are unchanged |
| UnionFind.DisjointSet.Link | pub/graph-lib.js:911-917 | the size test never holds, because every root keeps size 1; so r2 goes under r1, the size is added to the absorbed root r2, and exactly r2 stops being a root |
| UnionFind.DisjointSet.GroupByRoot | pub/graph-lib.js:927-934 | the map is keyed by exactly the roots, and each root's list holds its members in id order |
| UnionFind.DisjointSet.Extract | pub/graph-lib.js:922-941 | the groups are exactly the sets, one per root, ascending by root, with members in id order |
| UnionFind.DisjointSet.Reset | pub/graph-lib.js:963-971 | every set is forgotten; the answer lists the values whose tags `_reset` deletes |
| Adjacency.OrderedMap.Set | pub/scripts/graph.js:219-221 | `Map.prototype.set`: a present key is overwritten where it stands and a new key goes last; the map stays well formed |
| Adjacency.ResetStates | pub/scripts/algorithms/bfs.js:49 | every state slot becomes `""` and nothing else changes |
| Adjacency.FirstHit | pub/scripts/graph.js:262-270 | the answer is the first key in order whose inclusive ±20 box holds the position: it is hit and no earlier key is. None exactly when no box holds it |
| Editing.DefaultsKeys | pub/scripts/graph.js:113-127 | filling in defaults adds exactly the listed option names |
| Editing.DefaultsKeep | pub/scripts/graph.js:113-127 | every option the caller gave is kept with its value |
| Editing.DefaultsFirst | pub/scripts/graph.js:113-127 | every missing option gets the first value listed for it |
| Editing.WithDefaultsFacts | pub/scripts/graph.js:113-127 | the constructor's options are the caller's options completed with the nine defaults |
| Editing.DefaultedUnique | pub/scripts/graph.js:113-127 | the completed options are determined by the given ones |
| Editing.ApplyDefaults | pub/scripts/graph.js:113-127 | the nine `!(k in o) && (o[k] = v)` statements, run in order, complete the options |
| Editing.DefaultsNamedOnce | pub/scripts/graph.js:114-127 | no option is defaulted twice |
| Editing.PickFacts | pub/scripts/graph.js:155-169 | the filtered copy holds exactly the named options that are present, with their values |
| Editing.NewVertex | pub/scripts/graph.js:171-187 | a new record has no edges, the given position, an empty state and no disjoint-set tag |
| Editing.AddVertex | pub/scripts/graph.js:206-208 | `createNewVertex` runs only when the name is absent; afterwards the name is present |
| Editing.AddEdge | pub/scripts/graph.js:219-221 | setting an edge keeps the vertex names |
| Editing.AddTarget | pub/scripts/graph.js:211-222 | the target vertex is added when absent, then the edge is set |
| Editing.PopulatedClosed | pub/scripts/graph.js:204-223 | population keeps the graph closed: every edge it sets leads to a vertex |
| Editing.PopulatedExtends | pub/scripts/graph.js:206-216 | population never recreates a vertex. Every existing vertex keeps its place in the order, its position, style and state, and every edge it had, each at its old place in the edge order |
| Editing.PopulatedCreated | pub/scripts/graph.js:171-187 | every vertex population adds is a fresh record with an empty state and the vertex options as its style, at a position one of its occurrences gives |
| Editing.PopulatedPlaced | pub/scripts/graph.js:171-187 | explicit coordinates are used only when both are given: every new vertex is on the canvas, or at a pair of coordinates the data gave for it |
| Editing.PopulatedEdges | pub/scripts/graph.js:200-223 | population sets exactly the listed edges. Each listed `source → target` is present with a listed weight and a fresh copy of the edge options; every other edge is unchanged from before, so no reverse edge is added |
| Editing.EdgesSetTrans | pub/scripts/graph.js:219-221 | setting edges in two steps sets the union of the edges listed in each step |
| Editing.EdgeEdges | pub/scripts/graph.js:219-221 | one `set` adds or overwrites exactly its edge, with the given weight and a copy of the edge options |
| Editing.CreatedTrans | pub/scripts/graph.js:206-216 | two population steps create records only as each step does |
| Editing.ExtendsTrans | pub/scripts/graph.js:206-216 | growing the graph twice is growing it |
| Editing.ClampFacts | pub/scripts/graph.js:235-248 | a coordinate below 0 becomes 40; one above the bound becomes bound − 40; one in between is unchanged; on a canvas at least 40 wide the clamped coordinate is on it |
| Editing.ClampedFacts | pub/scripts/graph.js:233-249 | the first draw changes only positions. A position on the canvas stays; on a canvas of at least 40 × 40 every vertex ends up on it, and clamping again changes nothing |
| Editing.ShiftedFacts | pub/scripts/graph.js:303-308 | a pan moves every vertex by the same offset, so every difference of positions is kept and nothing else changes; panning back by the opposite offset restores the graph |
| Editing.PlainTwice | pub/scripts/graph.js:324-335 | unstyling a record twice is unstyling it once |
| Editing.UnstyledIsSet | pub/scripts/graph.js:324-335 | unstyling a list comes to unstyling the set of its names, so repeated entries make no difference |
| Editing.UnstyleOneMore | pub/scripts/graph.js:324-335 | unstyling one more listed record adds it to the unstyled set |
| Editing.UnstyledFacts | pub/scripts/graph.js:317-339 | unstyling touches only styles: names, order, positions, states, tags and edge targets and weights stay; each listed vertex gets the fixed style, with every out-edge black; unlisted vertices are unchanged |
| Editing.SelectedFacts | pub/scripts/graph.js:261-276 | with no hit nothing changes; otherwise only the first hit vertex in insertion order changes, and its `textColor` becomes "red" |
| Graph.Pushed | pub/scripts/graph.js:278-281 | the list under the kind is created when absent and then extended; every other list is unchanged |
| Graph.Cleared | pub/scripts/graph.js:337 | `styledVertices[type] = []` empties the kind's list when present and leaves the others alone |
| Graph.MovedToFacts | pub/scripts/graph.js:291-292 | moving a vertex changes its position and nothing else; moving it back restores the graph |
| Graph.Undirected | pub/scripts/algorithms/mst-kruskal.js:9-12 | while an MST runner works `directed` is off, and every other option is unchanged |
| Graph.Redirected | pub/scripts/algorithms/mst-kruskal.js:40-42 | afterwards `directed` is truthy exactly when it was before, and every other option is unchanged |
| Graph.DirectedToggled | pub/scripts/algorithms/mst-kruskal.js:9-42 | switching `directed` off and, when it was truthy, back on is the restore the model states |
| Graph.RedirectedRestores | pub/scripts/algorithms/mst-kruskal.js:9-42 | when `directed` was filled in by the constructor's default, the runner leaves the options exactly as they were |
| Graph.AfterRun | pub/scripts/algorithms/bfs.js:10-11 | a known runner makes itself current and sets the running flag; no runner clears it; an unknown name changes no flag |
| Graph.DispatchIgnoresCase | pub/scripts/graph.js:450 | a button name in any case selects the same runner as its lower-cased form |
| Graph.ReshapedSound | pub/scripts/graph.js:288-339 | a rewrite that keeps names, edge targets and states keeps the handler invariant |
| Graph.EmptySound | pub/scripts/graph.js:130-132 | a new graph meets the handler invariant |
| Graph.CreatedSound | pub/scripts/graph.js:171-187 | storing a fresh record keeps the invariant, even over an old one |
| Graph.PopulatedSound | pub/scripts/graph.js:204-223 | population keeps the invariant |
| Graph.DrawnSound | pub/scripts/graph.js:230-255 | the first draw keeps the invariant |
| Graph.SelectedSound | pub/scripts/graph.js:261-282 | selecting keeps the invariant, with the selection list extended |
| Graph.SelectedReshapes | pub/scripts/graph.js:261-276 | selecting restyles at most one vertex, and that vertex is present |
| Graph.MovedSound | pub/scripts/graph.js:288-296 | moving one vertex keeps the invariant |
| Graph.ShiftedSound | pub/scripts/graph.js:302-311 | a pan keeps the invariant |
| Graph.UnstyleReshapes | pub/scripts/graph.js:317-339 | unstyling keeps names, edge targets, states and disjoint-set tags |
| Graph.UnstyleSound | pub/scripts/graph.js:317-339 | unstyling keeps the invariant, with the kind's list emptied |
| Graph.TagsFrame | pub/scripts/algorithms/mst-kruskal.js:14-21 | a rewrite that keeps names and tags keeps which records `ds.add` tags and with which ids |
| Graph.UnstyleConsistent | pub/scripts/algorithms/mst-kruskal.js:14-33 | the tag condition Kruskal's model needs survives unstyling |
| Graph.PushedNames | pub/scripts/graph.js:278-281 | pushing vertices of the graph keeps every listed name a vertex |
| Graph.BfsOutcome | pub/scripts/algorithms/bfs.js:26-49 | the BFS search followed by the state reset is the BFS runner's outcome: the log starts at the source and names exactly the reachable vertices, each reached vertex's `edgeColor` is red, and only `edgeColor` and a blue `vertexBorderColor` change |
| Graph.DfsOutcome | pub/scripts/algorithms/dfs.js:25-50 | the DFS search followed by the reset is the DFS runner's outcome: every reachable vertex is finished, which means blue with all its out-edges red, and every other vertex is untouched |
| Graph.KruskalOutcome | pub/scripts/algorithms/mst-kruskal.js:35-44 | Kruskal's run keeps the handler invariant |
| Graph.PrimOutcome | pub/graph-lib.js:692-700 | Prim's run keeps the handler invariant |
| Graph.ForEachRecord | pub/scripts/graph.js:233-249 | a loop over the records in insertion order applies the rewrite to every record |
| Graph.UnstyleList | pub/scripts/graph.js:324-335 | the `for` loop of `unstyleVertices` computes the unstyling of the listed vertices |
| Graph.UnstyleOn | pub/scripts/graph.js:317-339 | `unstyleVertices(kind)` unstyles the listed vertices, empties the list and keeps the invariant; an unknown kind changes nothing |
| Graph.BfsRunner | pub/scripts/algorithms/bfs.js:1-50 | `bfs(graph, source)`: the `bfs` list is created first. An absent source throws with the records untouched; otherwise the run's outcome is as in Graph.BfsOutcome and the log is pushed onto the list |
| Graph.DfsRunner | pub/scripts/algorithms/dfs.js:1-51 | `dfs(graph, source)`: the `dfs` list is created first. An absent source throws with the records untouched; otherwise every reachable vertex is finished |
| Graph.KruskalRanFrom | pub/scripts/algorithms/mst-kruskal.js:1-45 | Kruskal's search, paint and reset form the runner's outcome, with `directed` restored |
| Graph.KruskalRunner | pub/scripts/algorithms/mst-kruskal.js:1-45 | `mstkruskal(graph)`: the list is created, `directed` is off during the run and restored after. Every record is tagged; the accepted edges turn red; they are what the greedy selection keeps from the pops in ascending weight |
| Graph.PrimRanFrom | pub/graph-lib.js:643-701 | Prim's search, paint and reset form the runner's outcome, with `directed` restored |
| Graph.PrimRunner | pub/graph-lib.js:643-701 | `mstprim(graph)`: an empty graph throws while `directed` is still off. Otherwise the pops drain the heap, the accepted edges turn red, and `directed` is restored |
| Graph.Dispatch | pub/scripts/graph.js:450-466 | the `switch` on the lower-cased name runs bfs, dfs, mstprim or mstkruskal from "a", and any other name changes nothing |
| Graph.ClickOn | pub/scripts/graph.js:443-466 | a click first unstyles a running algorithm's vertices and makes nothing current, then dispatches |
| Graph.Graph.constructor | pub/scripts/graph.js:102-136 | the options are the given ones completed with the defaults; the adjacency list and `styledVertices` are empty; no mouse press, nothing running, nothing current, not stable |
| Graph.Graph.CreateNewVertex | pub/scripts/graph.js:154-188 | stores a fresh record under the name, overwriting one that is there. The position is the given one when both coordinates are given, else a random pair on the canvas |
| Graph.Graph.AddTargetsOf | pub/scripts/graph.js:211-222 | the `.map` over one source's edges adds its targets in order |
| Graph.Graph.AddTargetOf | pub/scripts/graph.js:212-221 | one target is created when absent, then its edge is set |
| Graph.Graph.AddEntries | pub/scripts/graph.js:204-223 | the loop over the data's entries computes the population function |
| Graph.Graph.Populate | pub/scripts/graph.js:195-224 | a non-object or `null` argument throws before any change; otherwise the list becomes the population of the entries in order |
| Graph.Graph.DrawToCanvas | pub/scripts/graph.js:230-255 | the first draw clamps every coordinate off the canvas and sets `stable`; later draws change nothing |
| Graph.Graph.StyleSelectedVertex | pub/scripts/graph.js:261-282 | the first vertex in insertion order whose box holds the point gets a red `textColor` and joins the `selected` list; with no hit nothing changes |
| Graph.Graph.MoveVertex | pub/scripts/graph.js:288-296 | true exactly when the selection is non-empty, and then only the first selected vertex moves to the point; otherwise nothing changes |
| Graph.Graph.MoveGraph | pub/scripts/graph.js:302-311 | every vertex moves by the point minus `positionOnClick`, which then becomes the point |
| Graph.Graph.UnstyleVertices | pub/scripts/graph.js:317-339 | the listed vertices of the kind get the fixed style and black out-edges, and the list is emptied |
| Graph.Graph.MouseDown | pub/scripts/graph.js:399-410 | records the press and its position. While running it cancels: the current algorithm's vertices are unstyled, nothing is current, nothing runs. Otherwise it selects. Then it draws |
| Graph.Graph.Drag | pub/scripts/graph.js:414-419 | the first selected vertex follows the mouse, or, with nothing selected, the whole graph pans; then the graph is drawn |
| Graph.Graph.MouseMove | pub/scripts/graph.js:412-421 | drags only when the mouse is down and nothing runs; the mouse position is always recorded |
| Graph.Graph.MouseUp | pub/scripts/graph.js:423-429 | clears `mouseDown`; when nothing runs the selection is unstyled; then the graph is drawn |
| Graph.Graph.Click | pub/scripts/graph.js:443-466 | a click unstyles a running algorithm but leaves the running flag; the runner the lower-cased name selects then runs from "a" and makes itself current and running |
| Paths.ReachableRefl | pub/scripts/algorithms/bfs.js:13-17 | every vertex reaches itself, so the source is reachable from itself |
| Paths.ReachableStep | pub/scripts/algorithms/bfs.js:32-40 | a reachable vertex's out-neighbour (an edges Map key) is reachable |
| Paths.ClosedHoldsReachable | pub/scripts/algorithms/bfs.js:27-47 | a vertex set closed under out-edges that holds the source holds every vertex the source reaches |
| Paths.PathStaysIn | pub/scripts/algorithms/bfs.js:27-47 | every vertex of a path that starts in a set closed under out-edges lies in that set |
| Paths.PrefixStaysIn | pub/scripts/algorithms/bfs.js:27-47 | the k-th vertex of such a path lies in the set |
| Paths.SameEdgesReachable | pub/scripts/algorithms/bfs.js:29-41 | reachability depends only on the edge keys: repainting styles or states never changes it |
| Paths.LiveStep | src/algorithms/bfs.js:14-30 | a vertex that reaches a cycle has an out-neighbour that reaches one, so the queue never empties |
| Traversal.ReachFrom | pub/scripts/algorithms/bfs.js:13-47 | the reachable set holds exactly the known vertices reachable from the source |
| Traversal.ReachFromFacts | pub/scripts/algorithms/bfs.js:13-47 | the reachable set holds the source and is closed under out-edges |
| Traversal.NeighboursIn | pub/scripts/algorithms/bfs.js:32-33 | every edge key of a vertex of a closed set lies in that set |
| Traversal.StartStates | pub/scripts/algorithms/bfs.js:13-17 | marking only the source "visited" keeps the state invariant: explored outside the unexplored set, changes only on reachable vertices |
| Traversal.StartFrontier | pub/scripts/algorithms/bfs.js:13-17 | with only the source queued, every visited vertex is on the worklist |
| Traversal.FrontierTake | pub/scripts/algorithms/bfs.js:28 | taking a vertex off the worklist makes it the vertex being examined and keeps the frontier |
| Traversal.FrontierGrow | pub/scripts/algorithms/bfs.js:40 | adding to the worklist keeps the frontier |
| Traversal.CoveredStep | pub/scripts/algorithms/bfs.js:37-40 | a marked neighbour is already explored or queued; an unmarked one is added, so the examined neighbours stay covered |
| Traversal.StatesExplore | pub/scripts/algorithms/bfs.js:46 | making the examined vertex "explored" keeps the state invariant and removes it from the unexplored set |
| Traversal.FrontierExplore | pub/scripts/algorithms/bfs.js:46 | once all its neighbours are covered, the examined vertex can be explored without breaking the frontier |
| Traversal.MeasureDrops | pub/scripts/algorithms/bfs.js:27-47 | each pass lowers (unexplored count, entries outside it): the loop ends although vertices can be queued twice |
| Traversal.ExploredClosed | pub/scripts/algorithms/bfs.js:27-47 | with an empty worklist and an unmarked start, the explored set holds the source and is closed under out-edges |
| Traversal.ExploredIsReachable | pub/scripts/algorithms/bfs.js:27-47 | with an empty worklist and an unmarked start, a vertex is explored exactly when it is reachable |
| Traversal.SourceMarked | pub/scripts/algorithms/bfs.js:13-17 | the start marks hold the source, and no other unmarked vertex |
| Traversal.UnmarkedIn | pub/scripts/algorithms/bfs.js:37-40 | a neighbour is added exactly when it is among those examined, unmarked at the start and never taken off: an explored vertex is never added again |
| Traversal.UnmarkedKeep | pub/scripts/algorithms/bfs.js:37-40 | with no neighbour marked, all of them are added, in insertion order |
| Traversal.UnmarkedDrop | pub/scripts/algorithms/bfs.js:37-39 | with every neighbour marked, none is added |
| Traversal.MarksStart | pub/scripts/algorithms/bfs.js:13-17 | at the start a vertex is marked exactly when it was marked before or is the source |
| Traversal.PushedStep | pub/scripts/algorithms/dfs.js:37-41 | one neighbour extends the worklist by itself exactly when it is unmarked |
| Traversal.ReplayPrefix | pub/scripts/algorithms/bfs.js:27-28 | every prefix of a successful replay of the turns succeeds |
| Traversal.ReplayTop | pub/scripts/algorithms/dfs.js:26-27 | each turn takes the front (queue) or the top (stack) of the worklist the earlier turns leave |
| Traversal.ReplaySame | pub/scripts/algorithms/bfs.js:27-28 | two successful replays agree on their common length |
| Traversal.ReplayUnique | pub/scripts/algorithms/dfs.js:26-27 | the worklist discipline fixes the order: two complete replays from the same start are the same sequence |
| Traversal.ReplayNext | pub/scripts/algorithms/bfs.js:28-40 | one more turn takes the top and adds the top's unmarked neighbours in insertion order |
| BreadthFirst.PaintFacts | pub/scripts/algorithms/bfs.js:29-41 | BFS's paint sets `edgeColor` red and `borderColor` blue when asked, and touches no other property |
| BreadthFirst.PaintAgain | pub/scripts/algorithms/bfs.js:29-41 | painting a painted style again is the paint with the flag set: writes are idempotent |
| BreadthFirst.ServedStart | pub/scripts/algorithms/bfs.js:13-17 | before the loop the queue, the empty log and the empty blue set are those of no dequeue |
| BreadthFirst.ServedStep | pub/scripts/algorithms/bfs.js:28-46 | one dequeue of the front plus its neighbours keeps queue, log and blues equal to the replay of the dequeues |
| BreadthFirst.LogNext | pub/scripts/algorithms/bfs.js:30-34 | one more dequeue logs the dequeued vertex and then each of its out-neighbours in insertion order |
| BreadthFirst.ServeNext | pub/scripts/algorithms/bfs.js:28-41 | one more dequeue of the front gives the replayed queue and the blue borders of the dequeues so far |
| BreadthFirst.VisitStep | pub/scripts/algorithms/bfs.js:33-43 | one neighbour is logged, and, when unmarked, enqueued with the queue's front painted blue |
| BreadthFirst.ExaminedNone | pub/scripts/algorithms/bfs.js:32 | before the inner loop nothing is examined |
| BreadthFirst.BfsStart | pub/scripts/algorithms/bfs.js:13-17 | the state before the loop meets the loop invariant: the source is queued, nothing is logged or painted |
| BreadthFirst.Bfs | pub/scripts/algorithms/bfs.js:13-47 | keys kept; only states and styles change; the log starts with the source and holds reachable vertices; logged vertices are red and changed borders blue; from an unmarked start a vertex ends "explored" exactly when reachable, and every reachable vertex is logged; the dequeues are the unique replay of the queue and the log is exactly their `LogOf`, the borders exactly their `BluesOf` |
| BreadthFirst.BfsLoop | pub/scripts/algorithms/bfs.js:27-47 | the `while` loop ends with an empty queue, the invariant kept and queue, log and blues equal to the replay of the dequeues |
| BreadthFirst.BfsStyles | pub/scripts/algorithms/bfs.js:29-41 | at the end every style is the original painted red where logged and blue on the borders written |
| BreadthFirst.BfsIteration | pub/scripts/algorithms/bfs.js:28-46 | one pass keeps the invariant and the replay and lowers the termination measure |
| BreadthFirst.BfsNeighbours | pub/scripts/algorithms/bfs.js:32-44 | the inner loop leaves the states alone and yields the queue, log and blues of examining every neighbour in insertion order |
| BreadthFirst.BfsVisit | pub/scripts/algorithms/bfs.js:33-43 | one neighbour: logged and red; enqueued with a blue front exactly when unmarked |
| DepthFirst.RedToFacts | pub/scripts/algorithms/dfs.js:33 | painting edges red keeps the targets, their order and the weights, paints exactly the chosen targets and leaves every other edge alone |
| DepthFirst.RedToStep | pub/scripts/algorithms/dfs.js:33 | the `edgeColor` write on one edge paints one more target |
| DepthFirst.RedToSame | pub/scripts/algorithms/dfs.js:33 | only which targets are painted matters, not how often or in which order |
| DepthFirst.RedToNone | pub/scripts/algorithms/dfs.js:33 | painting no target changes nothing |
| DepthFirst.FinishedFacts | pub/scripts/algorithms/dfs.js:33-47 | a finished record keeps its position and tag, is "explored", has a blue `vertexColor` and every out-edge red with its weight kept |
| DepthFirst.TracedStart | pub/scripts/algorithms/dfs.js:12-16 | before the loop the stack holds only the source and nothing is logged |
| DepthFirst.TracedStep | pub/scripts/algorithms/dfs.js:27-47 | popping the top and pushing its unmarked neighbours keeps stack and log equal to the replay of the pops |
| DepthFirst.LogNext | pub/scripts/algorithms/dfs.js:31 | one more pop logs the popped vertex once per out-neighbour |
| DepthFirst.DfsStart | pub/scripts/algorithms/dfs.js:12-16 | the state before the loop meets the loop invariant |
| DepthFirst.Dfs | pub/scripts/algorithms/dfs.js:12-48 | keys kept; the log starts with the source and holds reachable vertices that have out-edges; unreachable records are untouched; from an unmarked start every reachable record is finished (explored, blue, all out-edges red) and every reachable vertex with out-edges is logged; the pops are the unique stack replay and the log exactly their `LogOf` |
| DepthFirst.DfsResult | pub/scripts/algorithms/dfs.js:26-48 | an empty stack leaves popped records finished and the rest untouched except their state |
| DepthFirst.DfsLoop | pub/scripts/algorithms/dfs.js:26-48 | the `while` loop ends with an empty stack, the invariant kept and stack and log equal to the replay of the pops |
| DepthFirst.DfsIteration | pub/scripts/algorithms/dfs.js:27-47 | one pass keeps the invariant and the replay and lowers the termination measure |
| DepthFirst.DfsNeighbours | pub/scripts/algorithms/dfs.js:29-42 | the inner loop pushes exactly the unmarked neighbours in insertion order and logs the popped vertex once per neighbour |
| DepthFirst.DfsVisit | pub/scripts/algorithms/dfs.js:30-41 | one neighbour: the popped vertex logged, the edge red, the neighbour pushed exactly when unmarked |
| Weighted.OutFromAt | pub/scripts/algorithms/mst-kruskal.js:18 | item `i` pushed for a vertex is `[source, i-th target, its weight]` |
| Weighted.OutEdgesFacts | pub/scripts/algorithms/mst-kruskal.js:18 | the items of one edge Map leave the vertex, one per target, with the stored weight, and every entry has its item |
| Weighted.RedOut | pub/scripts/algorithms/mst-kruskal.js:35-37 | colouring a vertex's accepted edges keeps its targets and their order, paints exactly the accepted ones red and leaves the others as they were |
| Weighted.RedAt | pub/scripts/algorithms/mst-kruskal.js:35-37 | colouring the accepted edges changes only edge Maps, vertex by vertex |
| Weighted.Pairs | pub/scripts/algorithms/mst-kruskal.js:35-37 | the (source, target) pairs are exactly those of the accepted edges |
| Weighted.RedAtNone | pub/scripts/algorithms/mst-kruskal.js:35-37 | colouring no edge changes nothing |
| Weighted.RedAtStep | pub/scripts/algorithms/mst-kruskal.js:36 | the one `edgeColor` write on an edge is colouring one more pair |
| Weighted.PairsSnoc | pub/scripts/algorithms/mst-kruskal.js:30 | one more accepted edge adds exactly its pair |
| Weighted.PaintStep | pub/scripts/algorithms/mst-kruskal.js:35-37 | the `forEach` over the accepted edges, one step: the painted prefix grows by one |
| Weighted.PushEdges | pub/scripts/algorithms/mst-kruskal.js:18 | pushing one edge Map adds exactly its items to the heap's contents |
| Kruskal.EntriesAreStored | pub/scripts/algorithms/mst-kruskal.js:15-21 | the items the reduce pushes are exactly the stored edge entries, each once |
| Kruskal.Untagged | pub/graph-lib.js:875-884 | `add` hands out a fresh id only to an untagged record, so the fresh ids among the first `i` records number at most `i` |
| Kruskal.RetagAt | pub/scripts/algorithms/mst-kruskal.js:16 | after `ds.add` on the first `i` records they carry their new tags and the others keep theirs |
| Kruskal.UniformIsConsistent | pub/scripts/algorithms/mst-kruskal.js:14-16 | on a list whose records are all untagged (a first run) or all tagged, no edge joins a record the fresh set knows to one it does not |
| Kruskal.CountUntagged | pub/scripts/algorithms/mst-kruskal.js:16 | on a first run every record gets a fresh id |
| Kruskal.CountTagged | pub/scripts/algorithms/mst-kruskal.js:16 | on a list tagged by an earlier run no record gets a fresh id |
| Kruskal.Singletons | pub/scripts/algorithms/mst-kruskal.js:14-16 | `n` adds leave `n` ids, each its own root |
| Kruskal.Select | pub/scripts/algorithms/mst-kruskal.js:23-33 | the pop loop keeps the forest well-formed and its size fixed |
| Kruskal.SelectCount | pub/scripts/algorithms/mst-kruskal.js:29-31 | each accepted edge removes one root: accepted edges plus final roots equal the starting roots |
| Kruskal.SelectBound | pub/scripts/algorithms/mst-kruskal.js:23-33 | from `n` singletons at most `n - 1` edges are accepted, and none from none |
| Kruskal.SelectSpans | pub/scripts/algorithms/mst-kruskal.js:23-33 | after the loop the two records of every popped edge share a set |
| Kruskal.SelectNoRepeat | pub/scripts/algorithms/mst-kruskal.js:29-30 | only popped edges are accepted, and of `u -> w` and `w -> u` at most one |
| Kruskal.ConnectedRefl | pub/scripts/algorithms/mst-kruskal.js:29 | every record is connected to itself |
| Kruskal.ConnectedEdge | pub/scripts/algorithms/mst-kruskal.js:30 | an edge connects its two records, in either direction |
| Kruskal.ConnectedTrans | pub/scripts/algorithms/mst-kruskal.js:29-31 | connection by accepted edges is transitive |
| Kruskal.ConnectedMore | pub/scripts/algorithms/mst-kruskal.js:30 | accepting one more edge keeps every connection |
| Kruskal.ConnectedOneSet | pub/scripts/algorithms/mst-kruskal.js:29 | records connected by edges within sets of the forest share a set |
| Kruskal.SolOneSet | pub/scripts/algorithms/mst-kruskal.js:29-31 | the two records of every accepted edge share a set after the loop |
| Kruskal.SelectAcyclic | pub/scripts/algorithms/mst-kruskal.js:29-31 | no accepted edge joins two records the edges accepted before it already connect: the solution is a forest |
| Kruskal.SelectConnects | pub/scripts/algorithms/mst-kruskal.js:29-31 | two known records that end in the same set are connected by the accepted edges |
| Kruskal.LinkJoins | pub/scripts/algorithms/mst-kruskal.js:31 | uniting two roots connects, by the accepted edges plus the new one, every pair newly sharing a set |
| Kruskal.SelectSpansConnected | pub/scripts/algorithms/mst-kruskal.js:23-33 | the accepted edges connect the two records of every popped edge: the solution spans each component |
| Kruskal.PaintSolution | pub/scripts/algorithms/mst-kruskal.js:35-37 | the list after the `forEach` is the original with the accepted edges red |
| Kruskal.Kruskal | pub/scripts/algorithms/mst-kruskal.js:14-44 | keys kept; every record gets its `ds.add` tag, keeps position, style and weights, has its accepted out-edges red and state `""`; the popped items are exactly the stored entries in ascending weight; the solution is the pop loop's choice, acyclic, and on a first run connects the two ends of every stored edge |
| Kruskal.FirstRunApart | pub/scripts/algorithms/mst-kruskal.js:14-16 | on a first run every record gets its own fresh id, so the forest starts with one singleton per record |
| Kruskal.FirstRunSpans | pub/scripts/algorithms/mst-kruskal.js:15-33 | on a first run every stored edge ends up with its two records connected by the accepted edges |
| Kruskal.Reduce | pub/scripts/algorithms/mst-kruskal.js:14-33 | the reduce tags every record, and the pop loop takes out every entry in ascending weight and accepts the loop's choice |
| Kruskal.SolutionStored | pub/scripts/algorithms/mst-kruskal.js:36 | every accepted edge is a stored edge, so `get(e[0])[0].get(e[1])` finds it |
| Kruskal.TaggedTags | pub/scripts/algorithms/mst-kruskal.js:16 | the tags of the tagged list are those `ds.add` gave |
| Kruskal.KruskalRecords | pub/scripts/algorithms/mst-kruskal.js:35-44 | after colouring and the reset every record is the original with its red out-edges, state `""` and its tag |
| Kruskal.ReadyToPop | pub/scripts/algorithms/mst-kruskal.js:15-24 | after the reduce the heap holds the stored entries and every entry is joinable |
| Kruskal.JoinableEntries | pub/scripts/algorithms/mst-kruskal.js:26-29 | on a consistent list the two records of every entry are both known to the fresh set or neither |
| Kruskal.AddAll | pub/scripts/algorithms/mst-kruskal.js:15-21 | the reduce: every record tagged, the set holds one singleton per fresh id, the heap holds exactly the stored entries |
| Kruskal.TaggedNone | pub/scripts/algorithms/mst-kruskal.js:15 | before any add the list is unchanged |
| Kruskal.AddOne | pub/scripts/algorithms/mst-kruskal.js:16-18 | one reduce step moves the list, the set and the heap to the state after one more vertex |
| Kruskal.AddTag | pub/scripts/algorithms/mst-kruskal.js:16 | `ds.add(v[1])` tags one more record and grows the set by its fresh id, if any |
| Kruskal.TaggedToStep | pub/scripts/algorithms/mst-kruskal.js:16 | retagging record `i` gives the list tagged up to `i + 1` |
| Kruskal.EntriesNext | pub/scripts/algorithms/mst-kruskal.js:18 | the entries of one more vertex are its edge Map's items |
| Kruskal.TagAfter | pub/scripts/algorithms/mst-kruskal.js:16 | what `add` answers is the record's new tag, and the forest grows by one singleton exactly for a fresh record |
| Kruskal.PopLoop | pub/scripts/algorithms/mst-kruskal.js:23-33 | the `while` loop takes out every item, in ascending weight, and accepts exactly the loop's choice |
| Kruskal.PopStep | pub/scripts/algorithms/mst-kruskal.js:25-32 | one pass pops the lightest item and accepts it exactly when its records are not connected |
| Kruskal.SelectSnoc | pub/scripts/algorithms/mst-kruskal.js:29-31 | one more popped edge is accepted exactly when its two roots differ, and then the roots are linked |
| Kruskal.PopOrder | pub/scripts/algorithms/mst-kruskal.js:25 | popping the minimum keeps the popped sequence ascending and below everything left |
| Prim.Marks | pub/graph-lib.js:656-685 | marking changes only state slots: `[Infinity, u]` for a marked vertex, `[Infinity, null]` otherwise |
| Prim.MarkStep | pub/graph-lib.js:685 | marking one more vertex of the coloured list is adding it to the marked set |
| Prim.FreshFacts | pub/graph-lib.js:686-693 | the items pushed for a newly marked vertex leave it for unmarked targets, every unmarked target once, with its weight |
| Prim.FreshSameWeights | pub/graph-lib.js:686-693 | only the weights of the entries matter to the pushed items |
| Prim.RunSnoc | pub/graph-lib.js:666-695 | the fold over popped items and the lightest-item condition extend one item at a time |
| Prim.StartSane | pub/graph-lib.js:656-665 | after the root's pushes nothing is marked or accepted and the heap holds the root's entries |
| Prim.StepSane | pub/graph-lib.js:667-694 | one pass keeps: marked vertices named and known, one accepted item per marked vertex, heap items stored |
| Prim.RunSane | pub/graph-lib.js:666-695 | the whole loop keeps that invariant |
| Prim.SolBound | pub/graph-lib.js:677-678 | exactly one item is accepted per marked vertex, at most one per vertex, and every accepted item is a stored edge |
| Prim.StepGrown | pub/graph-lib.js:677-693 | one pass keeps the marked vertices and heap items reachable from the root |
| Prim.RunGrown | pub/graph-lib.js:666-695 | the whole loop keeps that |
| Prim.MarkedReachable | pub/graph-lib.js:660-695 | only vertices reachable from the root are marked |
| Prim.StepFrontier | pub/graph-lib.js:667-694 | one pass keeps: an out-edge of a marked vertex ends at a marked vertex, at `""`, or has its item on the heap |
| Prim.FrontierOld | pub/graph-lib.js:667-694 | an out-edge of a vertex marked earlier keeps its item on the heap unless its target is now marked |
| Prim.FrontierNew | pub/graph-lib.js:686-693 | an out-edge of the vertex just marked is pushed unless its target is marked |
| Prim.RunFrontier | pub/graph-lib.js:666-695 | the whole loop keeps the frontier |
| Prim.DrainedClosed | pub/graph-lib.js:666-695 | once the heap is empty every out-edge of a marked vertex ends at a marked vertex or at `""` |
| Prim.RootMarked | pub/graph-lib.js:667-685 | the first item popped leaves the unmarked root, which is then marked |
| Prim.RootOutEdges | pub/graph-lib.js:663-666 | nothing is popped exactly when the root has no out-edges, and then nothing is accepted |
| Prim.PoppedPrefix | pub/graph-lib.js:666-695 | every prefix of a run is a run |
| Prim.MarkedIsReach | pub/graph-lib.js:660-695 | with no vertex named `""` and a root with an out-edge, the marked set is exactly the set reachable from the root |
| Prim.PoppedAt | pub/graph-lib.js:667 | item `k` left the heap as one of the lightest of the run before it |
| Prim.OneEdgeTwice | pub/graph-lib.js:670-693 | on the one-edge graph `r -> a` the item is accepted twice: once marking the root, once, pushed again, marking `a` |
| Prim.AcceptedTwice | pub/graph-lib.js:670-693 | the same for any graph whose only edge is `r -> a` |
| Prim.Prim | pub/graph-lib.js:643-701 | `None` exactly for an empty list; otherwise the popped items are a complete run each leaving the heap as one of its lightest, the solution is the run's, keys are kept and every record is the original with its accepted out-edges red and state `""` |
| Prim.PrimRecords | pub/graph-lib.js:681-697 | after colouring and the reset every record is the original with its red out-edges and state `""` |
| Prim.PrimLoop | pub/graph-lib.js:666-695 | the loop ends with an empty heap, the popped items a run and the list its picture |
| Prim.PrimStep | pub/graph-lib.js:667-694 | one pass pops one of the lightest items and accepts or drops it as the run does |
| Prim.PopIsMin | pub/graph-lib.js:667 | what `pop` answers is one of the lightest items and leaves the rest |
| Prim.PoppedEnds | pub/graph-lib.js:667-675 | a heap item is a stored edge whose ends are known, and the marker test is membership in the marked set |
| Prim.StepDrop | pub/graph-lib.js:677 | a dropped item changes only the heap |
| Prim.StepAccept | pub/graph-lib.js:677-693 | an accepted item marks a new vertex, colours its edge and pushes its unmarked entries |
| Prim.MeasureDrops | pub/graph-lib.js:685 | marking one more vertex shrinks the unmarked set |
| Prim.Accept | pub/graph-lib.js:678-693 | colour, mark, and push the new vertex's entries towards unmarked targets |
| Prim.AcceptGraph | pub/graph-lib.js:681-685 | colouring then marking gives the next picture |
| Prim.PictureFacts | pub/graph-lib.js:686-693 | on the picture the marker tests read the marked set and the entries are the original ones |
| LegacyGraph.Grown | src/graph.js:39 | `Map.prototype.set` on a new key appends it, so distinct keys stay distinct |
| LegacyGraph.WithVertex | src/graph.js:55-57 | `createNewVertex` unless present: exactly the name is added |
| LegacyGraph.WithEdge | src/graph.js:68 | setting a weight keeps the keys and the vertex set |
| LegacyGraph.WithTarget | src/graph.js:61-68 | one `[target, weight]`: the target is added if absent and nothing else is |
| LegacyGraph.WithTargets | src/graph.js:60-69 | after a source's pairs the source is still a vertex |
| LegacyGraph.TargetFixed | src/graph.js:61-68 | a pair whose edge is already there with its weight changes nothing |
| LegacyGraph.TargetsFixed | src/graph.js:60-69 | targets that already hold change nothing |
| LegacyGraph.PopulatedFixed | src/graph.js:53-70 | data that already holds leaves the list as it is, whatever the random draws |
| LegacyGraph.EntryFixed | src/graph.js:53-70 | one property that already holds changes nothing |
| LegacyGraph.TargetHolds | src/graph.js:61-68 | one pair sets its edge and touches no other edge |
| LegacyGraph.TargetsHold | src/graph.js:60-69 | after a source's distinct pairs each of them is an edge with its weight |
| LegacyGraph.TargetStep | src/graph.js:60-69 | the earlier pairs survive a later one with a different target |
| LegacyGraph.EntryHolds | src/graph.js:53-70 | a property with distinct targets holds once loaded |
| LegacyGraph.PopulatedHolds | src/graph.js:53-70 | after data without repeats every property holds |
| LegacyGraph.EntriesStep | src/graph.js:53-70 | one more property loaded keeps the earlier ones |
| LegacyGraph.HoldsStep | src/graph.js:53-70 | the earlier properties survive a later one from another source |
| LegacyGraph.AllHold | src/graph.js:53-70 | all properties hold once loaded |
| LegacyGraph.PopulateTwice | src/graph.js:12-71 | loading the example data a second time changes nothing |
| LegacyGraph.TargetKeys | src/graph.js:63-65 | a new target name goes last in key order |
| LegacyGraph.TargetsKeys | src/graph.js:60-69 | a source's targets order the keys by first appearance |
| LegacyGraph.PopulatedKeys | src/graph.js:53-70 | loading keeps the list well formed and orders its keys by first appearance in the data |
| LegacyGraph.EntryKeys | src/graph.js:55-69 | one property: its source, then its targets, each name going last when new |
| LegacyGraph.TargetsKeep | src/graph.js:60-69 | adding targets never drops a key |
| LegacyGraph.AllKeep | src/graph.js:53-70 | loading never drops a key |
| LegacyGraph.VertexKeys | src/graph.js:55-57 | a new vertex goes last in key order |
| LegacyGraph.ExampleKeys | src/graph.js:12-18 | the first appearances in the example data are a, b, d, e, f, c |
| LegacyGraph.SecondKeys | src/graph.js:14 | the second property adds only c |
| LegacyGraph.FirstKeys | src/graph.js:13 | the first property gives a, b, d, e, f |
| LegacyGraph.TargetAt | src/graph.js:38-65 | a pair leaves an existing vertex where it was and places a new one at its draw |
| LegacyGraph.TargetEdge | src/graph.js:68 | a pair adds the edge it names and no other |
| LegacyGraph.TargetsHave | src/graph.js:60-69 | adding targets never removes a vertex |
| LegacyGraph.PopulatedHas | src/graph.js:53-70 | loading never removes a vertex |
| LegacyGraph.TargetsAt | src/graph.js:60-69 | a source's targets leave existing vertices where they were and new ones at their draws |
| LegacyGraph.TargetsEdge | src/graph.js:60-69 | a source's targets add only the edges they list |
| LegacyGraph.EntryAt | src/graph.js:53-70 | one property leaves existing vertices in place and new ones at their draws |
| LegacyGraph.EntryEdge | src/graph.js:53-70 | one property adds only the edges it lists |
| LegacyGraph.PopulatedAt | src/graph.js:38-70 | loading leaves existing vertices in place and places each new one at its draw |
| LegacyGraph.PopulatedEdge | src/graph.js:53-70 | loading adds only the edges the data lists |
| LegacyGraph.PopulateFromEmpty | src/graph.js:12-71 | into an empty list the data gives the keys a, b, d, e, f, c in that order, exactly the listed edges with their weights, and every vertex at its draw |
| LegacyGraph.EmptyKeys | src/graph.js:12-70 | into an empty list the keys are a, b, d, e, f, c |
| LegacyGraph.EmptyHolds | src/graph.js:12-70 | into an empty list every listed edge holds |
| LegacyGraph.EmptyEdges | src/graph.js:12-70 | into an empty list there is no other edge |
| LegacyGraph.EmptyAt | src/graph.js:38-70 | into an empty list every vertex is at its draw |
| LegacyGraph.Clamp | src/graph.js:75-85 | below 0 becomes 0, above 800 becomes 760, anything in [0, 800] is kept |
| LegacyGraph.Clamped | src/graph.js:74-85 | the correction changes only positions |
| LegacyGraph.ClampedFacts | src/graph.js:74-85 | after `drawAll` every vertex lies in [0, 800] x [0, 800], a vertex already there stays, and correcting again changes nothing |
| LegacyGraph.ClampedStep | src/graph.js:74-85 | the loop over entries corrects one more record per pass |
| LegacyGraph.ClampedAll | src/graph.js:74-85 | after every pass the list is the corrected one |
| LegacyGraph.Arranged | src/graph.js:97 | the layout moves vertices and changes neither keys nor edges |
| LegacyGraph.FirstNear | src/graph.js:105-115 | `matching[0]`: a vertex within 20 of the position on both axes with none before it in key order; none exactly when no vertex is that near |
| LegacyGraph.NearShift | src/graph.js:106-114 | the filter's scan: not near at the head and none near before `i` in the tail means none near before `i + 1` |
| LegacyGraph.Graph.constructor | src/graph.js:32-36 | an empty list, `stable` false, no active vertex |
| LegacyGraph.Graph.CreateNewVertex | src/graph.js:38-44 | sets the name to a record with no edges at the drawn pair, replacing any earlier one |
| LegacyGraph.Graph.PopulateAdjListFromJSObject | src/graph.js:45-71 | the list is the example data loaded into the old one; flags unchanged |
| LegacyGraph.Graph.AddEntry | src/graph.js:53-70 | one property of the data loaded |
| LegacyGraph.Graph.AddVertex | src/graph.js:55-65 | a vertex created only when absent |
| LegacyGraph.Graph.AddTargets | src/graph.js:60-69 | a source's pairs loaded in order |
| LegacyGraph.Graph.AddTarget | src/graph.js:61-68 | one pair loaded |
| LegacyGraph.Graph.DrawAll | src/graph.js:73-93 | every stored coordinate corrected in key order; flags unchanged |
| LegacyGraph.Graph.DrawToCanvas | src/graph.js:95-103 | the layout runs only while not `stable`; afterwards `stable` is set and positions are corrected |
| LegacyGraph.Graph.SelectActiveNode | src/graph.js:105-116 | the active vertex becomes the first near one, or none |
| LegacyGraph.Graph.MoveNode | src/graph.js:118-123 | with an active vertex, exactly its position changes; without one nothing changes |
| LegacyGraph.Graph.DeselectActiveNode | src/graph.js:125-127 | no active vertex afterwards; nothing else changes |
| LegacySearch.Explore | src/algorithms/bfs.js:27-31 | the record then ends with "explored" |
| LegacySearch.ExploreFacts | src/algorithms/bfs.js:27-31 | marking twice is marking once; on the source "explored" takes the place of "visited"; a marked record keeps its length and all but its last element |
| LegacySearch.Visit | src/algorithms/bfs.js:5-7 | only the source's record grows, by "visited" |
| LegacySearch.Restyled | src/algorithms/bfs.js:17-25 | the searches change only styles |
| LegacySearch.PaintFacts | src/algorithms/bfs.js:17-25 | the paint sets `edgeColor` and `vertexBorderColor` when asked and touches no other property |
| LegacySearch.PaintAgain | src/algorithms/bfs.js:17-25 | a later write replaces the earlier one of the same property |
| LegacySearch.StartParts | src/algorithms/bfs.js:5-7 | before the loop only the source is queued and nothing is done |
| LegacySearch.WorkTake | src/algorithms/bfs.js:16 | taking a vertex off keeps the worklist reachable |
| LegacySearch.FringeTake | src/algorithms/bfs.js:16 | taking a vertex off keeps every out-neighbour of a done vertex covered |
| LegacySearch.WorkGrow | src/algorithms/bfs.js:20 | adding a reachable vertex keeps the worklist reachable |
| LegacySearch.FringeGrow | src/algorithms/bfs.js:20 | adding to the worklist keeps the fringe |
| LegacySearch.TailsExplore | src/algorithms/bfs.js:27-31 | marking the vertex taken off "explored" keeps the record invariant |
| LegacySearch.WorkRelease | src/algorithms/bfs.js:27-31 | the vertex is done once its round ends |
| LegacySearch.FringeRelease | src/algorithms/bfs.js:18-31 | with all its out-neighbours queued, the vertex can be done without breaking the fringe |
| LegacySearch.DoneIsReachable | src/algorithms/bfs.js:15-32 | with an empty worklist the done vertices are exactly the reachable ones |
| LegacySearch.BfsStart | src/algorithms/bfs.js:5-7 | the state before the loop meets the loop invariant |
| LegacySearch.BfsStylesTake | src/algorithms/bfs.js:17 | a dequeued vertex's `edgeColor` becomes "blue" |
| LegacySearch.LiveTake | src/algorithms/bfs.js:16 | a reachable cycle stays reachable from the queue or the vertex taken off |
| LegacySearch.BfsStylesBlue | src/algorithms/bfs.js:21 | the front of the queue gets a blue border |
| LegacySearch.LiveGrow | src/algorithms/bfs.js:20 | enqueueing keeps a reachable cycle reachable from the queue |
| LegacySearch.BfsStylesRelease | src/algorithms/bfs.js:25 | at the end of its round a vertex's `edgeColor` becomes "black" |
| LegacySearch.LiveRelease | src/algorithms/bfs.js:18-24 | once all its out-neighbours are queued, a cycle reachable from the vertex is reachable from the queue |
| LegacySearch.Bfs | src/algorithms/bfs.js:1-33 | a missing source throws the message and changes nothing; otherwise it never throws; only styles and tails change, and only on reachable vertices; each tail is the one after the visit, possibly marked "explored"; colours change only to "black" edge and blue border; a finished run has every reachable vertex explored and black; from a source that reaches a cycle the run never finishes; the ghost dequeues replay the queue (`QueueAfter`), the run is finished exactly when that replay leaves it empty and one still running has used all its fuel, and the records and styles are exactly those the dequeues leave: explored and black on them, a blue border on the front after each enqueue |
| LegacySearch.BfsFrom | src/algorithms/bfs.js:12-32 | the search from a source in the graph, with the same promises |
| LegacySearch.QueueNext | src/algorithms/bfs.js:16-21 | one more dequeue, of the front: the queue loses it and gains every out-neighbour in key order, and the borders gain the front after each enqueue |
| LegacySearch.QueuePrefix | src/algorithms/bfs.js:15-32 | every prefix of a replay that succeeds succeeds |
| LegacySearch.QueueFront | src/algorithms/bfs.js:15-16 | each dequeue takes the front of the queue the dequeues before it leave |
| LegacySearch.QueueSame | src/algorithms/bfs.js:15-32 | two replays that succeed agree on their common length |
| LegacySearch.QueueUnique | src/algorithms/bfs.js:15-32 | only one sequence of dequeues empties the queue |
| LegacySearch.TailsAre | src/algorithms/bfs.js:27-31 | the records are those the dequeues leave: each dequeued vertex marked "explored", every other one as after the visit |
| LegacySearch.BfsPainted | src/algorithms/bfs.js:17-25 | the styles are the original ones with "black" edges on the dequeued vertices and blue borders on the fronts collected |
| LegacySearch.BfsEnds | src/algorithms/bfs.js:15-32 | what a stopped loop leaves: the same facts, and an empty queue means every reachable vertex explored and black |
| LegacySearch.BfsEndStyles | src/algorithms/bfs.js:15-32 | a stopped loop leaves only the two colours changed, unreachable styles intact and every done vertex black |
| LegacySearch.BfsLoop | src/algorithms/bfs.js:15-32 | the loop, for at most `fuel` rounds, keeps the invariant and reports finished exactly when the queue is empty |
| LegacySearch.BfsRound | src/algorithms/bfs.js:16-31 | one round keeps the invariant |
| LegacySearch.BfsNeighbours | src/algorithms/bfs.js:18-24 | the queue gains every out-neighbour, in key order and whatever its mark, and the borders gain the front of the queue after each enqueue; every out-neighbour is then queued |
| LegacySearch.BfsEnqueue | src/algorithms/bfs.js:18-24 | one turn of the `for`: the next key is enqueued and the border set gains the new front |
| LegacySearch.FrontStep | src/algorithms/bfs.js:20-21 | one more key enqueued extends the queue by it and the borders by the front of the longer queue |
| LegacySearch.BfsVisit | src/algorithms/bfs.js:19-21 | one neighbour enqueued unconditionally; exactly the front of the queue gets a blue border, and no other style changes |
| LegacySearch.DfsStart | src/algorithms/dfs.js:5-7 | the state before the loop meets the loop invariant |
| LegacySearch.DfsStylesTake | src/algorithms/dfs.js:18 | a popped vertex's `edgeColor` becomes "red" |
| LegacySearch.DfsStylesBlue | src/algorithms/dfs.js:28 | a pushed vertex gets a blue border |
| LegacySearch.DfsStylesRelease | src/algorithms/dfs.js:32 | the end of a round leaves the colours alone (the black write is commented out) |
| LegacySearch.UnexploredExplore | src/algorithms/dfs.js:35-39 | marking the popped vertex "explored" removes it from the unexplored set |
| LegacySearch.DfsCovered | src/algorithms/dfs.js:23-25 | a skipped neighbour is done or the source, which is then done or on the stack |
| LegacySearch.Dfs | src/algorithms/dfs.js:1-41 | a missing source throws the message and changes nothing; otherwise it always finishes; only styles and tails change, and only on reachable vertices; the source's record ends with "explored" written over its "visited"; colours change only to red edge and blue border; from unmarked records a record ends "explored" exactly when its vertex is reachable, and then it is red; the ghost pops replay the stack to empty (`Replay`, each pop pushing the neighbours neither marked at the start nor popped before, in key order), and the records and styles are exactly those the pops leave: explored and red on them, a blue border on each vertex they push |
| LegacySearch.DfsFrom | src/algorithms/dfs.js:12-40 | the search from a source in the graph, with the same promises |
| LegacySearch.DfsEnd | src/algorithms/dfs.js:15-40 | an empty stack leaves the records and styles the pops determine, and the facts of `Dfs` |
| LegacySearch.MarksOfTails | src/algorithms/dfs.js:23 | a record ends with a mark exactly when it did after the visit or its vertex has been popped |
| LegacySearch.UnvisitedIsUnmarked | src/algorithms/dfs.js:20-27 | the neighbours pushed, those whose record ends with no mark, are those neither marked at the start nor popped before |
| LegacySearch.StackNext | src/algorithms/dfs.js:16-28 | one more pop, of the top: the stack loses it and gains the unmarked out-neighbours in key order, and the pushed set gains them |
| LegacySearch.TraceStep | src/algorithms/dfs.js:16-39 | one round keeps the stack, the done vertices and the borders those the replay of the pops gives |
| LegacySearch.DfsPainted | src/algorithms/dfs.js:18-28 | the styles are the original ones with red edges on the popped vertices and blue borders on the pushed ones |
| LegacySearch.DfsEndStyles | src/algorithms/dfs.js:15-40 | an empty stack leaves only the two colours changed, unreachable styles intact and every done vertex red |
| LegacySearch.DfsEndTails | src/algorithms/dfs.js:15-40 | an empty stack leaves the source explored, unreachable tails intact and, from unmarked records, the done set equal to the reachable set |
| LegacySearch.DfsLoop | src/algorithms/dfs.js:15-40 | the loop ends with an empty stack and the invariant kept |
| LegacySearch.DfsRound | src/algorithms/dfs.js:16-39 | one round keeps the invariant and lowers the termination measure |
| LegacySearch.DfsNeighbours | src/algorithms/dfs.js:20-31 | the stack gains exactly the out-neighbours whose record ends with no mark, in key order, and exactly those join the borders; from unmarked records every out-neighbour ends done, on the stack or the popped vertex |
| LegacySearch.DfsExamine | src/algorithms/dfs.js:20-31 | one turn of the `for`: the next key is pushed and joins the borders exactly when its record ends with no mark |
| LegacySearch.PushedNone | src/algorithms/dfs.js:20 | before the `for` nothing is pushed |
| LegacySearch.PushedStep | src/algorithms/dfs.js:20-31 | one more key examined extends the pushed list and the borders exactly when its record ends with no mark |
| LegacySearch.ExaminedStep | src/algorithms/dfs.js:20-31 | one more neighbour examined keeps the earlier ones covered |
| LegacySearch.DfsVisit | src/algorithms/dfs.js:21-30 | one neighbour: pushed and added to the borders exactly when its record ends with no mark, otherwise the stack and borders are unchanged; the earlier stack entries stay |
| SearchExamples.DfsForkLog | pub/scripts/algorithms/dfs.js:29-31 | a source with two leaf neighbours is logged once per neighbour; the leaves log nothing |
| SearchExamples.DfsForkOrder | pub/scripts/algorithms/dfs.js:26-42 | out-neighbours `b`, `c` of the source: `c`, pushed last, is popped first; the pops are `a, c, b` and the log `a, a` |
| SearchExamples.DfsChainLog | pub/scripts/algorithms/dfs.js:29-31 | along the chain `a`, `b`, `c` the log is `a, b` |
| SearchExamples.DfsChainOrder | pub/scripts/algorithms/dfs.js:26-42 | a chain is popped along it: `a, b, c` |
| SearchExamples.DfsRepopLog | pub/scripts/algorithms/dfs.js:29-31 | a vertex popped twice is logged twice |
| SearchExamples.DfsRepopOrder | pub/scripts/algorithms/dfs.js:26-42 | pushing does not mark: with `a` to `b`, `c`, `c` to `b` and `b` to `a`, `b` is pushed and popped twice; the pops are `a, c, b, b` |
| SearchExamples.BfsForkLog | pub/scripts/algorithms/bfs.js:30-34 | each dequeue logs the vertex, then its neighbours: `a, b, c, b, c` |
| SearchExamples.BfsForkOrder | pub/scripts/algorithms/bfs.js:28-41 | out-neighbours `b`, `c` of the source are dequeued in insertion order, and only `b`, the front after `a`'s enqueues, gets a blue border |
| SearchExamples.BfsTwiceLog | pub/scripts/algorithms/bfs.js:30-34 | with `c` queued twice the log is `a, b, c, b, c, c, c` |
| SearchExamples.BfsTwiceOrder | pub/scripts/algorithms/bfs.js:28-41 | enqueueing does not mark: with `a` to `b`, `c` and `b` to `c`, `c` is dequeued twice; the borders painted are `b` and `c` |
| SearchExamples.LegacyBfsForkOrder | src/algorithms/bfs.js:15-32 | the older `bfs` on the fork dequeues `a, b, c`, and only `b` gets a blue border: it stays the front while `c` is queued |
| SearchExamples.LegacyDfsForkOrder | src/algorithms/dfs.js:15-40 | the older `dfs` on the fork from unmarked records pops `a, c, b`, and both `b` and `c` get blue borders |

## Left out

- Kruskal.Kruskal: the total weight of the accepted edges is not proved minimal among the spanning forests of the stored edges. The contract states the ingredients of that argument: the edges leave the heap in ascending weight, an edge is accepted exactly when its records are not yet connected, the solution is acyclic and, on a first run, connects the two ends of every stored edge. The exchange argument is not carried out.
- Kruskal.Kruskal: the requires `Consistent` excludes an edge between a record that an earlier run tagged and one added since. On such a list the fresh disjoint set knows only the new record. In the source, `union` then reads `_size[undefined]`, and either writes `_relations[undefined]` or hangs a real root under `undefined` (pub/graph-lib.js:903-917). That corrupted forest is not modelled. A first run, or a rerun with no vertex added, meets the requires (`UniformIsConsistent`).
- UnionFind.DisjointSet.Union: the requires asks that both values be registered or both unregistered. A union of one registered and one unregistered value is the same `undefined` slot case and is not modelled.
- BreadthFirst.Bfs: the order of first dequeues by edge-count distance from the source is not stated. The dequeue order is fixed exactly, as the unique replay of the queue (`Replay`, `ReplayUnique`), but no lemma relates it to a distance function.
- LegacySearch.Bfs: the loop is followed for at most `fuel` rounds, and a run still going then ends `Running`. This stands in for a loop that can run forever. A reachable cycle is proved to keep it running for any fuel. The converse is not proved: that with no reachable cycle some fuel reaches `Finished`.
- LegacySearch.Bfs / LegacySearch.Dfs: both are modelled on records that hold a style in slot 3, `[edges, x, y, style]`, the shape these searches index. The records src/graph.js builds have three slots (src/graph.js:39-43). On those, the source's "visited" lands in slot 3, so the writes to the source's own style go to that string. The first write to a neighbour's style then throws a TypeError (src/algorithms/bfs.js:21, src/algorithms/dfs.js:28). That failing run is not modelled.
- Edge weights and positions are `int`. JavaScript numbers can be fractional in positions and weights, and the clamp and pan arithmetic is exact here.
- PriorityQueue.TinyQueue: the comparator is narrowed to the difference of an integer key, `key(a) - key(b)`. This covers both comparators the core passes (`e1[2] - e2[2]`) and the sign of `defaultCompare` on numbers. General comparators and `defaultCompare` on other values are not modelled.
- Values.ToLower: only ASCII `A`-`Z` are lowered. `toLowerCase` folds all of Unicode.
- In-place updates to records, style objects and edge `Map`s are value updates. A list such as `styledVertices` holds vertex names rather than references to records. The model therefore holds no aliases: in the source, a record replaced by the older `createNewVertex` while `activeNode` still refers to it is detached, whereas the model's active name follows the new record.
- Canvas drawing (`redrawAll`, `drawEdge`, `drawVertex`, `drawAll`'s drawing loop), `sleep` and every `await` are left out. A run is one uninterrupted call, so a mousedown cannot interleave with a running algorithm.
- The force-directed layout `eades` (floating point) is not modelled. Its moves are a parameter of the older `drawToCanvas`, and the newer `drawToCanvas` clamps without it.
- `updateCanvasSize` and the window resize listener are not modelled: they rescale positions by floating-point ratios.
- The DOM wiring is not modelled: `addControls`, `addEventListener` and the algorithm entries. The handler bodies are the methods `MouseDown`, `MouseMove`, `MouseUp` and `Click`.
- `Math.random` is not modelled. The coordinates it would give are parameters, constrained to the range the source draws from; a name the older populate was given no draw for lands at (0, 0).
- The disjoint set's primitive-value mode is not modelled, nor the caching of `_isPrimitive`'s first answer. Only object handles are used by the core.
- `delete v[5]` at the end of Kruskal's run removes nothing, because a record has five slots. The model keeps the disjoint-set tags on the records.
- The older `populateAdjListFromJSObject` throws when its data is not an object (src/graph.js:49-51). The data is the hard-coded constant, so that branch can never be taken and has no counterpart.
- The copies of the `Graph` class, `bfs`, `dfs` and `mstkruskal` in pub/graph-lib.js:19-642 are not modelled separately; the model follows the files under pub/scripts. That includes the copy's BFS, which colours the examined edge. The dispatch's `mstprim` is the runner defined in pub/graph-lib.js:643-701.
- The older searches redraw through a global `g`; the model searches the graph passed in.
