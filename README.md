# Step-function visualizer: correlator and diagram compiler

This project models the core of a small viewer for state-machine executions.
It has two parts:

- The **correlator** (`src/history.ts`). It walks an execution's event log
  and derives the status, input and output of a state, given by name.
- The **diagram compiler** (`src/visualize.ts`). It turns a state-machine
  definition into Mermaid flowchart text. With a history present, it
  colours each node by that state's status.

There are three modules.

- `Definitions` (`definitions.dfy`) holds the datatypes of
  `src/statemachine.ts` that the core reads:
  - a definition: its start name and its states in key order;
  - the five state variants Pass, Task, Parallel, Map and Choice;
  - choice rules;
  - execution events and their detail payloads.
- `Correlator` (`correlator.dfy`) holds the specification functions over a
  log, and the class `History`, whose loop methods are proved against them:
  - tag classification;
  - the lookups by id and by predecessor id;
  - the backward walk to an Entered event and the forward walk to an
    Exited event;
  - the details pass, as a left fold `After`.
- `Compiler` (`compiler.dfy`) holds a pure specification of the emitted text
  and the imperative compiler, proved equal to it:
  - The specification is `GraphOut`, `StatesFrom`, `EntryOut`, `NodeOut` and
    `BranchesFrom`. They thread a value `CtxState` that stands for the
    context's counter and registry.
  - The imperative side is the class `Context` with its mutable counter and
    registry, and the methods `StepFunctionToMermaid`,
    `ConvertStepFunction`, `ConvertNode` and `ConvertChoice`.

The lemmas about the specification prove:

- Every graph takes exactly one frame number.
- Node ids of different frames never collide.
- After the whole definition is converted, every state of every graph of
  the tree is registered under its namespaced id. A conversion touches only
  its own frame and the frames it allocates, so later conversions never
  disturb what earlier ones registered.
- Choice targets are de-duplicated in order of first occurrence.
- The flowchart starts with its header and the start node.
- The status is `neverrun` exactly when nothing touches the name.
- A failure of the name is final.
- Otherwise the last event attributed to the name wins.

Compilation is deterministic. `StepFunctionToMermaid` returns exactly
`MermaidText(history, definition)`, a function of its inputs, so two
compilations of one definition with fresh contexts produce the same text.

Two behaviours of the code are easy to misread:

- **The failure short-circuit stops only the pass for the queried name.**
  `getDetails` (`src/history.ts:119-131`) returns early only when the
  failing construct's Entered ancestor has the queried name. A failure of
  any other state changes nothing for that name (`UntouchedStepKeeps`).
  Each call of `getDetails` is an independent pass, so nothing carries
  over between queries for different names.
- **A Choice state gets its node line anyway.** `convertNode` emits
  only the edges of a Choice state. `convertStepFunction` then adds a node
  line for every state, a Choice included, and for Pass and Task states
  this draws the node a second time. The model emits both lines, as the
  code does.

## Model

| member | source | states |
|---|---|---|
| Correlator.History.constructor | src/history.ts:19 | the history holds exactly the given events, which no method changes |
| Correlator.History.GetById | src/history.ts:21-27 | the result is the first event of the log with the given id, or none when no event has it |
| Correlator.History.GetByPreviousId | src/history.ts:29-35 | the result is the first event whose predecessor id is the given id, or none |
| Correlator.IndexById | src/history.ts:21-27 | a found index holds the id and no earlier event holds it; none means no event of the log holds it |
| Correlator.IndexByPreviousId | src/history.ts:29-35 | the same for the predecessor id |
| Correlator.FindById | src/history.ts:21-27 | a found event is a member of the log with the requested id |
| Correlator.FindByPreviousId | src/history.ts:29-35 | a found event is a member of the log whose predecessor is the requested id |
| Correlator.PredecessorRanksLower | src/history.ts:52 | under ordered chains, the predecessor an event resolves to sits strictly earlier in the log, so the backward walk ends |
| Correlator.SuccessorRanksLower | src/history.ts:70 | the first successor an event resolves to sits strictly later in the log, so the forward walk ends |
| Correlator.InputEvent | src/history.ts:37-53 | no event gives none; a result is a log member carrying an Entered tag of the filtered category, at or before the start event |
| Correlator.OutputEvent | src/history.ts:55-71 | no event gives none; a result is a log member carrying an Exited tag of the filtered category, at or after the start event |
| Correlator.Ancestry | src/history.ts:52 | the backward chain starts at the event, each link is the predecessor the id lookup resolves, and it ends where a link resolves to nothing |
| Correlator.Descendants | src/history.ts:70 | the forward chain starts at the event, each link is the first successor, and it ends where no event names the last one |
| Correlator.FirstEntered | src/history.ts:40-50 | the first chain element with a matching Entered tag; none means no element matches |
| Correlator.FirstExited | src/history.ts:58-68 | the first chain element with a matching Exited tag; none means no element matches |
| Correlator.InputEventIsFirstOnAncestry | src/history.ts:37-53 | the backward walk returns the first matching event of the event's backward chain |
| Correlator.OutputEventIsFirstOnDescendants | src/history.ts:55-71 | the forward walk returns the first matching event of the event's forward chain |
| Correlator.EnteredMatchesTags | src/history.ts:40-49 | the Entered filter holds exactly when one of the eight tag comparisons of the source holds, both directions |
| Correlator.ExitedMatchesTags | src/history.ts:58-67 | the Exited filter holds exactly when one of the eight tag comparisons of the source holds, both directions |
| Correlator.GetType | src/history.ts:73-85 | a found category's prefix starts the tag, and none means no category prefix starts it; `GetTypeIsPrefixCategory` and `GetTypeOfUncategorized` state the rest |
| Correlator.FirstPrefixed | src/history.ts:76-84 | a found category carries a prefix of the tag; none means no category in the order does |
| Correlator.GetTypeIsPrefixCategory | src/history.ts:73-85 | `GetType(tag)` is category `t` exactly when the tag starts with `t`'s prefix, so the order of the tests never matters |
| Correlator.GetTypeOfStateTags | src/history.ts:73-85 | every Entered and every Exited tag is classified as its own category |
| Correlator.GetTypeOfUncategorized | src/history.ts:73-85 | tags starting `LambdaFunction` or `Execution` get no category, so their walks run unfiltered |
| Correlator.PrefixesExclusive | src/history.ts:76-83 | no tag starts with two different category prefixes |
| Correlator.EnteredTag | src/history.ts:41-48 | each category's Entered tag starts with the category's prefix |
| Correlator.ExitedTag | src/history.ts:59-66 | each category's Exited tag starts with the category's prefix |
| Correlator.ClassifyInverse | src/history.ts:99 | a tag belongs to a named tag class exactly when it equals that class's tag |
| Correlator.TagOfInjective | src/history.ts:99 | distinct tag classes have distinct tag strings |
| Correlator.GetTypeOfClassTag | src/history.ts:107 | the category assigned to each named tag: its own for Entered and Exited tags, parallel for `ParallelStateSucceeded`, none for the Lambda tags |
| Correlator.IsStatusEnteredTags | src/history.ts:99 | a tag marks a state as started exactly when it is one of the five Entered tags the source lists |
| Correlator.IsCompletionTags | src/history.ts:106 | a tag is a completion exactly when it is one of the five tags the source lists |
| Correlator.IsFailureTag | src/history.ts:119 | the only failure tag is `LambdaFunctionFailed` |
| Correlator.CorrelatableAt | src/history.ts:100-128 | in a well-formed log every event carries the payload its tag promises and every completion or failure resolves to an Entered ancestor |
| Correlator.Ancestor | src/history.ts:108 | the resolved ancestor of a completion or failure is an Entered event of its category that carries a name and an input |
| Correlator.Descendant | src/history.ts:109 | a resolved descendant is an Exited event that carries an output |
| Correlator.OnEntered | src/history.ts:99-104 | the first test of an iteration; no contract of its own, `StepTouchedStatus` and `UntouchedStepKeeps` give its meaning |
| Correlator.OnCompletion | src/history.ts:106-117 | the second test of an iteration; no contract of its own, `StepTouchedStatus` and `UntouchedStepKeeps` give its meaning |
| Correlator.Resolved | src/history.ts:110-116 | the details a resolved completion or failure records; no contract of its own, `LastWriterWins` and `FailureIsFinal` give its meaning |
| Correlator.Step | src/history.ts:97-132 | one iteration of the details loop, early return included; no contract of its own, `UntouchedStepKeeps`, `StepStopsAtFailure`, `StepTouchedStatus` and `StepKeepsStarted` give its meaning |
| Correlator.After | src/history.ts:91-136 | the details pass over the first `n` events as a fold of `Step`; no contract of its own, `StoppedIsFailed`, `StoppedIsFinal`, `RunningIffNoFailure` and `LaterUntouchedKeep` give its meaning |
| Correlator.DetailsOf | src/history.ts:91-136 | what the whole details pass returns for a name; no contract of its own, `NeverRunIffUntouched`, `FailureIsFinal` and `LastWriterWins` give its meaning |
| Correlator.History.Visit | src/history.ts:98-132 | one loop iteration turns the fold's state `After(log, name, i)` into `After(log, name, i + 1)` |
| Correlator.History.GetDetails | src/history.ts:91-136 | the result is `DetailsOf(log, name)`, the details the whole fold assigns to the name |
| Correlator.History.GetStatus | src/history.ts:87-89 | the result is the status component of `getDetails` |
| Correlator.UntouchedStepKeeps | src/history.ts:98-132 | an event not attributed to the name, a failure of another state included, leaves the details unchanged and the pass running |
| Correlator.StepStopsAtFailure | src/history.ts:119-131 | an iteration stops the pass exactly at a failure of the name, and then with status `fail` |
| Correlator.StepTouchedStatus | src/history.ts:99-128 | an event attributed to the name sets its status and input as its tag prescribes |
| Correlator.StepKeepsStarted | src/history.ts:98-132 | a status other than `neverrun` never turns back into `neverrun` |
| Correlator.StoppedIsFailed | src/history.ts:125-130 | the pass stops only with status `fail` |
| Correlator.StoppedIsFinal | src/history.ts:130 | after the pass stops, no later event changes the details |
| Correlator.NoFailureBeforeAll | src/history.ts:119-131 | the recursive no-failure prefix predicate agrees with its quantified form, both directions |
| Correlator.RunningIffNoFailure | src/history.ts:119-131 | the pass is running after `n` events exactly when no failure of the name occurs among them |
| Correlator.RunningUnlessFailed | src/history.ts:119-131 | the same, stated with the quantifier over event positions |
| Correlator.UntouchedPrefixNeverRun | src/history.ts:94-96 | without an attributed event the details stay `neverrun` with no input and no output |
| Correlator.TouchedNeverRunsAgain | src/history.ts:99-128 | after an attributed event the status is never `neverrun` |
| Correlator.NeverRunIffUntouched | src/history.ts:91-136 | the status is `neverrun` exactly when no event is attributed to the name, and then input and output are absent |
| Correlator.FailureIsFinal | src/history.ts:119-131 | the first failure of the name fixes the result: status `fail` with the failed construct's input, unchanged by any later event |
| Correlator.LastWriterWins | src/history.ts:97-133 | with no earlier failure, the last attributed event decides the status and the input; for a completion or failure the output is its Exited descendant's output when one is found, and otherwise the earlier output is kept |
| Correlator.LaterUntouchedKeep | src/history.ts:97-133 | events not attributed to the name keep details and progress from position `i` on |
| Compiler.Fill | src/visualize.ts:4-9 | the colour of each status; it has no contract of its own, and `FillInjective` gives its meaning |
| Compiler.FillInjective | src/visualize.ts:4-9 | the four statuses have four different colours |
| Compiler.StartBrace | src/visualize.ts:53 | the start-state brackets per frame type; no contract of its own, `ShapeBraceCases` states its cases |
| Compiler.ShapeBrace | src/visualize.ts:59 | the brackets of a node; no contract of its own, `ShapeBraceCases` and `ShapeBraceVariantBlind` state them |
| Compiler.ShapeBraceCases | src/visualize.ts:53-59 | the brackets of a node: square unless it is the start state; a Choice start gets a stadium; otherwise the frame type decides, hexagon inside a Parallel and square at the top level or in a Map |
| Compiler.ShapeBraceVariantBlind | src/visualize.ts:59 | the shape depends only on whether the state is a Choice, not on its other fields |
| Compiler.FrameName | src/visualize.ts:18 | `s` followed by the counter; no contract of its own, `FrameNameInjective` and `FrameNumberOfNodeId` give its meaning |
| Compiler.NodeId | src/visualize.ts:50 | the namespaced id of a key in a frame; no contract of its own, `NodeIdInjective` and `FrameNumberOfNodeId` give its meaning |
| Compiler.NatToString | src/visualize.ts:18 | the frame counter prints as a non-empty string of decimal digits |
| Compiler.ParseNatToString | src/visualize.ts:18 | reading the printed counter back gives the counter |
| Compiler.UpToDashOfJoin | src/visualize.ts:50 | the frame part of a node id is recovered up to its first dash |
| Compiler.FrameNumberOfNodeId | src/visualize.ts:48-50 | the frame number read back from a node id is the number of the frame that made it |
| Compiler.FrameNameInjective | src/visualize.ts:17-19 | different counter values give different frame ids |
| Compiler.NodeIdInjective | src/visualize.ts:48-50 | two node ids are equal exactly when frame and key both are, so frames never collide |
| Compiler.StyleLineCases | src/visualize.ts:61-64 | a fill line is emitted exactly when a history is present, and then it fills the node with the colour of the bare key's status, whatever the frame |
| Compiler.NextLineCases | src/visualize.ts:65-67 | a successor edge is emitted exactly when `Next` is set, and both of its ends are ids of the same frame |
| Compiler.Context.constructor | src/visualize.ts:11-15 | a fresh context has counter 0, an empty registry and the given history |
| Compiler.Context.GetId | src/visualize.ts:17-19 | returns the frame id of the current counter and advances the counter by one, leaving the registry alone |
| Compiler.Context.RegisterState | src/visualize.ts:21-23 | the registry maps the id to the state, every other entry is unchanged, and so is the counter |
| Compiler.Quote | src/visualize.ts:60 | the JSON string literal of a key; no contract of its own, it stands for `JSON.stringify` of a name that needs no escapes |
| Compiler.Push | src/visualize.ts:107-110 | the `pushToNext` closure; no contract of its own, `PushFromPushed` and `PushedDistinct` give its meaning |
| Compiler.Pushed | src/visualize.ts:111-118 | the targets pushed one by one; no contract of its own, `PushedElements`, `PushedDistinct` and `PushedFirstOrder` give its meaning |
| Compiler.ChoiceText | src/visualize.ts:100-125 | the edges a Choice state emits; no contract of its own, `ConvertChoice`, `PushedFirstOrder` and `ChoiceTargetsExample` give its meaning |
| Compiler.GraphOut | src/visualize.ts:43-70 | the text and context of a graph compiled in a new frame; no contract of its own, `GraphCountsFrames`, `GraphFirstLine`, `GraphKeeps` and `GraphRegistersTree` give its meaning |
| Compiler.StatesFrom | src/visualize.ts:55-68 | the loop over a frame's entries as a left fold; no contract of its own, `StatesCountFrames`, `StatesExtendAcc`, `StatesKeep`, `StatesRegister` and `StatesRegisterTree` give its meaning |
| Compiler.EntryOut | src/visualize.ts:56-67 | one entry of a frame; no contract of its own, `ShapeBraceCases`, `StyleLineCases` and `NextLineCases` give the meaning of its lines |
| Compiler.NodeOut | src/visualize.ts:72-98 | the node text of each of the five variants; no contract of its own, `NodeCountsFrames`, `NodeKeeps` and `NodeRegistersTree` give its meaning |
| Compiler.BranchesFrom | src/visualize.ts:86 | the graphs of a Parallel state's branches, in order; no contract of its own, `BranchesCountFrames`, `BranchesKeep` and `BranchesRegisterTree` give its meaning |
| Compiler.MermaidText | src/visualize.ts:36-38 | the whole flowchart; no contract of its own, `MermaidShape` and `StepFunctionToMermaid` give its meaning |
| Compiler.StepFunctionToMermaid | src/visualize.ts:28-41 | the flowchart is the specified text of the definition compiled with a fresh context; the returned context holds the registry and counter that compilation leaves, and with distinct keys in every graph it maps each state of every frame to that state |
| Compiler.ConvertStepFunction | src/visualize.ts:43-70 | the text and the new context are those `GraphOut` assigns to the graph compiled in a new frame |
| Compiler.ConvertEntry | src/visualize.ts:56-67 | one loop iteration: register, node text, shape line, optional fill line, optional successor edge, as `EntryOut` gives |
| Compiler.ConvertNode | src/visualize.ts:72-98 | the node text and the new context are those of `NodeOut` for each of the five variants |
| Compiler.ConvertChoice | src/visualize.ts:100-125 | the text is one edge per de-duplicated target, rules first, then the default |
| Compiler.RuleTargets | src/visualize.ts:111-114 | one target per rule, in rule order |
| Compiler.PushFromPushed | src/visualize.ts:107-118 | pushing the remaining targets onto the pushed prefix gives the pushed whole, which is the invariant of the push loop |
| Compiler.PushedElements | src/visualize.ts:106-118 | the pushed list holds exactly the candidate targets |
| Compiler.PushedDistinct | src/visualize.ts:108 | no target is pushed twice |
| Compiler.PushedFirstOrder | src/visualize.ts:106-118 | pushed targets keep the order of their first occurrence among the candidates |
| Compiler.FirstIndex | src/visualize.ts:108 | the first position of an element: it holds there and not earlier |
| Compiler.FirstIndexOfPrefix | src/visualize.ts:108 | the first position of an element of a prefix is the same in the whole list |
| Compiler.ChoiceTargetsExample | src/visualize.ts:106-118 | rules `[B, C, B]` with default `D` give the targets `B, C, D` in that order |
| Compiler.GraphCountsFrames | src/visualize.ts:48 | compiling a graph advances the counter by the number of graphs of its tree, one frame per graph |
| Compiler.StatesCountFrames | src/visualize.ts:55-68 | the states from position `i` on use one frame per nested graph |
| Compiler.NodeCountsFrames | src/visualize.ts:83-96 | a node uses one frame per nested graph: none for Pass, Task and Choice, one per branch for Parallel, the iterator's for Map |
| Compiler.BranchesCountFrames | src/visualize.ts:86 | the branches from position `j` on use one frame per nested graph |
| Compiler.GraphFirstLine | src/visualize.ts:54 | each frame's text opens with the namespaced id of its start state |
| Compiler.StatesExtendAcc | src/visualize.ts:55-68 | the loop only appends: the text so far is a prefix of the frame's text |
| Compiler.MermaidShape | src/visualize.ts:37-38 | the flowchart is `flowchart TB`, a newline, then the top frame `s0`, which opens with its start node |
| Compiler.GraphKeeps | src/visualize.ts:48-57 | compiling a graph leaves every registry entry outside the `Graphs(sf)` frames numbered from the counter on as it was |
| Compiler.StatesKeep | src/visualize.ts:55-68 | the states loop in frame `m` changes entries only in frame `m` and in the frames its nested graphs allocate |
| Compiler.NodeKeeps | src/visualize.ts:83-96 | a node's nested graphs change entries only in the frames they allocate |
| Compiler.BranchesKeep | src/visualize.ts:86 | the branch conversions change entries only in the frames they allocate |
| Compiler.StatesRegister | src/visualize.ts:55-68 | with unique keys, each state from position `i` on ends registered under its id, and other keys of the frame keep their entries |
| Compiler.GraphRegisters | src/visualize.ts:57 | with unique keys, after compiling a graph every one of its own states is registered under its namespaced id |
| Compiler.TreeStaysRegistered | src/visualize.ts:57 | the registrations of a tree numbered from `n` survive any change outside its `Graphs(sf)` frames |
| Compiler.StatesStayRegistered | src/visualize.ts:57 | the same for the nested graphs of the entries from position `i` on |
| Compiler.NestedStaysRegistered | src/visualize.ts:57 | the same for the graphs nested in one state |
| Compiler.BranchesStayRegistered | src/visualize.ts:57 | the same for the branches from position `j` on |
| Compiler.GraphRegistersTree | src/visualize.ts:43-70 | with distinct keys in every graph, compiling a graph leaves every state of its whole tree registered, each graph under its own frame number in conversion order |
| Compiler.StatesRegisterTree | src/visualize.ts:55-68 | the graphs nested in the entries from position `i` on end up registered, and later entries do not disturb them |
| Compiler.NodeRegistersTree | src/visualize.ts:83-96 | the graphs nested in one state end up registered |
| Compiler.BranchesRegisterTree | src/visualize.ts:86 | the branches from position `j` on end up registered, and later branches do not disturb earlier ones |
| Compiler.MapRegistryExample | src/visualize.ts:57-95 | a Map state `A` whose iterator holds the Task `X` leaves `s0-A_` mapped to `A` and `s1-X_` mapped to `X`, with the counter at 2 |

## Left out

- JSON handling: `JSON.parse` of inputs and outputs is not modelled; they are kept as the raw serialized strings. `Compiler.Quote` stands for `JSON.stringify` of a state name and assumes the name needs no escapes.
- Object key order: the entries of `States` are a sequence that stands for the order `Object.keys` returns (integer-like keys first, in ascending order, then the others in insertion order); the model takes that order as given and does not compute it.
- I/O: the HTTP routes under `src/routes/`, fetching definitions and histories, and rendering the diagram in a browser are not part of this model.
- Fail, Succeed and Wait states: they are not in the state datatype, because the compiler's type admits only Pass, Task, Parallel, Map and Choice.
- Fields the core never reads (comments, resources, retry settings, timestamps' meaning, other event kinds' payloads) are dropped.
- Correlator.History.GetDetails: requires a well-formed log (`Correlatable`): unique ids, predecessor links pointing backwards, payloads matching tags, and an Entered ancestor for every completion and failure. The source dereferences the resolved ancestor and the payloads unchecked (src/history.ts:100, 110, 114, 124, 128), and it needs both walks to end: a cyclic predecessor chain makes the backward walk recurse without end, and with duplicate ids the forward walk can revisit an event even when every backward chain is acyclic (an event whose id equals its own predecessor id is its own first successor when no earlier event names that id as its predecessor, src/history.ts:29-35, 70), so it recurses without end too. Only logs with unique ids and predecessor links pointing backwards are modelled; the model does not describe what the source does on other logs, which the service never produces.
- Compiler.StepFunctionToMermaid: requires a well-formed history when one is given, for the same reason.
- Compiler.StepFunctionToMermaid: the whole-tree registry promise holds for definitions whose graphs all have distinct keys (`TreeUnique`), which the keys of a parsed object always are.
- Compiler.NatToString: the frame counter is an unbounded natural written in decimal; the source's `${this.id++}` (src/visualize.ts:18) loses integer precision past 2^53 and switches to exponent notation from 1e21, which no real definition reaches.
- Compiler.ConvertEntry: a helper method holding the body of the loop over a frame's states; it is not a separate function in the source.
- Correlator.History.Visit: a helper method holding the body of the details loop; it is not a separate function in the source.
- Forward walk with branches: the forward walk follows the first event naming the current one as predecessor, as the source does; which branch that picks in a log with parallel branches is not analysed.
