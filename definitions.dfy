/**
  The data model shared by the correlator and the diagram compiler:
  state-machine definitions (a finite tree: Parallel branches and Map
  iterators nest whole definitions) and execution event logs.
  Only the fields the core reads are kept.
*/
module Definitions {

  datatype Option<+T> = None | Some(value: T)

  /** One rule of a Choice state; only its target is read. */
  datatype ChoiceRule = ChoiceRule(next: string)

  /**
    The closed set of state variants a definition may hold. Every variant
    may carry an optional successor name and an optional terminal flag;
    Fail, Succeed and Wait states are not members.
  */
  datatype State =
    | Pass(next: Option<string>, end: Option<bool>)
    | Task(next: Option<string>, end: Option<bool>)
    | Parallel(next: Option<string>, end: Option<bool>, branches: seq<StepFunction>)
    | Map(next: Option<string>, end: Option<bool>, iteratorGraph: StepFunction)
    | Choice(next: Option<string>, end: Option<bool>, choices: seq<ChoiceRule>, defaultNext: Option<string>)

  /** One key of a definition's `States` object, in declaration order. */
  datatype Entry = Entry(key: string, state: State)

  /** A definition: its start state name and its states in key order. */
  datatype StepFunction = StepFunction(startAt: string, states: seq<Entry>)

  /** Keys of one object are distinct: no two entries of a graph share a key. */
  predicate UniqueKeys(sf: StepFunction)
  {
    forall i, j :: 0 <= i < j < |sf.states| ==> sf.states[i].key != sf.states[j].key
  }

  /**
    The detail object an event carries. Entered events carry the state's
    name and its serialized input, Exited events the name and the
    serialized output; the other kinds carry nothing the core reads.
  */
  datatype EventDetails =
    | StateEnteredDetails(name: string, input: string)
    | StateExitedDetails(name: string, output: string)
    | NoStateDetails

  /**
    One entry of the execution history. The tag is kept as a string,
    because the correlator classifies events by tag prefix.
  */
  datatype ExecutionEvent = ExecutionEvent(
    timestamp: string,
    id: string,
    previousEventId: string,
    eventType: string,
    details: EventDetails)
}
