/**
  The execution-history correlator: lookups and chain walks over a fixed,
  ordered event log, and the single pass that derives one state's
  status, input and output from it.
*/
module Correlator {
  import opened Definitions

  datatype Status = Success | Fail | NeverRun | Indeterminate

  /** The construct category an event tag names. */
  datatype EventType =
    | TaskType | ParallelType | MapType | ChoiceType
    | PassType | FailType | SucceedType | WaitType

  /** Status of one state with the raw input and output last observed for it. */
  datatype Details = Details(status: Status, input: Option<string>, output: Option<string>)

  /** The tag prefix of each category. */
  function Prefix(t: EventType): string
  {
    match t
    case TaskType => "Task"
    case ParallelType => "Parallel"
    case MapType => "Map"
    case ChoiceType => "Choice"
    case PassType => "Pass"
    case FailType => "Fail"
    case SucceedType => "Succeed"
    case WaitType => "Wait"
  }

  /** The Entered tag of each category: its prefix followed by `StateEntered`. */
  function EnteredTag(t: EventType): (tag: string)
    ensures Prefix(t) <= tag
  {
    match t
    case TaskType => "TaskStateEntered"
    case ParallelType => "ParallelStateEntered"
    case MapType => "MapStateEntered"
    case ChoiceType => "ChoiceStateEntered"
    case PassType => "PassStateEntered"
    case FailType => "FailStateEntered"
    case SucceedType => "SucceedStateEntered"
    case WaitType => "WaitStateEntered"
  }

  /** The Exited tag of each category: its prefix followed by `StateExited`. */
  function ExitedTag(t: EventType): (tag: string)
    ensures Prefix(t) <= tag
  {
    match t
    case TaskType => "TaskStateExited"
    case ParallelType => "ParallelStateExited"
    case MapType => "MapStateExited"
    case ChoiceType => "ChoiceStateExited"
    case PassType => "PassStateExited"
    case FailType => "FailStateExited"
    case SucceedType => "SucceedStateExited"
    case WaitType => "WaitStateExited"
  }

  /** The order in which the category prefixes are tested. */
  const Precedence: seq<EventType> :=
    [ParallelType, TaskType, MapType, ChoiceType, PassType, FailType, SucceedType, WaitType]

  /** The first category of `order` whose prefix starts `tag`. */
  function FirstPrefixed(tag: string, order: seq<EventType>): (r: Option<EventType>)
    ensures r.Some? ==> r.value in order && Prefix(r.value) <= tag
    ensures r.None? ==> forall t :: t in order ==> !(Prefix(t) <= tag)
  {
    if order == [] then None
    else if Prefix(order[0]) <= tag then Some(order[0])
    else FirstPrefixed(tag, order[1..])
  }

  /**
    Classifies a tag by its prefix, testing the prefixes in a fixed order:
    a category is found exactly when some category prefix starts the tag.
  */
  function GetType(tag: string): (r: Option<EventType>)
    ensures r.Some? ==> Prefix(r.value) <= tag
    ensures r.None? ==> forall t: EventType :: !(Prefix(t) <= tag)
  {
    AllInPrecedence();
    FirstPrefixed(tag, Precedence)
  }

  lemma AllInPrecedence()
    ensures forall t: EventType :: t in Precedence
  {
    forall t: EventType
      ensures t in Precedence
    {
      InPrecedence(t);
    }
  }

  lemma InPrecedence(t: EventType)
    ensures t in Precedence
  {
    match t
    case ParallelType => assert Precedence[0] == t;
    case TaskType => assert Precedence[1] == t;
    case MapType => assert Precedence[2] == t;
    case ChoiceType => assert Precedence[3] == t;
    case PassType => assert Precedence[4] == t;
    case FailType => assert Precedence[5] == t;
    case SucceedType => assert Precedence[6] == t;
    case WaitType => assert Precedence[7] == t;
  }

  /** No tag starts with two different category prefixes. */
  lemma PrefixesExclusive(tag: string, t1: EventType, t2: EventType)
    requires Prefix(t1) <= tag && Prefix(t2) <= tag
    ensures t1 == t2
  {
    assert tag[0] == Prefix(t1)[0] && tag[0] == Prefix(t2)[0];
    assert tag[2] == Prefix(t1)[2] && tag[2] == Prefix(t2)[2];
  }

  /**
    The category is exactly the one whose prefix the tag carries, so the
    order in which the prefixes are tested never matters.
  */
  lemma GetTypeIsPrefixCategory(tag: string, t: EventType)
    ensures GetType(tag) == Some(t) <==> Prefix(t) <= tag
  {
    InPrecedence(t);
    match GetType(tag)
    case Some(u) =>
      if Prefix(t) <= tag {
        PrefixesExclusive(tag, t, u);
      }
    case None =>
  }

  /** Every Entered and Exited tag is classified as its own category. */
  lemma GetTypeOfStateTags(t: EventType)
    ensures GetType(EnteredTag(t)) == Some(t)
    ensures GetType(ExitedTag(t)) == Some(t)
  {
    assert Prefix(t) <= EnteredTag(t);
    assert Prefix(t) <= ExitedTag(t);
    GetTypeIsPrefixCategory(EnteredTag(t), t);
    GetTypeIsPrefixCategory(ExitedTag(t), t);
  }

  /** Tags of Lambda and execution events carry no category, so their walks are unfiltered. */
  lemma GetTypeOfUncategorized(tag: string)
    requires "LambdaFunction" <= tag || "Execution" <= tag
    ensures GetType(tag) == None
  {
    assert tag[0] == 'L' || tag[0] == 'E';
    match GetType(tag)
    case None =>
    case Some(t) =>
      GetTypeIsPrefixCategory(tag, t);
      assert false;
  }

  // ---------------------------------------------------------------------
  // Tag classes

  /**
    What the correlator distinguishes about a tag: the Entered and the
    Exited tag of each category, the three further tags the details pass
    tests for, and every other tag.
  */
  datatype TagClass =
    | EnteredClass(category: EventType)
    | ExitedClass(category: EventType)
    | LambdaSucceededClass
    | LambdaFailedClass
    | ParallelSucceededClass
    | OtherClass

  /** The tag string of each class but the last. */
  function TagOf(c: TagClass): string
    requires c != OtherClass
  {
    match c
    case EnteredClass(t) => EnteredTag(t)
    case ExitedClass(t) => ExitedTag(t)
    case LambdaSucceededClass => "LambdaFunctionSucceeded"
    case LambdaFailedClass => "LambdaFunctionFailed"
    case ParallelSucceededClass => "ParallelStateSucceeded"
  }

  const ClassCount := 19

  /** The named classes, in the order the classifier tests their tags. */
  function ClassAt(k: nat): (c: TagClass)
    requires k < ClassCount
    ensures c != OtherClass
  {
    match k
    case 0 => EnteredClass(TaskType)
    case 1 => EnteredClass(ParallelType)
    case 2 => EnteredClass(MapType)
    case 3 => EnteredClass(ChoiceType)
    case 4 => EnteredClass(PassType)
    case 5 => EnteredClass(FailType)
    case 6 => EnteredClass(SucceedType)
    case 7 => EnteredClass(WaitType)
    case 8 => ExitedClass(TaskType)
    case 9 => ExitedClass(ParallelType)
    case 10 => ExitedClass(MapType)
    case 11 => ExitedClass(ChoiceType)
    case 12 => ExitedClass(PassType)
    case 13 => ExitedClass(FailType)
    case 14 => ExitedClass(SucceedType)
    case 15 => ExitedClass(WaitType)
    case 16 => LambdaSucceededClass
    case 17 => LambdaFailedClass
    case _ => ParallelSucceededClass
  }

  /** The position of a named class in the test order. */
  function IndexOf(c: TagClass): (k: nat)
    requires c != OtherClass
    ensures k < ClassCount && ClassAt(k) == c
  {
    match c
    case EnteredClass(t) =>
      (match t
       case TaskType => 0 case ParallelType => 1 case MapType => 2 case ChoiceType => 3
       case PassType => 4 case FailType => 5 case SucceedType => 6 case WaitType => 7)
    case ExitedClass(t) =>
      (match t
       case TaskType => 8 case ParallelType => 9 case MapType => 10 case ChoiceType => 11
       case PassType => 12 case FailType => 13 case SucceedType => 14 case WaitType => 15)
    case LambdaSucceededClass => 16
    case LambdaFailedClass => 17
    case ParallelSucceededClass => 18
  }

  /**
    The first class from position `k` on whose tag is `tag`. The search
    alternates with `ClassifyAt`, which tests the tag at one position.
  */
  function ClassifyFrom(tag: string, k: nat): TagClass
    requires k <= ClassCount
    decreases ClassCount - k, 1, tag
  {
    if k == ClassCount then OtherClass else ClassifyAt(tag, k)
  }

  function ClassifyAt(tag: string, k: nat): TagClass
    requires k < ClassCount
    decreases ClassCount - k, 0, tag
  {
    if tag == TagOf(ClassAt(k)) then ClassAt(k) else ClassifyFrom(tag, k + 1)
  }

  /** The class of a tag: the named class whose tag it equals, otherwise `OtherClass`. */
  function Classify(tag: string): TagClass
  {
    ClassifyFrom(tag, 0)
  }

  /** One of the eight `*StateEntered` tags. */
  predicate IsEnteredTag(tag: string)
  {
    Classify(tag).EnteredClass?
  }

  /** One of the eight `*StateExited` tags. */
  predicate IsExitedTag(tag: string)
  {
    Classify(tag).ExitedClass?
  }

  /** An Entered tag of the filtered category, or any Entered tag without a filter. */
  predicate EnteredMatches(tag: string, filter: Option<EventType>)
  {
    IsEnteredTag(tag) && (filter.None? || filter.value == Classify(tag).category)
  }

  /** An Exited tag of the filtered category, or any Exited tag without a filter. */
  predicate ExitedMatches(tag: string, filter: Option<EventType>)
  {
    IsExitedTag(tag) && (filter.None? || filter.value == Classify(tag).category)
  }

  /** The five Entered tags that mark a state as started. */
  predicate IsStatusEntered(tag: string)
  {
    match Classify(tag)
    case EnteredClass(t) => t == TaskType || t == ParallelType || t == MapType || t == ChoiceType || t == PassType
    case _ => false
  }

  /** The tags that signal a construct completed successfully. */
  predicate IsCompletion(tag: string)
  {
    match Classify(tag)
    case LambdaSucceededClass => true
    case ParallelSucceededClass => true
    case ExitedClass(t) => t == MapType || t == ChoiceType || t == PassType
    case _ => false
  }

  /** The tag that signals a task failed. */
  predicate IsFailure(tag: string)
  {
    Classify(tag) == LambdaFailedClass
  }

  /** The category `GetType` assigns to the tag of a class. */
  function ClassCategory(c: TagClass): Option<EventType>
  {
    match c
    case EnteredClass(t) => Some(t)
    case ExitedClass(t) => Some(t)
    case ParallelSucceededClass => Some(ParallelType)
    case _ => None
  }

  lemma GetTypeOfClassTag(c: TagClass)
    requires c != OtherClass
    ensures GetType(TagOf(c)) == ClassCategory(c)
  {
    match c
    case EnteredClass(t) => GetTypeOfStateTags(t);
    case ExitedClass(t) => GetTypeOfStateTags(t);
    case ParallelSucceededClass =>
      assert Prefix(ParallelType) <= TagOf(c);
      GetTypeIsPrefixCategory(TagOf(c), ParallelType);
    case LambdaSucceededClass => GetTypeOfUncategorized(TagOf(c));
    case LambdaFailedClass => GetTypeOfUncategorized(TagOf(c));
  }

  /** Within one category, the tags of distinct classes have distinct lengths. */
  lemma TagLength(c: TagClass)
    requires c != OtherClass
    ensures |TagOf(c)| == match c
      case EnteredClass(t) => |Prefix(t)| + 12
      case ExitedClass(t) => |Prefix(t)| + 11
      case ParallelSucceededClass => 22
      case LambdaSucceededClass => 23
      case _ => 20
  {
  }

  /** Distinct classes have distinct tags. */
  lemma TagOfInjective(c1: TagClass, c2: TagClass)
    requires c1 != OtherClass && c2 != OtherClass
    requires TagOf(c1) == TagOf(c2)
    ensures c1 == c2
  {
    GetTypeOfClassTag(c1);
    GetTypeOfClassTag(c2);
    TagLength(c1);
    TagLength(c2);
  }

  /** A class found from position `k` on is the class of the tag found. */
  lemma {:induction false} ClassifyFromFound(tag: string, k: nat)
    requires k <= ClassCount
    ensures ClassifyFrom(tag, k) != OtherClass ==> tag == TagOf(ClassifyFrom(tag, k))
    decreases ClassCount - k
  {
    if k < ClassCount && tag != TagOf(ClassAt(k)) {
      ClassifyFromFound(tag, k + 1);
    }
  }

  /** The tag of a class is found when the search starts at or before its position. */
  lemma {:induction false} ClassifyFromReaches(c: TagClass, k: nat)
    requires c != OtherClass && k <= IndexOf(c)
    ensures ClassifyFrom(TagOf(c), k) == c
    decreases IndexOf(c) - k
  {
    if k == IndexOf(c) {
      assert ClassAt(k) == c;
    } else if TagOf(ClassAt(k)) == TagOf(c) {
      TagOfInjective(ClassAt(k), c);
    } else {
      ClassifyFromReaches(c, k + 1);
    }
  }

  /** Classification is the inverse of `TagOf`: a tag has class `c` exactly when it is the tag of `c`. */
  lemma ClassifyInverse(tag: string, c: TagClass)
    requires c != OtherClass
    ensures Classify(tag) == c <==> tag == TagOf(c)
  {
    ClassifyFromFound(tag, 0);
    if tag == TagOf(c) {
      ClassifyFromReaches(c, 0);
    }
  }

  /** The Entered filter of the backward walk is exactly the tag comparison of its eight categories. */
  lemma EnteredMatchesTags(tag: string, filter: Option<EventType>)
    ensures EnteredMatches(tag, filter) <==>
      ((filter == Some(TaskType) || filter == None) && tag == "TaskStateEntered") ||
      ((filter == Some(ParallelType) || filter == None) && tag == "ParallelStateEntered") ||
      ((filter == Some(MapType) || filter == None) && tag == "MapStateEntered") ||
      ((filter == Some(ChoiceType) || filter == None) && tag == "ChoiceStateEntered") ||
      ((filter == Some(PassType) || filter == None) && tag == "PassStateEntered") ||
      ((filter == Some(FailType) || filter == None) && tag == "FailStateEntered") ||
      ((filter == Some(SucceedType) || filter == None) && tag == "SucceedStateEntered") ||
      ((filter == Some(WaitType) || filter == None) && tag == "WaitStateEntered")
  {
    ClassifyInverse(tag, EnteredClass(TaskType));
    ClassifyInverse(tag, EnteredClass(ParallelType));
    ClassifyInverse(tag, EnteredClass(MapType));
    ClassifyInverse(tag, EnteredClass(ChoiceType));
    ClassifyInverse(tag, EnteredClass(PassType));
    ClassifyInverse(tag, EnteredClass(FailType));
    ClassifyInverse(tag, EnteredClass(SucceedType));
    ClassifyInverse(tag, EnteredClass(WaitType));
  }

  /** The Exited filter of the forward walk is exactly the tag comparison of its eight categories. */
  lemma ExitedMatchesTags(tag: string, filter: Option<EventType>)
    ensures ExitedMatches(tag, filter) <==>
      ((filter == Some(TaskType) || filter == None) && tag == "TaskStateExited") ||
      ((filter == Some(ParallelType) || filter == None) && tag == "ParallelStateExited") ||
      ((filter == Some(MapType) || filter == None) && tag == "MapStateExited") ||
      ((filter == Some(ChoiceType) || filter == None) && tag == "ChoiceStateExited") ||
      ((filter == Some(PassType) || filter == None) && tag == "PassStateExited") ||
      ((filter == Some(FailType) || filter == None) && tag == "FailStateExited") ||
      ((filter == Some(SucceedType) || filter == None) && tag == "SucceedStateExited") ||
      ((filter == Some(WaitType) || filter == None) && tag == "WaitStateExited")
  {
    ClassifyInverse(tag, ExitedClass(TaskType));
    ClassifyInverse(tag, ExitedClass(ParallelType));
    ClassifyInverse(tag, ExitedClass(MapType));
    ClassifyInverse(tag, ExitedClass(ChoiceType));
    ClassifyInverse(tag, ExitedClass(PassType));
    ClassifyInverse(tag, ExitedClass(FailType));
    ClassifyInverse(tag, ExitedClass(SucceedType));
    ClassifyInverse(tag, ExitedClass(WaitType));
  }

  /** The tags that mark a state as started are exactly five Entered tags. */
  lemma IsStatusEnteredTags(tag: string)
    ensures IsStatusEntered(tag) <==>
      tag == "TaskStateEntered" || tag == "ParallelStateEntered" || tag == "MapStateEntered" ||
      tag == "ChoiceStateEntered" || tag == "PassStateEntered"
  {
    ClassifyInverse(tag, EnteredClass(TaskType));
    ClassifyInverse(tag, EnteredClass(ParallelType));
    ClassifyInverse(tag, EnteredClass(MapType));
    ClassifyInverse(tag, EnteredClass(ChoiceType));
    ClassifyInverse(tag, EnteredClass(PassType));
  }

  /** The completion tags are exactly these five. */
  lemma IsCompletionTags(tag: string)
    ensures IsCompletion(tag) <==>
      tag == "LambdaFunctionSucceeded" || tag == "ParallelStateSucceeded" || tag == "MapStateExited" ||
      tag == "ChoiceStateExited" || tag == "PassStateExited"
  {
    ClassifyInverse(tag, LambdaSucceededClass);
    ClassifyInverse(tag, ParallelSucceededClass);
    ClassifyInverse(tag, ExitedClass(MapType));
    ClassifyInverse(tag, ExitedClass(ChoiceType));
    ClassifyInverse(tag, ExitedClass(PassType));
  }

  /** The only failure tag is `LambdaFunctionFailed`. */
  lemma IsFailureTag(tag: string)
    ensures IsFailure(tag) <==> tag == "LambdaFunctionFailed"
  {
    ClassifyInverse(tag, LambdaFailedClass);
  }

  // ---------------------------------------------------------------------
  // Lookups

  /** Index of the first event, in log order, whose `id` is `id`. */
  function IndexById(log: seq<ExecutionEvent>, id: string): (r: Option<nat>)
    ensures r.Some? ==> r.value < |log| && log[r.value].id == id
    ensures forall j :: 0 <= j < |log| && (r.None? || j < r.value) ==> log[j].id != id
  {
    if log == [] then None
    else if log[0].id == id then Some(0)
    else
      match IndexById(log[1..], id)
      case None => None
      case Some(k) => Some(k + 1)
  }

  /** Index of the first event, in log order, whose `previousEventId` is `id`. */
  function IndexByPreviousId(log: seq<ExecutionEvent>, id: string): (r: Option<nat>)
    ensures r.Some? ==> r.value < |log| && log[r.value].previousEventId == id
    ensures forall j :: 0 <= j < |log| && (r.None? || j < r.value) ==> log[j].previousEventId != id
  {
    if log == [] then None
    else if log[0].previousEventId == id then Some(0)
    else
      match IndexByPreviousId(log[1..], id)
      case None => None
      case Some(k) => Some(k + 1)
  }

  function FindById(log: seq<ExecutionEvent>, id: string): (r: Option<ExecutionEvent>)
    ensures r.Some? ==> r.value in log && r.value.id == id
  {
    match IndexById(log, id)
    case None => None
    case Some(k) => Some(log[k])
  }

  function FindByPreviousId(log: seq<ExecutionEvent>, id: string): (r: Option<ExecutionEvent>)
    ensures r.Some? ==> r.value in log && r.value.previousEventId == id
  {
    match IndexByPreviousId(log, id)
    case None => None
    case Some(k) => Some(log[k])
  }

  // ---------------------------------------------------------------------
  // Chain walks

  /** No two events share an id. */
  predicate UniqueIds(log: seq<ExecutionEvent>)
  {
    forall i, j :: 0 <= i < j < |log| ==> log[i].id != log[j].id
  }

  /** The predecessor of the event at `i`, if it resolves, sits earlier in the log. */
  predicate LinkedEarlier(log: seq<ExecutionEvent>, i: nat)
    requires i < |log|
  {
    match IndexById(log, log[i].previousEventId)
    case None => true
    case Some(j) => j < i
  }

  /**
    The condition under which the backward and forward walks terminate:
    ids are unique and every resolvable predecessor link points backwards.
  */
  predicate ChainsOrdered(log: seq<ExecutionEvent>)
  {
    UniqueIds(log) && forall i :: 0 <= i < |log| ==> LinkedEarlier(log, i)
  }

  /** One more than the log position of an event; 0 for no event. */
  function Rank(log: seq<ExecutionEvent>, e: Option<ExecutionEvent>): nat
  {
    match e
    case None => 0
    case Some(x) =>
      match IndexById(log, x.id)
      case None => 0
      case Some(k) => k + 1
  }

  /** The number of log positions from an event to the end; 0 for no event. */
  function ForwardRank(log: seq<ExecutionEvent>, e: Option<ExecutionEvent>): nat
  {
    match e
    case None => 0
    case Some(x) =>
      match IndexById(log, x.id)
      case None => 0
      case Some(k) => |log| - k
  }

  lemma PositionOfMember(log: seq<ExecutionEvent>, k: nat)
    requires UniqueIds(log) && k < |log|
    ensures IndexById(log, log[k].id) == Some(k)
  {
  }

  lemma PredecessorRanksLower(log: seq<ExecutionEvent>, e: ExecutionEvent)
    requires ChainsOrdered(log) && e in log
    ensures Rank(log, Some(e)) > 0
    ensures Rank(log, FindById(log, e.previousEventId)) < Rank(log, Some(e))
  {
    var k :| 0 <= k < |log| && log[k] == e;
    PositionOfMember(log, k);
    assert LinkedEarlier(log, k);
    match IndexById(log, e.previousEventId)
    case None =>
    case Some(j) => PositionOfMember(log, j);
  }

  lemma SuccessorRanksLower(log: seq<ExecutionEvent>, e: ExecutionEvent)
    requires ChainsOrdered(log) && e in log
    ensures ForwardRank(log, Some(e)) > 0
    ensures ForwardRank(log, FindByPreviousId(log, e.id)) < ForwardRank(log, Some(e))
  {
    var k :| 0 <= k < |log| && log[k] == e;
    PositionOfMember(log, k);
    match IndexByPreviousId(log, e.id)
    case None =>
    case Some(m) =>
      PositionOfMember(log, m);
      assert LinkedEarlier(log, m);
  }

  /**
    The nearest Entered event of the filtered category at or before `e`
    on its backward `previousEventId` chain.
  */
  function InputEvent(log: seq<ExecutionEvent>, e: Option<ExecutionEvent>, filter: Option<EventType>): (r: Option<ExecutionEvent>)
    requires ChainsOrdered(log)
    requires e.Some? ==> e.value in log
    ensures e.None? ==> r.None?
    ensures r.Some? ==> r.value in log && EnteredMatches(r.value.eventType, filter)
    ensures r.Some? ==> Rank(log, r) <= Rank(log, e)
    decreases Rank(log, e)
  {
    match e
    case None => None
    case Some(ev) =>
      if EnteredMatches(ev.eventType, filter) then e
      else
        PredecessorRanksLower(log, ev);
        InputEvent(log, FindById(log, ev.previousEventId), filter)
  }

  /**
    The nearest Exited event of the filtered category at or after `e`
    on its forward chain, following the first event that names the
    current one as its predecessor.
  */
  function OutputEvent(log: seq<ExecutionEvent>, e: Option<ExecutionEvent>, filter: Option<EventType>): (r: Option<ExecutionEvent>)
    requires ChainsOrdered(log)
    requires e.Some? ==> e.value in log
    ensures e.None? ==> r.None?
    ensures r.Some? ==> r.value in log && ExitedMatches(r.value.eventType, filter)
    ensures r.Some? ==> ForwardRank(log, r) <= ForwardRank(log, e)
    decreases ForwardRank(log, e)
  {
    match e
    case None => None
    case Some(ev) =>
      if ExitedMatches(ev.eventType, filter) then e
      else
        SuccessorRanksLower(log, ev);
        OutputEvent(log, FindByPreviousId(log, ev.id), filter)
  }

  /**
    The backward chain of `e`: `e`, then the event its `previousEventId`
    resolves to, and so on until a link resolves to nothing.
  */
  function Ancestry(log: seq<ExecutionEvent>, e: ExecutionEvent): (chain: seq<ExecutionEvent>)
    requires ChainsOrdered(log) && e in log
    ensures |chain| >= 1 && chain[0] == e
    ensures forall x :: x in chain ==> x in log
    ensures forall i :: 0 <= i < |chain| - 1 ==> FindById(log, chain[i].previousEventId) == Some(chain[i + 1])
    ensures FindById(log, chain[|chain| - 1].previousEventId) == None
    decreases Rank(log, Some(e))
  {
    PredecessorRanksLower(log, e);
    match FindById(log, e.previousEventId)
    case None => [e]
    case Some(p) => [e] + Ancestry(log, p)
  }

  /**
    The forward chain of `e`: `e`, then the first event naming it as
    predecessor, and so on until no event does.
  */
  function Descendants(log: seq<ExecutionEvent>, e: ExecutionEvent): (chain: seq<ExecutionEvent>)
    requires ChainsOrdered(log) && e in log
    ensures |chain| >= 1 && chain[0] == e
    ensures forall x :: x in chain ==> x in log
    ensures forall i :: 0 <= i < |chain| - 1 ==> FindByPreviousId(log, chain[i].id) == Some(chain[i + 1])
    ensures FindByPreviousId(log, chain[|chain| - 1].id) == None
    decreases ForwardRank(log, Some(e))
  {
    SuccessorRanksLower(log, e);
    match FindByPreviousId(log, e.id)
    case None => [e]
    case Some(s) => [e] + Descendants(log, s)
  }

  /** The first element of a chain with a matching Entered tag. */
  function FirstEntered(chain: seq<ExecutionEvent>, filter: Option<EventType>): (r: Option<ExecutionEvent>)
    ensures r.Some? ==> r.value in chain && EnteredMatches(r.value.eventType, filter)
    ensures r.Some? ==> exists k :: 0 <= k < |chain| && chain[k] == r.value &&
                          forall m :: 0 <= m < k ==> !EnteredMatches(chain[m].eventType, filter)
    ensures r.None? ==> forall x :: x in chain ==> !EnteredMatches(x.eventType, filter)
  {
    if chain == [] then None
    else if EnteredMatches(chain[0].eventType, filter) then Some(chain[0])
    else FirstEntered(chain[1..], filter)
  }

  /** The first element of a chain with a matching Exited tag. */
  function FirstExited(chain: seq<ExecutionEvent>, filter: Option<EventType>): (r: Option<ExecutionEvent>)
    ensures r.Some? ==> r.value in chain && ExitedMatches(r.value.eventType, filter)
    ensures r.Some? ==> exists k :: 0 <= k < |chain| && chain[k] == r.value &&
                          forall m :: 0 <= m < k ==> !ExitedMatches(chain[m].eventType, filter)
    ensures r.None? ==> forall x :: x in chain ==> !ExitedMatches(x.eventType, filter)
  {
    if chain == [] then None
    else if ExitedMatches(chain[0].eventType, filter) then Some(chain[0])
    else FirstExited(chain[1..], filter)
  }

  /** The backward walk finds the first matching event of the backward chain. */
  lemma {:induction false} InputEventIsFirstOnAncestry(log: seq<ExecutionEvent>, e: ExecutionEvent, filter: Option<EventType>)
    requires ChainsOrdered(log) && e in log
    ensures InputEvent(log, Some(e), filter) == FirstEntered(Ancestry(log, e), filter)
    decreases Rank(log, Some(e))
  {
    PredecessorRanksLower(log, e);
    var chain := Ancestry(log, e);
    if !EnteredMatches(e.eventType, filter) {
      match FindById(log, e.previousEventId)
      case None =>
      case Some(p) =>
        InputEventIsFirstOnAncestry(log, p, filter);
        assert chain[1..] == Ancestry(log, p);
    }
  }

  /** The forward walk finds the first matching event of the forward chain. */
  lemma {:induction false} OutputEventIsFirstOnDescendants(log: seq<ExecutionEvent>, e: ExecutionEvent, filter: Option<EventType>)
    requires ChainsOrdered(log) && e in log
    ensures OutputEvent(log, Some(e), filter) == FirstExited(Descendants(log, e), filter)
    decreases ForwardRank(log, Some(e))
  {
    SuccessorRanksLower(log, e);
    var chain := Descendants(log, e);
    if !ExitedMatches(e.eventType, filter) {
      match FindByPreviousId(log, e.id)
      case None =>
      case Some(s) =>
        OutputEventIsFirstOnDescendants(log, s, filter);
        assert chain[1..] == Descendants(log, s);
    }
  }

  // ---------------------------------------------------------------------
  // Per-state details

  /** Entered and Exited events carry the detail object their tag promises. */
  predicate PayloadMatchesTag(e: ExecutionEvent)
  {
    (IsEnteredTag(e.eventType) ==> e.details.StateEnteredDetails?) &&
    (IsExitedTag(e.eventType) ==> e.details.StateExitedDetails?)
  }

  /** A completion or failure event has an Entered ancestor of its category. */
  predicate Resolves(log: seq<ExecutionEvent>, e: ExecutionEvent)
    requires ChainsOrdered(log) && e in log
  {
    (IsCompletion(e.eventType) || IsFailure(e.eventType)) ==>
      InputEvent(log, Some(e), GetType(e.eventType)).Some?
  }

  /** The event at `i` carries its payload and, when it completes a construct, resolves. */
  predicate WellFormedAt(log: seq<ExecutionEvent>, i: nat)
    requires ChainsOrdered(log) && i < |log|
  {
    PayloadMatchesTag(log[i]) && Resolves(log, log[i])
  }

  /** What the details pass demands of its log. */
  predicate Correlatable(log: seq<ExecutionEvent>)
  {
    ChainsOrdered(log) && forall i :: 0 <= i < |log| ==> WellFormedAt(log, i)
  }

  lemma CorrelatableAt(log: seq<ExecutionEvent>, e: ExecutionEvent)
    requires Correlatable(log) && e in log
    ensures PayloadMatchesTag(e) && Resolves(log, e)
  {
    var k :| 0 <= k < |log| && log[k] == e;
    assert WellFormedAt(log, k);
  }

  /** The Entered event that started the construct a completion or failure event ends. */
  function Ancestor(log: seq<ExecutionEvent>, e: ExecutionEvent): (r: ExecutionEvent)
    requires Correlatable(log) && e in log
    requires IsCompletion(e.eventType) || IsFailure(e.eventType)
    ensures r in log && IsEnteredTag(r.eventType) && r.details.StateEnteredDetails?
    ensures EnteredMatches(r.eventType, GetType(e.eventType))
  {
    CorrelatableAt(log, e);
    var r := InputEvent(log, Some(e), GetType(e.eventType)).value;
    CorrelatableAt(log, r);
    r
  }

  /** The Exited event, if any, that follows a completion or failure event. */
  function Descendant(log: seq<ExecutionEvent>, e: ExecutionEvent): (r: Option<ExecutionEvent>)
    requires Correlatable(log) && e in log
    ensures r.Some? ==> r.value in log && IsExitedTag(r.value.eventType) && r.value.details.StateExitedDetails?
  {
    CorrelatableAt(log, e);
    var r := OutputEvent(log, Some(e), GetType(e.eventType));
    if r.Some? then
      CorrelatableAt(log, r.value);
      r
    else r
  }

  /** The details a resolved completion or failure event records. */
  function Resolved(log: seq<ExecutionEvent>, s: Status, e: ExecutionEvent, d: Details): (r: Details)
    requires Correlatable(log) && e in log
    requires IsCompletion(e.eventType) || IsFailure(e.eventType)
  {
    Details(s, Some(Ancestor(log, e).details.input),
            match Descendant(log, e)
            case Some(x) => Some(x.details.output)
            case None => d.output)
  }

  datatype Progress = Running(details: Details) | Stopped(details: Details)

  /** The first test of an iteration: an Entered event of `name` marks it started. */
  function OnEntered(name: string, e: ExecutionEvent, d: Details): Details
    requires PayloadMatchesTag(e)
  {
    if IsStatusEntered(e.eventType) && e.details.name == name
    then Details(Indeterminate, Some(e.details.input), d.output) else d
  }

  /** The second test: a completion whose ancestor is `name` marks it succeeded. */
  function OnCompletion(log: seq<ExecutionEvent>, name: string, e: ExecutionEvent, d: Details): Details
    requires Correlatable(log) && e in log
  {
    if IsCompletion(e.eventType) && Ancestor(log, e).details.name == name
    then Resolved(log, Success, e, d) else d
  }

  /** One iteration of the details pass over `e`, for the state `name`. */
  function Step(log: seq<ExecutionEvent>, name: string, e: ExecutionEvent, d: Details): Progress
    requires Correlatable(log) && e in log
  {
    CorrelatableAt(log, e);
    var d2 := OnCompletion(log, name, e, OnEntered(name, e, d));
    if IsFailure(e.eventType) && Ancestor(log, e).details.name == name
    then Stopped(Resolved(log, Fail, e, d2))
    else Running(d2)
  }

  /** The state of the details pass after the first `n` events. */
  function After(log: seq<ExecutionEvent>, name: string, n: nat): Progress
    requires Correlatable(log) && n <= |log|
  {
    if n == 0 then Running(Details(NeverRun, None, None))
    else
      match After(log, name, n - 1)
      case Stopped(d) => Stopped(d)
      case Running(d) => Step(log, name, log[n - 1], d)
  }

  /** What a full details pass over the log returns for `name`. */
  function DetailsOf(log: seq<ExecutionEvent>, name: string): Details
    requires Correlatable(log)
  {
    After(log, name, |log|).details
  }

  /** A failure event whose Entered ancestor is `name`. */
  predicate FailsFor(log: seq<ExecutionEvent>, name: string, e: ExecutionEvent)
    requires Correlatable(log) && e in log
  {
    IsFailure(e.eventType) && Ancestor(log, e).details.name == name
  }

  /** An event the details pass attributes to `name`. */
  predicate Touches(log: seq<ExecutionEvent>, name: string, e: ExecutionEvent)
    requires Correlatable(log) && e in log
  {
    CorrelatableAt(log, e);
    (IsStatusEntered(e.eventType) && e.details.name == name) ||
    ((IsCompletion(e.eventType) || IsFailure(e.eventType)) && Ancestor(log, e).details.name == name)
  }

  /** The status an event attributed to `name` records. */
  function TouchStatus(tag: string): Status
  {
    if IsStatusEntered(tag) then Indeterminate
    else if IsFailure(tag) then Fail
    else Success
  }

  /** The input an event attributed to `name` records. */
  function TouchInput(log: seq<ExecutionEvent>, e: ExecutionEvent): Option<string>
    requires Correlatable(log) && e in log
  {
    CorrelatableAt(log, e);
    if IsStatusEntered(e.eventType) then Some(e.details.input)
    else if IsCompletion(e.eventType) || IsFailure(e.eventType) then Some(Ancestor(log, e).details.input)
    else None
  }

  /** An event not attributed to `name` (a failure of another state included) changes nothing. */
  lemma UntouchedStepKeeps(log: seq<ExecutionEvent>, name: string, e: ExecutionEvent, d: Details)
    requires Correlatable(log) && e in log
    requires !Touches(log, name, e)
    ensures Step(log, name, e, d) == Running(d)
  {
  }

  /** An iteration stops the pass exactly at a failure of `name`, and then with status `fail`. */
  lemma StepStopsAtFailure(log: seq<ExecutionEvent>, name: string, e: ExecutionEvent, d: Details)
    requires Correlatable(log) && e in log
    ensures Step(log, name, e, d).Stopped? <==> FailsFor(log, name, e)
    ensures Step(log, name, e, d).Stopped? ==> Step(log, name, e, d).details.status == Fail
  {
  }

  /** An iteration over an event attributed to `name` leaves a status other than `neverrun`. */
  lemma StepTouchedStatus(log: seq<ExecutionEvent>, name: string, e: ExecutionEvent, d: Details)
    requires Correlatable(log) && e in log
    requires Touches(log, name, e)
    ensures Step(log, name, e, d).details.status == TouchStatus(e.eventType)
    ensures Step(log, name, e, d).details.input == TouchInput(log, e)
  {
  }

  /** An iteration never turns a started status back into `neverrun`. */
  lemma StepKeepsStarted(log: seq<ExecutionEvent>, name: string, e: ExecutionEvent, d: Details)
    requires Correlatable(log) && e in log
    requires d.status != NeverRun
    ensures Step(log, name, e, d).details.status != NeverRun
  {
  }

  /** The pass stops only at a failure, with status `fail`. */
  lemma {:induction false} StoppedIsFailed(log: seq<ExecutionEvent>, name: string, n: nat)
    requires Correlatable(log) && n <= |log|
    ensures After(log, name, n).Stopped? ==> After(log, name, n).details.status == Fail
  {
    if n > 0 {
      StoppedIsFailed(log, name, n - 1);
      StepStopsAtFailure(log, name, log[n - 1], After(log, name, n - 1).details);
    }
  }

  /** Once stopped, later events cannot change the details. */
  lemma {:induction false} StoppedIsFinal(log: seq<ExecutionEvent>, name: string, i: nat, n: nat)
    requires Correlatable(log) && i <= n <= |log|
    requires After(log, name, i).Stopped?
    ensures After(log, name, n) == After(log, name, i)
    decreases n
  {
    if n > i {
      StoppedIsFinal(log, name, i, n - 1);
    }
  }

  /** No event before position `n` is a failure of `name`. */
  predicate NoFailureBefore(log: seq<ExecutionEvent>, name: string, n: nat)
    requires Correlatable(log) && n <= |log|
  {
    n == 0 || (NoFailureBefore(log, name, n - 1) && !FailsFor(log, name, log[n - 1]))
  }

  lemma {:induction false} NoFailureBeforeAll(log: seq<ExecutionEvent>, name: string, n: nat)
    requires Correlatable(log) && n <= |log|
    ensures NoFailureBefore(log, name, n) <==> forall j :: 0 <= j < n ==> !FailsFor(log, name, log[j])
  {
    if n > 0 {
      NoFailureBeforeAll(log, name, n - 1);
      if NoFailureBefore(log, name, n) {
        forall j | 0 <= j < n
          ensures !FailsFor(log, name, log[j])
        {
        }
      } else if forall j :: 0 <= j < n - 1 ==> !FailsFor(log, name, log[j]) {
        assert FailsFor(log, name, log[n - 1]);
      }
    }
  }

  lemma {:induction false} RunningIffNoFailure(log: seq<ExecutionEvent>, name: string, n: nat)
    requires Correlatable(log) && n <= |log|
    ensures After(log, name, n).Running? <==> NoFailureBefore(log, name, n)
  {
    if n > 0 {
      RunningIffNoFailure(log, name, n - 1);
      StepStopsAtFailure(log, name, log[n - 1], After(log, name, n - 1).details);
    }
  }

  /** The pass is still running exactly when no earlier event is a failure of `name`. */
  lemma RunningUnlessFailed(log: seq<ExecutionEvent>, name: string, n: nat)
    requires Correlatable(log) && n <= |log|
    ensures After(log, name, n).Running? <==> forall j :: 0 <= j < n ==> !FailsFor(log, name, log[j])
  {
    RunningIffNoFailure(log, name, n);
    NoFailureBeforeAll(log, name, n);
  }

  /** A name no event is attributed to keeps the initial details. */
  lemma {:induction false} UntouchedPrefixNeverRun(log: seq<ExecutionEvent>, name: string, n: nat)
    requires Correlatable(log) && n <= |log|
    requires forall j :: 0 <= j < n ==> !Touches(log, name, log[j])
    ensures After(log, name, n) == Running(Details(NeverRun, None, None))
  {
    if n > 0 {
      UntouchedPrefixNeverRun(log, name, n - 1);
      UntouchedStepKeeps(log, name, log[n - 1], After(log, name, n - 1).details);
    }
  }

  /** Once an event is attributed to `name`, its status is never `neverrun` again. */
  lemma {:induction false} TouchedNeverRunsAgain(log: seq<ExecutionEvent>, name: string, i: nat, n: nat)
    requires Correlatable(log) && i < n <= |log|
    requires Touches(log, name, log[i])
    ensures After(log, name, n).details.status != NeverRun
    decreases n
  {
    var d := After(log, name, n - 1).details;
    if n == i + 1 {
      StoppedIsFailed(log, name, i);
      StepTouchedStatus(log, name, log[i], d);
    } else {
      TouchedNeverRunsAgain(log, name, i, n - 1);
      StepKeepsStarted(log, name, log[n - 1], d);
    }
  }

  /**
    The status is `neverrun` exactly when no event is attributed to the
    name, and then the input and output are absent too.
  */
  lemma NeverRunIffUntouched(log: seq<ExecutionEvent>, name: string)
    requires Correlatable(log)
    ensures DetailsOf(log, name).status == NeverRun <==>
            forall j :: 0 <= j < |log| ==> !Touches(log, name, log[j])
    ensures DetailsOf(log, name).status == NeverRun ==> DetailsOf(log, name) == Details(NeverRun, None, None)
  {
    if forall j :: 0 <= j < |log| ==> !Touches(log, name, log[j]) {
      UntouchedPrefixNeverRun(log, name, |log|);
    } else {
      var i :| 0 <= i < |log| && Touches(log, name, log[i]);
      TouchedNeverRunsAgain(log, name, i, |log|);
    }
  }

  /**
    A failure of `name` ends the pass: the result is `fail` with the
    failed construct's input, and no later event changes it.
  */
  lemma FailureIsFinal(log: seq<ExecutionEvent>, name: string, i: nat)
    requires Correlatable(log) && i < |log|
    requires FailsFor(log, name, log[i])
    requires forall j :: 0 <= j < i ==> !FailsFor(log, name, log[j])
    ensures forall n :: i < n <= |log| ==>
              After(log, name, n) == Stopped(Resolved(log, Fail, log[i], After(log, name, i).details))
    ensures DetailsOf(log, name).status == Fail
    ensures DetailsOf(log, name).input == Some(Ancestor(log, log[i]).details.input)
  {
    RunningUnlessFailed(log, name, i);
    var d := After(log, name, i).details;
    assert After(log, name, i + 1) == Step(log, name, log[i], d);
    forall n | i < n <= |log|
      ensures After(log, name, n) == Stopped(Resolved(log, Fail, log[i], After(log, name, i).details))
    {
      StoppedIsFinal(log, name, i + 1, n);
    }
  }

  /**
    With no failure of `name` before it, the last event attributed to
    `name` decides the status and the input; the output is that event's
    Exited descendant's, or the one recorded before it.
  */
  lemma LastWriterWins(log: seq<ExecutionEvent>, name: string, i: nat)
    requires Correlatable(log) && i < |log|
    requires Touches(log, name, log[i])
    requires forall j :: 0 <= j < i ==> !FailsFor(log, name, log[j])
    requires forall j :: i < j < |log| ==> !Touches(log, name, log[j])
    ensures DetailsOf(log, name) == Step(log, name, log[i], After(log, name, i).details).details
    ensures DetailsOf(log, name).status == TouchStatus(log[i].eventType)
    ensures DetailsOf(log, name).input == TouchInput(log, log[i])
    ensures (IsCompletion(log[i].eventType) || IsFailure(log[i].eventType)) ==>
              DetailsOf(log, name).output == (match Descendant(log, log[i])
                                              case Some(x) => Some(x.details.output)
                                              case None => After(log, name, i).details.output)
  {
    RunningUnlessFailed(log, name, i);
    LaterUntouchedKeep(log, name, i + 1, |log|);
  }

  lemma {:induction false} LaterUntouchedKeep(log: seq<ExecutionEvent>, name: string, i: nat, n: nat)
    requires Correlatable(log) && i <= n <= |log|
    requires forall j :: i <= j < |log| ==> !Touches(log, name, log[j])
    ensures After(log, name, n).details == After(log, name, i).details
    ensures After(log, name, n).Running? == After(log, name, i).Running?
    decreases n
  {
    if n > i {
      LaterUntouchedKeep(log, name, i, n - 1);
      UntouchedStepKeeps(log, name, log[n - 1], After(log, name, n - 1).details);
    }
  }

  /**
    The correlator over one execution's log; the log is never changed.
  */
  class History {
    const events: seq<ExecutionEvent>

    constructor(events: seq<ExecutionEvent>)
      ensures this.events == events
    {
      this.events := events;
    }

    /** The first event with the given id, or none. */
    method GetById(id: string) returns (r: Option<ExecutionEvent>)
      ensures r == FindById(events, id)
    {
      for i := 0 to |events|
        invariant forall j :: 0 <= j < i ==> events[j].id != id
      {
        if events[i].id == id {
          return Some(events[i]);
        }
      }
      return None;
    }

    /** The first event whose predecessor is the given id, or none. */
    method GetByPreviousId(id: string) returns (r: Option<ExecutionEvent>)
      ensures r == FindByPreviousId(events, id)
    {
      for i := 0 to |events|
        invariant forall j :: 0 <= j < i ==> events[j].previousEventId != id
      {
        if events[i].previousEventId == id {
          return Some(events[i]);
        }
      }
      return None;
    }

    /** One pass over the log tracking status, input and output of `name`. */
    method GetDetails(name: string) returns (d: Details)
      requires Correlatable(events)
      ensures d == DetailsOf(events, name)
    {
      d := Details(NeverRun, None, None);
      var i := 0;
      while i < |events|
        invariant i <= |events| && After(events, name, i) == Running(d)
      {
        var p := Visit(name, i, d);
        d := p.details;
        if p.Stopped? {
          StoppedIsFinal(events, name, i + 1, |events|);
          return;
        }
        i := i + 1;
      }
    }

    /**
      One iteration of the loop of `GetDetails` over `event`: the Entered
      test, the completion test, then the failure test, which stops the pass.
    */
    method Visit(name: string, i: nat, d0: Details) returns (p: Progress)
      requires Correlatable(events) && i < |events|
      requires After(events, name, i) == Running(d0)
      ensures p == After(events, name, i + 1)
    {
      var event := events[i];
      CorrelatableAt(events, event);
      var status, input, output := d0.status, d0.input, d0.output;
      if IsStatusEntered(event.eventType) {
        if event.details.name == name {
          status := Indeterminate;
          input := Some(event.details.input);
        }
      }
      ghost var d1 := Details(status, input, output);
      assert d1 == OnEntered(name, event, d0);
      if IsCompletion(event.eventType) {
        var eventType := GetType(event.eventType);
        var startEvent := InputEvent(events, Some(event), eventType).value;
        var endEvent := OutputEvent(events, Some(event), eventType);
        assert startEvent == Ancestor(events, event) && endEvent == Descendant(events, event);
        if startEvent.details.name == name {
          status := Success;
          input := Some(startEvent.details.input);
          if endEvent.Some? {
            output := Some(endEvent.value.details.output);
          }
        }
      }
      assert Details(status, input, output) == OnCompletion(events, name, event, d1);
      if IsFailure(event.eventType) {
        var eventType := GetType(event.eventType);
        var startEvent := InputEvent(events, Some(event), eventType).value;
        var endEvent := OutputEvent(events, Some(event), eventType);
        assert startEvent == Ancestor(events, event) && endEvent == Descendant(events, event);
        if startEvent.details.name == name {
          status := Fail;
          input := Some(startEvent.details.input);
          if endEvent.Some? {
            output := Some(endEvent.value.details.output);
          }
          return Stopped(Details(status, input, output));
        }
      }
      p := Running(Details(status, input, output));
    }

    /** The status component of the details of `name`. */
    method GetStatus(name: string) returns (s: Status)
      requires Correlatable(events)
      ensures s == DetailsOf(events, name).status
    {
      var d := GetDetails(name);
      s := d.status;
    }
  }
}
