/** The journal's data model (internal/journal/journal.go): the four string-valued
    enumerations, a `Step` and a `JournalEntry`. Times are nanosecond counts; the zero
    count stands for Go's zero `time.Time`. */
module Entries {
  import opened Wrappers

  datatype StepStatus = StepPending | StepRunning | StepCompleted | StepFailed {
    function Name(): string {
      match this
      case StepPending => "pending"
      case StepRunning => "running"
      case StepCompleted => "completed"
      case StepFailed => "failed"
    }

    function Index(): nat {
      match this
      case StepPending => 0
      case StepRunning => 1
      case StepCompleted => 2
      case StepFailed => 3
    }
  }

  function StepStatusFromIndex(n: nat): (r: Option<StepStatus>)
    ensures r.Some? <==> n < 4
    ensures r.Some? ==> r.value.Index() == n
  {
    if n == 0 then Some(StepPending)
    else if n == 1 then Some(StepRunning)
    else if n == 2 then Some(StepCompleted)
    else if n == 3 then Some(StepFailed)
    else None
  }

  datatype StepType = TypeVerify | TypeCopy | TypeMove | TypeSymlink | TypeGit {
    function Name(): string {
      match this
      case TypeVerify => "verify"
      case TypeCopy => "copy"
      case TypeMove => "move"
      case TypeSymlink => "symlink"
      case TypeGit => "git"
    }

    function Index(): nat {
      match this
      case TypeVerify => 0
      case TypeCopy => 1
      case TypeMove => 2
      case TypeSymlink => 3
      case TypeGit => 4
    }
  }

  function StepTypeFromIndex(n: nat): (r: Option<StepType>)
    ensures r.Some? <==> n < 5
    ensures r.Some? ==> r.value.Index() == n
  {
    if n == 0 then Some(TypeVerify)
    else if n == 1 then Some(TypeCopy)
    else if n == 2 then Some(TypeMove)
    else if n == 3 then Some(TypeSymlink)
    else if n == 4 then Some(TypeGit)
    else None
  }

  /** The operation kinds as declared; the `commit` and `push` kinds that other commands
      refer to are not among them. */
  datatype OperationType = OpAdd | OpRemove | OpLink {
    function Name(): string {
      match this
      case OpAdd => "add"
      case OpRemove => "remove"
      case OpLink => "link"
    }

    function Index(): nat {
      match this
      case OpAdd => 0
      case OpRemove => 1
      case OpLink => 2
    }
  }

  function OperationTypeFromIndex(n: nat): (r: Option<OperationType>)
    ensures r.Some? <==> n < 3
    ensures r.Some? ==> r.value.Index() == n
  {
    if n == 0 then Some(OpAdd)
    else if n == 1 then Some(OpRemove)
    else if n == 2 then Some(OpLink)
    else None
  }

  /** The three partitions of the journal; the name is also the partition's directory. */
  datatype EntryState = StateCurrent | StateCompleted | StateFailed {
    function Name(): string {
      match this
      case StateCurrent => "current"
      case StateCompleted => "completed"
      case StateFailed => "failed"
    }

    function Index(): nat {
      match this
      case StateCurrent => 0
      case StateCompleted => 1
      case StateFailed => 2
    }

    predicate Terminal() {
      this != StateCurrent
    }
  }

  function EntryStateFromIndex(n: nat): (r: Option<EntryState>)
    ensures r.Some? <==> n < 3
    ensures r.Some? ==> r.value.Index() == n
  {
    if n == 0 then Some(StateCurrent)
    else if n == 1 then Some(StateCompleted)
    else if n == 2 then Some(StateFailed)
    else None
  }

  /** The partitions in the order `GetEntry` and an unfiltered `ListEntries` visit them. */
  const AllStates: seq<EntryState> := [StateCurrent, StateCompleted, StateFailed]

  /** Looking an entry state up by its name: the inverse of `EntryState.Name`. */
  function EntryStateFromName(s: string): (r: Option<EntryState>)
    ensures r.Some? ==> r.value.Name() == s
    ensures forall st: EntryState :: st.Name() == s ==> r == Some(st)
  {
    if s == "current" then Some(StateCurrent)
    else if s == "completed" then Some(StateCompleted)
    else if s == "failed" then Some(StateFailed)
    else None
  }

  /** Looking an operation type up by its name: the inverse of `OperationType.Name`. */
  function OperationTypeFromName(s: string): (r: Option<OperationType>)
    ensures r.Some? ==> r.value.Name() == s
    ensures forall op: OperationType :: op.Name() == s ==> r == Some(op)
  {
    if s == "add" then Some(OpAdd)
    else if s == "remove" then Some(OpRemove)
    else if s == "link" then Some(OpLink)
    else None
  }

  datatype Step = Step(
    stepType: StepType,
    status: StepStatus,
    error: string,
    description: string,
    source: string,
    target: string,
    details: string,
    startTime: nat,
    endTime: nat)

  datatype Entry = Entry(
    id: string,
    timestamp: nat,
    operation: OperationType,
    source: string,
    target: string,
    state: EntryState,
    checksum: string,
    steps: seq<Step>)
}
