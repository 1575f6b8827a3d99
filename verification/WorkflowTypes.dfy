/** The entities shared by every part of the task manager: workflow definitions,
    stored DAG documents and the status table of a node. */
module WorkflowTypes {

  datatype Option<+T> = None | Some(value: T)

  datatype Result<+T, +E> = Ok(value: T) | Err(error: E)

  type NodeId = string
  type ArtifactId = string

  // The status enumeration, and the two kinds of dependency.  OtherType stands for
  // any value that slipped past input validation.
  datatype DagNodeStatus = Pending | Queued | Running | Failed | Succeeded | Canceled | OnHold
  datatype DependencyType = TaskType | ArtifactType | OtherType

  datatype Dependency = Dependency(kind: DependencyType, id: string)
  datatype CompletionCriteria = CompletionCriteria(kind: DependencyType, id: string)
  datatype RetryPolicy = RetryPolicy(maxRetryCount: nat, retryDelay: nat, exponentialBackoff: bool)
  datatype ErrorAction = RetryAction | EscalateAction | ErrorAction

  // Task parameters are opaque to the task manager; only the render strategy fills them.
  datatype Parameters =
    | NoParameters
    | CutParameters(keyName: string, cutFrom: real, cutTo: real)
    | SpliceParameters(fileKeys: seq<string>)

  datatype Task = Task(
    name: string,
    dependencies: seq<Dependency>,
    parameters: Parameters,
    results: seq<ArtifactId>,
    priority: int,
    retryPolicy: RetryPolicy,
    timeout: nat,
    onError: ErrorAction,
    completionCriteria: seq<CompletionCriteria>)

  datatype WorkflowDefinition = WorkflowDefinition(id: string, name: string, tasks: seq<Task>)

  // The stored documents.
  datatype EdgeDto = EdgeDto(fromId: NodeId, toId: NodeId, conditionType: DependencyType,
                             artifactId: Option<ArtifactId>)
  datatype NodeDto = NodeDto(id: NodeId, edges: seq<EdgeDto>, task: Task, status: DagNodeStatus, retryCount: nat)
  datatype DagDto = DagDto(id: string, nodes: seq<NodeDto>, workflowDefinitionId: string)

  /** The statuses from which a node may be moved to `target`. */
  function Proceeding(target: DagNodeStatus): set<DagNodeStatus> {
    match target
    case Queued => {Pending, Failed}
    case Running => {Queued, OnHold}
    case Succeeded => {Running}
    case Failed => {Running, Canceled}
    case Canceled => {Pending}
    case OnHold => {Pending, Queued}
    case Pending => {}
  }

  predicate Distinct<T(==)>(s: seq<T>) {
    forall i, j :: 0 <= i < j < |s| ==> s[i] != s[j]
  }

  function ToSet<T>(s: seq<T>): set<T> {
    set x | x in s
  }

  /** The elements of `s` that lie in `keep`, in their order in `s`. */
  function Select<T(==,!new)>(s: seq<T>, keep: set<T>): (r: seq<T>)
    ensures forall x :: x in r <==> x in s && x in keep
    ensures Distinct(s) ==> Distinct(r)
  {
    if s == [] then []
    else
      var rest := Select(s[1..], keep);
      assert forall x :: x in s <==> x == s[0] || x in s[1..];
      if s[0] in keep then [s[0]] + rest else rest
  }

  // ---------------------------------------------------------------- numbers in texts

  function Digit(d: nat): char
    requires d < 10
  {
    "0123456789"[d]
  }

  function Decimal(n: nat): (r: string)
    ensures r != []
    ensures |r| == 1 <==> n < 10
  {
    if n < 10 then [Digit(n)] else Decimal(n / 10) + [Digit(n % 10)]
  }

  /** The number that a decimal numeral denotes. */
  function Numeral(digits: string): int {
    if digits == [] then 0
    else 10 * Numeral(digits[..|digits| - 1]) + (digits[|digits| - 1] as int - '0' as int)
  }

  /** The numeral denotes the number, in decimal digits and without leading zeros. */
  lemma {:induction false} DecimalReads(n: nat)
    ensures Numeral(Decimal(n)) == n
    ensures forall c :: c in Decimal(n) ==> '0' <= c <= '9'
    ensures Decimal(n)[0] == '0' ==> n == 0
  {
    assert Digit(n % 10) as int == '0' as int + n % 10;
    if n >= 10 {
      DecimalReads(n / 10);
      assert Decimal(n)[..|Decimal(n)| - 1] == Decimal(n / 10);
    }
  }

  lemma {:induction false} DecimalInjective(m: nat, n: nat)
    requires Decimal(m) == Decimal(n)
    ensures m == n
  {
    var (a, b) := (Decimal(m), Decimal(n));
    assert a[|a| - 1] == Digit(m % 10) && b[|b| - 1] == Digit(n % 10);
    if m >= 10 {
      assert a[..|a| - 1] == Decimal(m / 10) && b[..|b| - 1] == Decimal(n / 10);
      DecimalInjective(m / 10, n / 10);
    }
  }
}
