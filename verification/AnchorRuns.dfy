/** Runs of the anchor manager over any tasks and files: what each tracked file makes of them. */
module AnchorRuns {
  import opened Sequences
  import opened InsertionMap
  import opened Lru
  import opened Fnv
  import opened AnchorDocuments
  import opened AnchorStateManager
  import opened AnchorManager

  /** The operations of the manager, a reconciliation with the document it stores. */
  datatype Op =
    | Reconcile(task: string, path: string, lines: seq<Text>, result: Document)
    | Touched(task: string)                  // isTracking, getAnchors, a reconciliation that does not return
    | Cleared(task: string, path: string)
    | Forgotten(taskId: Option<string>)

  function Step(s: Storage, op: Op): Storage {
    match op
    case Reconcile(task, path, _, d) => PutDocument(s, task, path, d)
    case Touched(task) => TouchTask(s, task)
    case Cleared(task, path) => DropFile(s, task, path)
    case Forgotten(taskId) => Forget(s, taskId)
  }

  /** The stored document follows from the one before, or from nothing. */
  ghost predicate Allowed(s: Storage, op: Op) {
    op.Reconcile? ==>
      match Lookup(s, op.task, op.path)
      case None => FirstSeen(op.lines, op.result)
      case Some(before) => Reconciled(before, op.lines, op.result)
  }

  function Run(ops: seq<Op>): Storage {
    if ops == [] then [] else Step(Run(ops[..|ops| - 1]), ops[|ops| - 1])
  }

  ghost predicate IsRun(ops: seq<Op>) {
    ops == [] || (IsRun(ops[..|ops| - 1]) && Allowed(Run(ops[..|ops| - 1]), ops[|ops| - 1]))
  }

  predicate IsOwn(op: Op, task: string, path: string) {
    op.Reconcile? && op.task == task && op.path == path
  }

  /** The reconciliations of a file since it was last not tracked. */
  function Since(ops: seq<Op>, task: string, path: string): seq<Op> {
    if ops == [] then []
    else
      var before, op := Since(ops[..|ops| - 1], task, path), ops[|ops| - 1];
      if IsOwn(op, task, path) then before + [op]
      else if Lookup(Run(ops), task, path).None? then [] else before
  }

  function Documents(own: seq<Op>): seq<Document>
    requires forall i :: 0 <= i < |own| ==> own[i].Reconcile?
  {
    seq(|own|, i requires 0 <= i < |own| => own[i].result)
  }

  function Texts(own: seq<Op>): seq<seq<Text>>
    requires forall i :: 0 <= i < |own| ==> own[i].Reconcile?
  {
    seq(|own|, i requires 0 <= i < |own| => own[i].lines)
  }

  // ----- One operation

  lemma StepKeeps(s: Storage, op: Op, task: string, path: string)
    requires StorageOk(s) && Allowed(s, op)
    ensures StorageOk(Step(s, op))
    ensures if IsOwn(op, task, path) then Lookup(Step(s, op), task, path) == Some(op.result)
            else KeptOrLost(s, Step(s, op), task, path)
  {
    match op
    case Reconcile(t, p, lines, d) =>
      PutDocumentKeeps(s, t, p, d);
      if !IsOwn(op, task, path) { PutKeeps(s, t, p, d, task, path); }
    case Touched(t) => TouchKeeps(s, t, task, path);
    case Cleared(t, p) => DropKeeps(s, t, p, task, path);
    case Forgotten(taskId) => ForgetKeeps(s, taskId, task, path);
  }

  /** A reset without a task id forgets every file; one with a task id that task's files and no other. */
  lemma ForgetForgets(s: Storage, taskId: Option<string>, task: string, path: string)
    requires StorageOk(s)
    ensures Lookup(Forget(s, taskId), task, path) ==
      if taskId == None || taskId == Some("") || taskId == Some(task) then None else Lookup(s, task, path)
  {
    if taskId.Some? && taskId.value != "" { GetDelete(s, taskId.value, task); }
  }

  // ----- Runs

  ghost predicate AllOwn(own: seq<Op>, task: string, path: string) {
    forall i :: 0 <= i < |own| ==> IsOwn(own[i], task, path)
  }

  /** These reconciliations are a history, whose last document is the one tracked. */
  ghost predicate Accounts(own: seq<Op>, s: Storage, task: string, path: string) {
    AllOwn(own, task, path) &&
    if own == [] then Lookup(s, task, path) == None
    else Lookup(s, task, path) == Some(own[|own| - 1].result) && IsHistory(Documents(own), Texts(own))
  }

  lemma StepAccounts(s: Storage, own: seq<Op>, op: Op, task: string, path: string)
    requires StorageOk(s) && Allowed(s, op) && Accounts(own, s, task, path)
    ensures StorageOk(Step(s, op))
    ensures IsOwn(op, task, path) ==> Accounts(own + [op], Step(s, op), task, path)
    ensures !IsOwn(op, task, path) ==>
      Accounts(if Lookup(Step(s, op), task, path).None? then [] else own, Step(s, op), task, path)
  {
    StepKeeps(s, op, task, path);
    if IsOwn(op, task, path) {
      SinceGrows(own, op);
      assert AllOwn(own + [op], task, path);
    }
  }

  /** A file is tracked exactly if it was reconciled since it was last not tracked, and these
      reconciliations are a history, whose last document is the one tracked. */
  lemma {:induction false} TrackedFileHasHistory(ops: seq<Op>, task: string, path: string)
    requires IsRun(ops)
    ensures StorageOk(Run(ops)) && Accounts(Since(ops, task, path), Run(ops), task, path)
  {
    if ops != [] {
      var rest := ops[..|ops| - 1];
      TrackedFileHasHistory(rest, task, path);
      StepAccounts(Run(rest), Since(rest, task, path), ops[|ops| - 1], task, path);
    }
  }

  lemma SinceGrows(before: seq<Op>, op: Op)
    requires op.Reconcile? && forall i :: 0 <= i < |before| ==> before[i].Reconcile?
    requires before == [] ==> FirstSeen(op.lines, op.result)
    requires before != [] ==>
      IsHistory(Documents(before), Texts(before)) && Reconciled(before[|before| - 1].result, op.lines, op.result)
    ensures IsHistory(Documents(before + [op]), Texts(before + [op]))
  {
    assert Documents(before + [op]) == Documents(before) + [op.result];
    assert Texts(before + [op]) == Texts(before) + [op.lines];
    if before == [] {
      HistoryBegins(op.result, op.lines);
    } else {
      HistoryGrows(Documents(before), Texts(before), op.result, op.lines);
    }
  }

  /** Whatever is done to other files and tasks in between: while a file stays tracked, an anchor word that
      has left it never returns. */
  lemma AnchorNeverReturnsWhileTracked(ops: seq<Op>, task: string, path: string, i: nat, j: nat, k: nat, w: Anchor)
    requires IsRun(ops) && i <= j <= k < |Since(ops, task, path)|
    requires var own := Since(ops, task, path);
      own[i].Reconcile? && own[j].Reconcile? && w in own[i].result.anchors && w !in own[j].result.anchors
    ensures var last := Since(ops, task, path)[k];
      IsOwn(last, task, path) && w !in last.result.anchors
  {
    TrackedFileHasHistory(ops, task, path);
    var own := Since(ops, task, path);
    AnchorNeverReturns(Documents(own), Texts(own), i, j, k, w);
  }
}
