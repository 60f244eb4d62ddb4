/**
 * The minimal workflow engine: one work item through one attempt, driving the work store
 * according to whatever the agent adapter answers at each call.
 */
module WorkflowEngine {
  import opened Common
  import opened WorkItems
  import opened WorkStore

  datatype RunStatus =
    | Created | RunQueued | RunStarting | RunRunning | WaitingForTool | WaitingForInput | RunCompleted | RunFailed
    | Cancelling | RunCancelled | RunInterrupted | RunUnknown

  /** None is a throw. `launch` is the status in the handle `execute` returns; `collect` is the later status,
      or a throw of any of the four calls that gather the result. */
  datatype Adapter = Adapter(launch: Option<RunStatus>, runId: string, collect: Option<RunStatus>)

  datatype WorkPackage = WorkPackage(projectId: string, workItemId: ItemId)

  datatype EngineError = NotReady | PackageMismatch | StartRejected(error: StoreError)

  datatype Ending = Ending(attempt: AttemptState, item: Lifecycle)

  function MapResult(status: RunStatus): Ending {
    match status
    case RunCompleted => Ending(Succeeded, VerificationRequired)
    case RunFailed => Ending(Failed, RepairRequired)
    case RunInterrupted => Ending(Interrupted, RecoveryRequired)
    case RunCancelled => Ending(AttemptState.Cancelled, RecoveryRequired)
    case _ => Ending(Failed, RepairRequired)
  }

  /** Where the two state machines end for each adapter behaviour. */
  function EndingFor(adapter: Adapter): Ending {
    match adapter.launch
    case None => Ending(Failed, RecoveryRequired)
    case Some(WaitingForInput) => Ending(Interrupted, Waiting)
    case Some(RunUnknown) => Ending(Unknown, RecoveryRequired)
    case Some(_) => if adapter.collect.None? then Ending(Failed, RecoveryRequired) else MapResult(adapter.collect.value)
  }

  /**
   * Every ending is reachable from RUNNING in both tables, leaves the attempt open only as UNKNOWN, and never completes
   * the item.
   */
  lemma EndingsAreLegal(adapter: Adapter)
    ensures var e := EndingFor(adapter);
      && WorkItemMay(Lifecycle.Running, e.item) && AttemptMay(AttemptState.Running, e.attempt)
      && e.item != Completed
      && (IsActive(e.attempt) <==> e.attempt == Unknown)
      && (e.attempt == Unknown <==> adapter.launch == Some(RunUnknown))
      && (e.attempt == Unknown ==> e.item == RecoveryRequired)
      && (e.item == VerificationRequired <==> e.attempt == Succeeded)
  {
    if adapter.launch.Some? && adapter.collect.Some? { match adapter.collect.value { case _ => } }
  }

  /** The launch neither threw, nor waits for input, nor left the agent's run unknown. */
  predicate Launched(adapter: Adapter) {
    adapter.launch.Some? && adapter.launch != Some(WaitingForInput) && adapter.launch != Some(RunUnknown)
  }

  predicate Collected(adapter: Adapter, status: RunStatus) { Launched(adapter) && adapter.collect == Some(status) }

  /** Of attempt and item together: exactly when they end in which state, by what the adapter did. */
  predicate EndsAs(adapter: Adapter, attempt: AttemptState, item: Lifecycle) {
    && (attempt == Succeeded <==> Collected(adapter, RunCompleted))
    && (attempt == AttemptState.Cancelled <==> Collected(adapter, RunCancelled))
    && (attempt == Interrupted <==> adapter.launch == Some(WaitingForInput) || Collected(adapter, RunInterrupted))
    && (attempt == Unknown <==> adapter.launch == Some(RunUnknown))
    && (attempt == Failed <==>
          || adapter.launch.None?
          || (Launched(adapter) && adapter.collect !in {Some(RunCompleted), Some(RunCancelled), Some(RunInterrupted)}))
    && (item == VerificationRequired <==> Collected(adapter, RunCompleted))
    && (item == Waiting <==> adapter.launch == Some(WaitingForInput))
    && (item == RecoveryRequired <==>
          || adapter.launch.None? || adapter.launch == Some(RunUnknown) || (Launched(adapter) && adapter.collect.None?)
          || Collected(adapter, RunCancelled) || Collected(adapter, RunInterrupted))
    && (item == RepairRequired <==>
          && Launched(adapter) && adapter.collect.Some?
          && adapter.collect.value !in {RunCompleted, RunCancelled, RunInterrupted})
  }

  lemma EndingTells(adapter: Adapter)
    ensures EndsAs(adapter, EndingFor(adapter).attempt, EndingFor(adapter).item)
  {
    if Launched(adapter) && adapter.collect.Some? { match adapter.collect.value { case _ => } }
  }

  class MinimalWorkflowEngine {
    const store: WorkStore

    constructor (store: WorkStore)
      ensures this.store == store
    {
      this.store := store;
    }

    /** `transitionAttempt` by the only writer: its read is the current row. */
    method MoveAttempt(id: AttemptId, to: AttemptState)
      requires id in store.attempts && AttemptMay(store.attempts[id].state, to)
      modifies store
      ensures Ok(store.View()) == CommitAttempt(old(store.View()), id, old(store.attempts)[id], to)
    {
      var error := store.TransitionAttempt(id, to, Some(store.attempts[id]));
      assert error.None?;
    }

    method MoveItem(id: ItemId, expected: nat, to: Lifecycle)
      requires id in store.items && store.items[id].revision == expected && WorkItemMay(store.items[id].lifecycle, to)
      modifies store
      ensures Ok(store.View()) == CommitItem(old(store.View()), id, expected, to)
    {
      var error := store.TransitionWorkItem(id, expected, to, Some(store.items[id]));
      assert error.None?;
    }

    /** The attempt and the item leave RUNNING together. */
    method Conclude(id: ItemId, attempt: AttemptId, revision: nat, end: Ending)
      requires attempt in store.attempts && store.attempts[attempt].workItemId == id
      requires store.attempts[attempt].state == AttemptState.Running && AttemptMay(AttemptState.Running, end.attempt)
      requires id in store.items && store.items[id].revision == revision
        && store.items[id].currentAttempt == Some(attempt)
      requires store.items[id].lifecycle == Lifecycle.Running && WorkItemMay(Lifecycle.Running, end.item)
      modifies store
      ensures store.items == old(store.items)[id := WorkItem(old(store.items)[id].projectId, end.item, revision + 1,
                if IsActive(end.attempt) then Some(attempt) else None)]
      ensures store.attempts ==
        old(store.attempts)[attempt :=
          old(store.attempts)[attempt].(state := end.attempt, active := IsActive(end.attempt))]
    {
      MoveAttempt(attempt, end.attempt);
      MoveItem(id, revision, end.item);
    }

    /** Up to RUNNING: claim the item, walk the attempt to RUNNING, then the item. */
    method Launch(id: ItemId, attempt: AttemptId, revision: nat) returns (error: Option<StoreError>)
      requires attempt !in store.attempts
      modifies store
      ensures error == var e := CheckItem(Read(old(store.items), id), revision, Assigned);
        if e.Some? then e else if HasActive(old(store.attempts), id) then Some(ActiveAttemptExists) else None
      ensures error.Some? ==> store.View() == old(store.View())
      ensures error.None? ==>
        && store.items ==
          old(store.items)[id :=
            WorkItem(old(store.items)[id].projectId, Lifecycle.Running, revision + 2, Some(attempt))]
        && store.attempts == old(store.attempts)[attempt :=
             Attempt(id, MaxNumber(old(store.attempts), id) + 1, AttemptState.Running, true, None)]
    {
      error := store.StartAttempt(NewAttempt(attempt, id, NotStarted), revision, Read(store.items, id),
        HasActive(store.attempts, id));
      if error.Some? { return; }
      MoveAttempt(attempt, Starting);
      MoveAttempt(attempt, AttemptState.Running);
      MoveItem(id, revision + 1, Lifecycle.Running);
    }

    /**
     * `execute` as the sole writer. It is refused only at the door, with nothing changed; once past it no
     * transition is ever rejected, the item ends exactly three revisions on, and nothing else is touched.
     */
    method Execute(id: ItemId, item: WorkItem, package: WorkPackage, attempt: AttemptId, adapter: Adapter)
      returns (r: Result<Ending, EngineError>)
      requires attempt !in store.attempts
      modifies store
      ensures r.Err? ==> store.View() == old(store.View())
      ensures r == Err(NotReady) <==> item.lifecycle != Ready
      ensures r == Err(PackageMismatch) <==> item.lifecycle == Ready && package != WorkPackage(item.projectId, id)
      ensures r.Ok? <==>
        && item.lifecycle == Ready && package == WorkPackage(item.projectId, id)
        && CheckItem(Read(old(store.items), id), item.revision, Assigned).None? && !HasActive(old(store.attempts), id)
      ensures r.Ok? ==>
        && r.value == EndingFor(adapter) && EndsAs(adapter, r.value.attempt, r.value.item)
        && store.items.Keys == old(store.items).Keys && store.attempts.Keys == old(store.attempts).Keys + {attempt}
        && (forall i | i in store.items && i != id :: store.items[i] == old(store.items)[i])
        && (forall a | a in old(store.attempts) :: store.attempts[a] == old(store.attempts)[a])
        && store.items[id].revision == item.revision + 3 && store.items[id].lifecycle == r.value.item
        && store.attempts[attempt].state == r.value.attempt
        && store.attempts[attempt].active == (r.value.attempt == Unknown)
        && store.attempts[attempt].agentRun == (if adapter.launch.Some? then Some(adapter.runId) else None)
        && store.items[id].currentAttempt == (if r.value.attempt == Unknown then Some(attempt) else None)
    {
      if item.lifecycle != Ready { return Err(NotReady); }
      if package.projectId != item.projectId || package.workItemId != id { return Err(PackageMismatch); }
      var rejected := Launch(id, attempt, item.revision);
      if rejected.Some? { return Err(StartRejected(rejected.value)); }

      var revision := item.revision + 2;
      var end: Ending;
      EndingsAreLegal(adapter);
      EndingTells(adapter);
      if adapter.launch.None? {
        end := Ending(Failed, RecoveryRequired);
      } else {
        var bound := store.BindAgentRun(attempt, adapter.runId);
        assert bound.None?;
        if adapter.launch.value == WaitingForInput {
          end := Ending(Interrupted, Waiting);
        } else if adapter.launch.value == RunUnknown {
          end := Ending(Unknown, RecoveryRequired);
        } else if adapter.collect.None? {
          end := Ending(Failed, RecoveryRequired);
        } else {
          end := MapResult(adapter.collect.value);
        }
      }
      Conclude(id, attempt, revision, end);
      return Ok(end);
    }
  }
}
