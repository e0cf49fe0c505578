/** Which handles a cancel tells to stop, told from the store and the suspended calls. */
module SprintCancels {
  import opened Prelude
  import opened Scheduler
  import opened SprintTicks
  import opened SprintInvariants
  import opened SprintEvents

  /** Some suspended call waits for the handle of the task. */
  predicate HandleLive(s: State, t: TaskId) {
    exists a :: a in s.acts && s.acts[a].Awaiting? && s.acts[a].task == t
  }

  /** Over every run: a cancel of a sprint that is not over tells exactly the tasks on its
      own list whose handles are awaited. They are in progress, and none is on the list of
      another sprint. */
  lemma ToldAreItsOwn(c: Config, es: seq<Event>, id: SprintId, t: TaskId, other: SprintId)
    requires id in Run(c, es).sprints && !Run(c, es).sprints[id].state.Terminal()
    ensures var s, entry := Run(c, es), BeginCancel(Run(c, es), id);
            && entry.Stopping?
            && (t in entry.told <==> t in s.sprints[id].tasks && HandleLive(s, t))
            && (t in entry.told ==> t in s.tasks && s.tasks[t].state.InProgress?)
            && (other in s.sprints && other != id && t in s.sprints[other].tasks ==> t !in entry.told)
  {
    var s := Run(c, es);
    AlwaysInv(c, es);
    assert TaskOk(s, t) && Listed(s, t) && Owns(s, id) && Owns(s, other) && EntryOk(s, t);
    if t in s.running { RunningIsAwaited(s, t); }
    if HandleLive(s, t) { AwaitedIsRunning(s, t); }
  }

  lemma RunningIsAwaited(s: State, t: TaskId)
    requires Inv(s) && t in s.running
    ensures HandleLive(s, t)
  {
    assert EntryOk(s, t);
    var a :| a in s.acts && s.acts[a].task == t;
    assert ActOk(s, a);
  }

  lemma AwaitedIsRunning(s: State, t: TaskId)
    requires Inv(s) && HandleLive(s, t)
    ensures t in s.running && t in s.tasks && s.running[t].sprint == s.tasks[t].sprint
  {
    var a :| a in s.acts && s.acts[a].Awaiting? && s.acts[a].task == t;
    assert ActOk(s, a) && TaskOk(s, t);
  }
}
