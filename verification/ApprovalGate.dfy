/** The in-memory approval gate (src/orchestrator/approval-gate.ts): an architect waits
    for a verdict on its plan, a timeout, or an abort. */
module ApprovalGate {
  import opened Prelude

  type TaskId = string
  type WaiterId = nat
  type Signal = nat

  datatype Verdict = Approve | Reject | Cancel

  /** One call of `awaitApproval` that got as far as registering: its abort signal,
      whether its timer and its abort listener are live, the verdict that settled its
      promise, and how often the promise was resolved. */
  datatype Waiter = Waiter(task: TaskId, signal: Signal, timer: bool, listener: bool,
    answer: Option<Verdict>, resolves: nat)

  /** `pending` holds, per task, whose entry is registered. */
  datatype Gate = Gate(pending: map<TaskId, WaiterId>, waiters: seq<Waiter>, aborted: set<Signal>)

  const IDLE := Gate(map[], [], {})

  // ----- the operations -----

  function Answered(w: Waiter, verdict: Verdict): Waiter {
    w.(answer := if w.answer.None? then Some(verdict) else w.answer, resolves := w.resolves + 1)
  }

  /** `settle` of waiter `w`. It looks the entry up by task: it clears that entry's
      timer, takes that entry's listener off its own signal, and resolves its own promise. */
  function Settle(g: Gate, w: WaiterId, verdict: Verdict): (g': Gate)
    ensures |g'.waiters| == |g.waiters| && g'.aborted == g.aborted
  {
    if w >= |g.waiters| || g.waiters[w].task !in g.pending || g.pending[g.waiters[w].task] >= |g.waiters| then g
    else
      var task := g.waiters[w].task;
      var e := g.pending[task];
      var entry := g.waiters[e];
      var cleared :=
        g.waiters[e := entry.(timer := false, listener := entry.listener && entry.signal != g.waiters[w].signal)];
      g.(pending := g.pending - {task}, waiters := cleared[w := Answered(cleared[w], verdict)])
  }

  /** `resolve`. */
  function Resolve(g: Gate, task: TaskId, verdict: Verdict): (g': Gate)
    ensures |g'.waiters| == |g.waiters| && g'.aborted == g.aborted
  {
    if task !in g.pending then g else Settle(g, g.pending[task], verdict)
  }

  /** `awaitApproval`; None when the signal was aborted before. */
  function Await(g: Gate, task: TaskId, signal: Signal): (Gate, Option<WaiterId>) {
    if signal in g.aborted then (g, None)
    else
      var g1 := Resolve(g, task, Cancel);
      (g1.(pending := g1.pending[task := |g1.waiters|],
           waiters := g1.waiters + [Waiter(task, signal, true, true, None, 0)]), Some(|g1.waiters|))
  }

  /** A live timer fires. */
  function FireTimer(g: Gate, w: WaiterId): Gate {
    if w >= |g.waiters| || !g.waiters[w].timer then g
    else Settle(g.(waiters := g.waiters[w := g.waiters[w].(timer := false)]), w, Cancel)
  }

  /** One listener is called, once; listeners removed in the meantime are not. */
  function FireListener(g: Gate, signal: Signal, w: WaiterId): (g': Gate)
    ensures |g'.waiters| == |g.waiters| && g'.aborted == g.aborted
  {
    if w >= |g.waiters| || !g.waiters[w].listener || g.waiters[w].signal != signal then g
    else Settle(g.(waiters := g.waiters[w := g.waiters[w].(listener := false)]), w, Cancel)
  }

  function FireListeners(g: Gate, signal: Signal, from: WaiterId): Gate
    decreases |g.waiters| - from
  {
    if from >= |g.waiters| then g else FireListeners(FireListener(g, signal, from), signal, from + 1)
  }

  function Abort(g: Gate, signal: Signal): Gate {
    if signal in g.aborted then g else FireListeners(g.(aborted := g.aborted + {signal}), signal, 0)
  }

  /** `resolve(task, 'cancel')` for each task of a list. */
  function CancelAll(g: Gate, tasks: seq<TaskId>): Gate
    decreases |tasks|
  {
    if tasks == [] then g else CancelAll(Resolve(g, tasks[0], Cancel), tasks[1..])
  }

  // ----- the object -----

  class ControlPlaneApprovalGate {
    var pending: map<TaskId, WaiterId>
    var waiters: seq<Waiter>
    var aborted: set<Signal>

    constructor ()
      ensures View() == IDLE
    {
      pending, waiters, aborted := map[], [], {};
    }

    function View(): Gate
      reads this
    {
      Gate(pending, waiters, aborted)
    }

    method SettleWaiter(w: WaiterId, verdict: Verdict)
      modifies this
      ensures View() == Settle(old(View()), w, verdict)
    {
      if w >= |waiters| || waiters[w].task !in pending || pending[waiters[w].task] >= |waiters| { return; }
      var task, signal := waiters[w].task, waiters[w].signal;
      var e := pending[task];
      waiters :=
        waiters[e := waiters[e].(timer := false, listener := waiters[e].listener && waiters[e].signal != signal)];
      pending := pending - {task};
      waiters := waiters[w := Answered(waiters[w], verdict)];
    }

    method AwaitApproval(task: TaskId, signal: Signal) returns (id: Option<WaiterId>)
      modifies this
      ensures (View(), id) == Await(old(View()), task, signal)
    {
      if signal in aborted { return None; }
      if task in pending { SettleWaiter(pending[task], Cancel); }
      id := Some(|waiters|);
      pending := pending[task := |waiters|];
      waiters := waiters + [Waiter(task, signal, true, true, None, 0)];
    }

    method ResolveTask(task: TaskId, verdict: Verdict)
      modifies this
      ensures View() == Resolve(old(View()), task, verdict)
    {
      if task !in pending { return; }
      SettleWaiter(pending[task], verdict);
    }

    /** The timeout callback of waiter `w`. */
    method TimerFired(w: WaiterId)
      modifies this
      ensures View() == FireTimer(old(View()), w)
    {
      if w >= |waiters| || !waiters[w].timer { return; }
      waiters := waiters[w := waiters[w].(timer := false)];
      SettleWaiter(w, Cancel);
    }

    /** The abort event of a signal calls the listeners that are still there, in order. */
    method SignalAborted(signal: Signal)
      modifies this
      ensures View() == Abort(old(View()), signal)
    {
      if signal in aborted { return; }
      aborted := aborted + {signal};
      ghost var start := View();
      var w := 0;
      while w < |waiters|
        invariant FireListeners(View(), signal, w) == FireListeners(start, signal, 0)
        decreases |waiters| - w
      {
        if waiters[w].listener && waiters[w].signal == signal {
          waiters := waiters[w := waiters[w].(listener := false)];
          SettleWaiter(w, Cancel);
        }
        w := w + 1;
      }
    }

    /** `drain`. Every pending awaiter is cancelled; nothing stays pending. */
    method Drain()
      modifies this
      ensures exists tasks :: (forall t :: t in tasks <==> t in old(pending)) && View() == CancelAll(old(View()), tasks)
    {
      var left := pending.Keys;
      ghost var tasks: seq<TaskId> := [];
      while left != {}
        invariant left <= old(pending).Keys
        invariant forall t :: t in tasks <==> t in old(pending) && t !in left
        invariant View() == CancelAll(old(View()), tasks)
        decreases |left|
      {
        var t :| t in left;
        left := left - {t};
        CancelAllSnoc(old(View()), tasks, t);
        tasks := tasks + [t];
        ResolveTask(t, Cancel);
      }
    }
  }

  lemma {:induction false} CancelAllSnoc(g: Gate, tasks: seq<TaskId>, t: TaskId)
    ensures CancelAll(g, tasks + [t]) == Resolve(CancelAll(g, tasks), t, Cancel)
    decreases |tasks|
  {
    if tasks == [] {
      assert tasks + [t] == [t] && [t][1..] == [];
    } else {
      assert (tasks + [t])[1..] == tasks[1..] + [t];
      CancelAllSnoc(Resolve(g, tasks[0], Cancel), tasks[1..], t);
    }
  }

  // ----- the invariant -----

  /** A waiter is resolved at most once; while it is not, its timer and listener are
      live and it is its task's pending entry; afterwards neither is live. */
  predicate WaiterOk(g: Gate, i: WaiterId) {
    i < |g.waiters| ==>
      var w := g.waiters[i];
      && w.resolves == (if w.answer.None? then 0 else 1)
      && (w.answer.None? ==> w.timer && w.listener && w.task in g.pending && g.pending[w.task] == i)
      && (w.answer.Some? ==> !w.timer && !w.listener)
  }

  /** The pending entry of a task is a waiter of that task that is not settled. */
  predicate EntryOk(g: Gate, t: TaskId) {
    t in g.pending ==>
      g.pending[t] < |g.waiters| && g.waiters[g.pending[t]].task == t && g.waiters[g.pending[t]].answer.None?
  }

  /** No waiter of a task is newer than its pending one. */
  predicate Newest(g: Gate, t: TaskId, j: WaiterId) {
    t in g.pending && j < |g.waiters| && g.waiters[j].task == t ==> j <= g.pending[t]
  }

  ghost predicate Inv(g: Gate) {
    && (forall i: WaiterId :: WaiterOk(g, i))
    && (forall t :: EntryOk(g, t))
    && (forall t, j: WaiterId :: Newest(g, t, j))
  }

  /** The settled gate, when the waiter is its task's entry. */
  function Closed(g: Gate, w: WaiterId, verdict: Verdict): Gate
    requires w < |g.waiters|
  {
    var was := g.waiters[w];
    g.(pending := g.pending - {was.task},
       waiters := g.waiters[w := was.(timer := false, listener := false, answer := Some(verdict), resolves := 1)])
  }

  lemma SettleCloses(g: Gate, w: WaiterId, verdict: Verdict)
    requires Inv(g) && w < |g.waiters| && g.waiters[w].answer.None?
    ensures Settle(g, w, verdict) == Closed(g, w, verdict)
    ensures FireTimer(g, w) == Closed(g, w, Cancel)
    ensures FireListener(g, g.waiters[w].signal, w) == Closed(g, w, Cancel)
  {
    assert WaiterOk(g, w);
  }

  lemma ClosedKeeps(g: Gate, w: WaiterId, verdict: Verdict)
    requires Inv(g) && w < |g.waiters| && g.waiters[w].answer.None?
    ensures Inv(Closed(g, w, verdict))
  {
    var g' := Closed(g, w, verdict);
    assert WaiterOk(g, w);
    forall i: WaiterId ensures WaiterOk(g', i) { assert WaiterOk(g, i); }
    forall t ensures EntryOk(g', t) { assert EntryOk(g, t); }
    forall t, j: WaiterId ensures Newest(g', t, j) { assert Newest(g, t, j); }
  }

  lemma ResolveKeeps(g: Gate, task: TaskId, verdict: Verdict)
    requires Inv(g)
    ensures var g' := Resolve(g, task, verdict);
            Inv(g') && g'.pending == g.pending - {task}
            && (task in g.pending ==> g' == Closed(g, g.pending[task], verdict))
  {
    assert EntryOk(g, task);
    if task in g.pending {
      SettleCloses(g, g.pending[task], verdict);
      ClosedKeeps(g, g.pending[task], verdict);
    }
  }

  lemma AwaitKeeps(g: Gate, task: TaskId, signal: Signal)
    requires Inv(g)
    ensures Inv(Await(g, task, signal).0)
  {
    if signal !in g.aborted {
      var g1, g' := Resolve(g, task, Cancel), Await(g, task, signal).0;
      ResolveKeeps(g, task, Cancel);
      forall i: WaiterId ensures WaiterOk(g', i) { assert WaiterOk(g1, i); }
      forall t ensures EntryOk(g', t) { assert EntryOk(g1, t); }
      forall t, j: WaiterId ensures Newest(g', t, j) { assert Newest(g1, t, j) && EntryOk(g1, t); }
    }
  }

  lemma TimerKeeps(g: Gate, w: WaiterId)
    requires Inv(g)
    ensures Inv(FireTimer(g, w))
  {
    assert WaiterOk(g, w);
    if w < |g.waiters| && g.waiters[w].timer {
      SettleCloses(g, w, Cancel);
      ClosedKeeps(g, w, Cancel);
    }
  }

  lemma ListenerKeeps(g: Gate, signal: Signal, w: WaiterId)
    requires Inv(g)
    ensures Inv(FireListener(g, signal, w))
  {
    assert WaiterOk(g, w);
    if w < |g.waiters| && g.waiters[w].listener && g.waiters[w].signal == signal {
      SettleCloses(g, w, Cancel);
      ClosedKeeps(g, w, Cancel);
    }
  }

  lemma {:induction false} ListenersKeep(g: Gate, signal: Signal, from: WaiterId)
    requires Inv(g)
    ensures Inv(FireListeners(g, signal, from))
    decreases |g.waiters| - from
  {
    if from < |g.waiters| {
      ListenerKeeps(g, signal, from);
      ListenersKeep(FireListener(g, signal, from), signal, from + 1);
    }
  }

  lemma AbortKeeps(g: Gate, signal: Signal)
    requires Inv(g)
    ensures Inv(Abort(g, signal))
  {
    if signal !in g.aborted {
      var g1 := g.(aborted := g.aborted + {signal});
      forall i: WaiterId ensures WaiterOk(g1, i) { assert WaiterOk(g, i); }
      forall t ensures EntryOk(g1, t) { assert EntryOk(g, t); }
      forall t, j: WaiterId ensures Newest(g1, t, j) { assert Newest(g, t, j); }
      ListenersKeep(g1, signal, 0);
    }
  }

  lemma {:induction false} CancelAllKeeps(g: Gate, tasks: seq<TaskId>)
    requires Inv(g)
    ensures Inv(CancelAll(g, tasks))
    ensures forall t :: t in CancelAll(g, tasks).pending <==> t in g.pending && t !in tasks
    decreases |tasks|
  {
    if tasks != [] {
      ResolveKeeps(g, tasks[0], Cancel);
      CancelAllKeeps(Resolve(g, tasks[0], Cancel), tasks[1..]);
      assert tasks == [tasks[0]] + tasks[1..];
    }
  }

  /** Draining leaves nothing pending, and every waiter settled. */
  lemma DrainEmpties(g: Gate, tasks: seq<TaskId>, i: WaiterId)
    requires Inv(g) && (forall t :: t in tasks <==> t in g.pending)
    ensures var g' := CancelAll(g, tasks);
            g'.pending == map[] && (i < |g'.waiters| ==> g'.waiters[i].answer.Some?)
  {
    CancelAllKeeps(g, tasks);
    assert WaiterOk(CancelAll(g, tasks), i);
  }

  // ----- runs -----

  datatype Event =
    | Awaits(task: TaskId, signal: Signal)
    | Resolves(task: TaskId, verdict: Verdict)
    | TimerFires(w: WaiterId)
    | Aborts(signal: Signal)
    | Drains(tasks: seq<TaskId>)

  function Do(g: Gate, e: Event): Gate {
    match e
    case Awaits(task, signal) => Await(g, task, signal).0
    case Resolves(task, verdict) => Resolve(g, task, verdict)
    case TimerFires(w) => FireTimer(g, w)
    case Aborts(signal) => Abort(g, signal)
    case Drains(tasks) => CancelAll(g, tasks)
  }

  function Run(log: History<Event>): Gate {
    match log
    case Start => IDLE
    case Then(past, e) => Do(Run(past), e)
  }

  lemma DoKeeps(g: Gate, e: Event)
    requires Inv(g)
    ensures Inv(Do(g, e))
  {
    match e
    case Awaits(task, signal) => AwaitKeeps(g, task, signal);
    case Resolves(task, verdict) => ResolveKeeps(g, task, verdict);
    case TimerFires(w) => TimerKeeps(g, w);
    case Aborts(signal) => AbortKeeps(g, signal);
    case Drains(tasks) => CancelAllKeeps(g, tasks);
  }

  /** Over every run: each waiter settles at most once, unsettled waiters are exactly the
      pending entries, each the newest of its task, and live timers and listeners
      belong to them only. */
  lemma {:induction false} AlwaysInv(log: History<Event>)
    ensures Inv(Run(log))
  {
    if log.Then? {
      AlwaysInv(log.past);
      DoKeeps(Run(log.past), log.event);
    }
  }

  // ----- what yields true -----

  /** The waiter's promise has resolved to true. */
  predicate Yes(g: Gate, i: WaiterId) {
    i < |g.waiters| && g.waiters[i].answer == Some(Approve)
  }

  /** An operation other than approving leaves no new waiter approved. */
  predicate NoNewYes(g: Gate, g': Gate, i: WaiterId) {
    |g.waiters| <= |g'.waiters| && (Yes(g', i) <==> Yes(g, i))
  }

  lemma CancelYes(g: Gate, task: TaskId, i: WaiterId)
    requires Inv(g)
    ensures NoNewYes(g, Resolve(g, task, Cancel), i)
  {
    ResolveKeeps(g, task, Cancel);
    assert EntryOk(g, task);
  }

  lemma {:induction false} CancelAllYes(g: Gate, tasks: seq<TaskId>, i: WaiterId)
    requires Inv(g)
    ensures NoNewYes(g, CancelAll(g, tasks), i)
    decreases |tasks|
  {
    if tasks != [] {
      CancelYes(g, tasks[0], i);
      ResolveKeeps(g, tasks[0], Cancel);
      CancelAllYes(Resolve(g, tasks[0], Cancel), tasks[1..], i);
    }
  }

  lemma {:induction false} ListenersYes(g: Gate, signal: Signal, from: WaiterId, i: WaiterId)
    requires Inv(g)
    ensures NoNewYes(g, FireListeners(g, signal, from), i)
    decreases |g.waiters| - from
  {
    if from < |g.waiters| {
      ListenerKeeps(g, signal, from);
      assert WaiterOk(g, from);
      if g.waiters[from].listener && g.waiters[from].signal == signal {
        SettleCloses(g, from, Cancel);
      }
      ListenersYes(FireListener(g, signal, from), signal, from + 1, i);
    }
  }

  /** Only `resolve` with an approve verdict, on the task whose entry the waiter is,
      makes a waiter's promise true; timeouts, aborts, displacement and draining do not. */
  lemma OnlyApproveYieldsTrue(log: History<Event>, e: Event, i: WaiterId)
    ensures var g := Run(log);
            Yes(Do(g, e), i) <==>
              Yes(g, i) || (e.Resolves? && e.verdict.Approve? && e.task in g.pending && g.pending[e.task] == i)
  {
    var g := Run(log);
    AlwaysInv(log);
    match e
    case Awaits(task, signal) => CancelYes(g, task, i);
    case Resolves(task, verdict) =>
      ResolveKeeps(g, task, verdict);
      assert EntryOk(g, task);
    case TimerFires(w) =>
      assert WaiterOk(g, w);
      if w < |g.waiters| && g.waiters[w].timer { SettleCloses(g, w, Cancel); }
    case Aborts(signal) =>
      var g1 := g.(aborted := g.aborted + {signal});
      AddAborted(g, signal);
      ListenersYes(g1, signal, 0, i);
    case Drains(tasks) => CancelAllYes(g, tasks, i);
  }

  lemma AddAborted(g: Gate, signal: Signal)
    requires Inv(g)
    ensures Inv(g.(aborted := g.aborted + {signal}))
  {
    var g1 := g.(aborted := g.aborted + {signal});
    forall i: WaiterId ensures WaiterOk(g1, i) { assert WaiterOk(g, i); }
    forall t ensures EntryOk(g1, t) { assert EntryOk(g, t); }
    forall t, j: WaiterId ensures Newest(g1, t, j) { assert Newest(g, t, j); }
  }

  // ----- who settles, and how -----

  /** Waiter `i` keeps its task and signal, and has this answer now. */
  predicate Answers(g: Gate, g': Gate, i: WaiterId, answer: Option<Verdict>) {
    i < |g.waiters| <= |g'.waiters|
    && g'.waiters[i].task == g.waiters[i].task && g'.waiters[i].signal == g.waiters[i].signal
    && g'.waiters[i].answer == answer
  }

  /** A waiter's answer once `verdict` has come for all waiters of which `told` holds. */
  function Given(w: Waiter, told: bool, verdict: Verdict): Option<Verdict> {
    if w.answer.None? && told then Some(verdict) else w.answer
  }

  lemma ResolveGives(g: Gate, task: TaskId, verdict: Verdict, i: WaiterId)
    requires Inv(g) && i < |g.waiters|
    ensures Answers(g, Resolve(g, task, verdict), i, Given(g.waiters[i], g.waiters[i].task == task, verdict))
  {
    ResolveKeeps(g, task, verdict);
    assert EntryOk(g, task) && WaiterOk(g, i);
  }

  lemma {:induction false} CancelAllGives(g: Gate, tasks: seq<TaskId>, i: WaiterId)
    requires Inv(g) && i < |g.waiters|
    ensures Answers(g, CancelAll(g, tasks), i, Given(g.waiters[i], g.waiters[i].task in tasks, Cancel))
    decreases |tasks|
  {
    if tasks != [] {
      assert tasks == [tasks[0]] + tasks[1..];
      ResolveGives(g, tasks[0], Cancel, i);
      ResolveKeeps(g, tasks[0], Cancel);
      CancelAllGives(Resolve(g, tasks[0], Cancel), tasks[1..], i);
    }
  }

  lemma TimerGives(g: Gate, w: WaiterId, i: WaiterId)
    requires Inv(g) && i < |g.waiters|
    ensures Answers(g, FireTimer(g, w), i, Given(g.waiters[i], w == i, Cancel))
  {
    assert WaiterOk(g, w);
    if w < |g.waiters| && g.waiters[w].timer { SettleCloses(g, w, Cancel); }
  }

  lemma ListenerGives(g: Gate, signal: Signal, w: WaiterId, i: WaiterId)
    requires Inv(g) && i < |g.waiters| && w < |g.waiters|
    ensures Answers(g, FireListener(g, signal, w), i,
      Given(g.waiters[i], w == i && g.waiters[i].signal == signal, Cancel))
  {
    assert WaiterOk(g, w);
    if g.waiters[w].listener && g.waiters[w].signal == signal { SettleCloses(g, w, Cancel); }
  }

  lemma {:induction false} ListenersGive(g: Gate, signal: Signal, from: WaiterId, i: WaiterId)
    requires Inv(g) && i < |g.waiters|
    ensures Answers(g, FireListeners(g, signal, from), i,
      Given(g.waiters[i], from <= i && g.waiters[i].signal == signal, Cancel))
    decreases |g.waiters| - from
  {
    if from < |g.waiters| {
      ListenerGives(g, signal, from, i);
      ListenerKeeps(g, signal, from);
      ListenersGive(FireListener(g, signal, from), signal, from + 1, i);
    }
  }

  /** The verdict an event brings to waiter `w`, the `i`-th one, if it waits. */
  function Brought(g: Gate, e: Event, w: Waiter, i: WaiterId): Option<Verdict> {
    match e
    case Awaits(task, signal) => if signal !in g.aborted && task == w.task then Some(Cancel) else None
    case Resolves(task, verdict) => if task == w.task then Some(verdict) else None
    case TimerFires(t) => if t == i then Some(Cancel) else None
    case Aborts(signal) => if signal == w.signal then Some(Cancel) else None
    case Drains(tasks) => if w.task in tasks then Some(Cancel) else None
  }

  lemma {:induction false} AllCancelled(g: Gate, tasks: seq<TaskId>)
    ensures CancelAll(g, tasks).aborted == g.aborted && |CancelAll(g, tasks).waiters| == |g.waiters|
    decreases |tasks|
  {
    if tasks != [] { AllCancelled(Resolve(g, tasks[0], Cancel), tasks[1..]); }
  }

  /** Nobody waits on a signal that was aborted. */
  predicate Heard(g: Gate, i: WaiterId) {
    i < |g.waiters| && g.waiters[i].answer.None? ==> g.waiters[i].signal !in g.aborted
  }

  lemma AbortGives(g: Gate, signal: Signal, i: WaiterId)
    requires Inv(g) && Heard(g, i) && i < |g.waiters|
    ensures Answers(g, Abort(g, signal), i, Given(g.waiters[i], g.waiters[i].signal == signal, Cancel))
  {
    if signal !in g.aborted {
      AddAborted(g, signal);
      ListenersGive(g.(aborted := g.aborted + {signal}), signal, 0, i);
    }
  }

  /** An event answers the waiters it brings a verdict, and no others. */
  lemma DoGives(g: Gate, e: Event, i: WaiterId)
    requires Inv(g) && Heard(g, i) && i < |g.waiters|
    ensures var w := g.waiters[i];
            Answers(g, Do(g, e), i, if w.answer.Some? then w.answer else Brought(g, e, w, i))
  {
    match e
    case Awaits(task, _) => ResolveGives(g, task, Cancel, i);
    case Resolves(task, verdict) => ResolveGives(g, task, verdict, i);
    case TimerFires(w) => TimerGives(g, w, i);
    case Aborts(signal) => AbortGives(g, signal, i);
    case Drains(tasks) => CancelAllGives(g, tasks, i);
  }

  /** An event registers a waiter exactly if it is a call with a signal not aborted before. */
  lemma DoRegisters(g: Gate, e: Event)
    requires Inv(g)
    ensures var g' := Do(g, e);
            && (e.Awaits? && e.signal !in g.aborted ==>
                 && |g'.waiters| == |g.waiters| + 1 && g'.waiters[|g.waiters|].answer.None?
                 && g'.waiters[|g.waiters|].task == e.task && g'.waiters[|g.waiters|].signal == e.signal)
            && (!e.Awaits? || e.signal in g.aborted ==> |g'.waiters| == |g.waiters|)
            && g'.aborted == g.aborted + if e.Aborts? then {e.signal} else {}
  {
    match e
    case Awaits(task, _) =>
    case Resolves(_, _) =>
    case TimerFires(_) =>
    case Aborts(signal) => ListenersStay(g.(aborted := g.aborted + {signal}), signal, 0);
    case Drains(tasks) => AllCancelled(g, tasks);
  }

  lemma {:induction false} ListenersStay(g: Gate, signal: Signal, from: WaiterId)
    ensures FireListeners(g, signal, from).aborted == g.aborted
    ensures |FireListeners(g, signal, from).waiters| == |g.waiters|
    decreases |g.waiters| - from
  {
    if from < |g.waiters| { ListenersStay(FireListener(g, signal, from), signal, from + 1); }
  }

  lemma {:induction false} AlwaysHeard(log: History<Event>, i: WaiterId)
    ensures Heard(Run(log), i)
  {
    if log.Then? {
      var g := Run(log.past);
      AlwaysInv(log.past);
      AlwaysHeard(log.past, i);
      DoRegisters(g, log.event);
      if i < |g.waiters| { DoGives(g, log.event, i); }
    }
  }

  /** Over every run: a waiter's answer is the first verdict that an event after its
      registration brings it, and stays. */
  lemma SettledByFirst(log: History<Event>, e: Event, i: WaiterId)
    requires i < |Run(log).waiters|
    ensures var g := Run(log);
            var w := g.waiters[i];
            Answers(g, Run(Then(log, e)), i, if w.answer.Some? then w.answer else Brought(g, e, w, i))
  {
    AlwaysInv(log);
    AlwaysHeard(log, i);
    DoGives(Run(log), e, i);
  }

  /** And the only waiters are those that calls with a signal not aborted before registered,
      each unanswered at first. */
  lemma RegisteredByCalls(log: History<Event>, e: Event)
    ensures var g, g' := Run(log), Run(Then(log, e));
            && (e.Awaits? && e.signal !in g.aborted ==>
                 && |g'.waiters| == |g.waiters| + 1 && g'.waiters[|g.waiters|].answer.None?
                 && g'.waiters[|g.waiters|].task == e.task && g'.waiters[|g.waiters|].signal == e.signal)
            && (!e.Awaits? || e.signal in g.aborted ==> |g'.waiters| == |g.waiters|)
            && g'.aborted == g.aborted + if e.Aborts? then {e.signal} else {}
  {
    AlwaysInv(log);
    DoRegisters(Run(log), e);
  }
}
