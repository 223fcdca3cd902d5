/** Job and task rows of the crawl runtime (internal/execution/repository/postgre): a job is created
    under a lock on its target unless the target has a RUNNING one, and every completion recomputes the
    status of its job from all tasks of it. */
module Jobs {
  import opened Model

  /** `expected` is the task count of the job's payload. */
  datatype Job = Job(target: Id, status: JobStatus, expected: nat)
  datatype Task = Task(job: nat, status: JobStatus)
  datatype State = State(jobs: seq<Job>, tasks: seq<Task>)

  const EMPTY := State([], [])

  datatype Action =
    | CreateJob(target: Id, expected: nat)
    | CreateTask(job: nat)
    | MarkTask(task: nat, mark: JobStatus)
    | Finalize(job: nat, final: JobStatus)
    | Complete(task: nat, success: bool)
    | Cancel(cancelled: set<nat>)

  // ---------------------------------------------------------------- recomputing a status

  datatype Phase = Done | Lost | Open

  /** How a recomputation reads a task. */
  function PhaseOf(status: JobStatus): Phase {
    match status
    case Success => Done
    case Failed => Lost
    case Cancelled => Lost
    case _ => Open
  }

  datatype Counts = Counts(success: nat, failed: nat, running: nat)

  function Tally(tasks: seq<Task>, job: nat): Counts {
    if tasks == [] then Counts(0, 0, 0)
    else
      var c, last := Tally(tasks[..|tasks| - 1], job), tasks[|tasks| - 1];
      if last.job != job then c
      else
        match PhaseOf(last.status)
        case Done => c.(success := c.success + 1)
        case Lost => c.(failed := c.failed + 1)
        case Open => c.(running := c.running + 1)
  }

  function Max(a: int, b: int): int {
    if a > b then a else b
  }

  /** `recomputeScheduledJobStatus`; tasks that were never created count as failed. */
  function Recomputed(job: Job, c: Counts): JobStatus {
    var total := c.success + c.failed + c.running;
    var failed := c.failed + Max(job.expected - total, 0);
    if total == 0 then job.status
    else if c.running > 0 && failed > 0 then JobStatus.Partial
    else if c.running > 0 then JobStatus.Running
    else if c.success == job.expected then JobStatus.Success
    else if failed == job.expected then JobStatus.Failed
    else JobStatus.Partial
  }

  /** The loop over the tasks of a job. */
  method CountTasks(tasks: seq<Task>, job: nat) returns (c: Counts)
    ensures c == Tally(tasks, job)
  {
    var success, failed, running := 0, 0, 0;
    for i := 0 to |tasks|
      invariant Counts(success, failed, running) == Tally(tasks[..i], job)
    {
      assert tasks[..i + 1][..i] == tasks[..i];
      if tasks[i].job != job {
        continue;
      }
      match tasks[i].status {
        case Success => success := success + 1;
        case Failed => failed := failed + 1;
        case Cancelled => failed := failed + 1;
        case _ => running := running + 1;
      }
    }
    assert tasks[..|tasks|] == tasks;
    return Counts(success, failed, running);
  }

  predicate HasTask(tasks: seq<Task>, job: nat, phase: Phase) {
    exists i :: 0 <= i < |tasks| && tasks[i].job == job && PhaseOf(tasks[i].status) == phase
  }

  lemma {:induction false} TallyMeans(tasks: seq<Task>, job: nat)
    ensures var c := Tally(tasks, job);
            && (c.running > 0 <==> HasTask(tasks, job, Open))
            && (c.failed > 0 <==> HasTask(tasks, job, Lost))
            && (c.success > 0 <==> HasTask(tasks, job, Done))
  {
    if tasks != [] {
      var n := |tasks| - 1;
      TallyMeans(tasks[..n], job);
      HasTaskSplits(tasks, n, job, Open);
      HasTaskSplits(tasks, n, job, Lost);
      HasTaskSplits(tasks, n, job, Done);
    }
  }

  lemma HasTaskSplits(tasks: seq<Task>, n: nat, job: nat, phase: Phase)
    requires n + 1 == |tasks|
    ensures HasTask(tasks, job, phase) <==> HasTask(tasks[..n], job, phase) || (tasks[n].job == job && PhaseOf(tasks[n].status) == phase)
  {
    if i :| 0 <= i < n && tasks[..n][i].job == job && PhaseOf(tasks[..n][i].status) == phase {
      assert tasks[i].job == job && PhaseOf(tasks[i].status) == phase;
    }
    if i :| 0 <= i < |tasks| && tasks[i].job == job && PhaseOf(tasks[i].status) == phase {
      assert i < n ==> tasks[..n][i].job == job && PhaseOf(tasks[..n][i].status) == phase;
    }
  }

  /** A recomputed job is RUNNING exactly when a task of it is open, none has failed and none is missing. */
  lemma RecomputedRuns(job: Job, j: nat, tasks: seq<Task>)
    requires !job.status.Running?
    ensures var c := Tally(tasks, j);
            Recomputed(job, c).Running? <==>
            HasTask(tasks, j, Open) && !HasTask(tasks, j, Lost) && job.expected <= c.success + c.running
  {
    TallyMeans(tasks, j);
  }

  /** A job with as many tasks as it expects, or fewer, is recomputed from what its tasks say: RUNNING while
      some are open and none is lost or missing, SUCCESS when all it expects are done, FAILED when all have
      ended and none is done, and PARTIAL otherwise. Without tasks it stays. */
  lemma RecomputedMeans(job: Job, j: nat, tasks: seq<Task>)
    requires TaskCount(tasks, j) <= job.expected
    ensures var status, whole := Recomputed(job, Tally(tasks, j)), TaskCount(tasks, j) == job.expected;
            var open, lost, done := HasTask(tasks, j, Open), HasTask(tasks, j, Lost), HasTask(tasks, j, Done);
            if TaskCount(tasks, j) == 0 then status == job.status
            else
              && (status.Running? <==> open && !lost && whole)
              && (status.Success? <==> !open && !lost && whole)
              && (status.Failed? <==> !open && !done)
              && (status.Partial? <==> (open && (lost || !whole)) || (!open && done && (lost || !whole)))
  {
    TallyMeans(tasks, j);
    TallySums(tasks, j);
  }

  // ---------------------------------------------------------------- steps and runs

  predicate HasRunning(s: State, target: Id) {
    exists j :: 0 <= j < |s.jobs| && s.jobs[j].target == target && s.jobs[j].status.Running?
  }

  function WithStatus(s: State, j: nat, status: JobStatus): State
    requires j < |s.jobs|
  {
    s.(jobs := s.jobs[j := s.jobs[j].(status := status)])
  }

  /** The job row a completion writes. */
  function Completed(s: State, task: nat, success: bool): State
    requires task < |s.tasks|
  {
    var j := s.tasks[task].job;
    var tasks := s.tasks[task := s.tasks[task].(status := if success then JobStatus.Success else JobStatus.Failed)];
    var s1 := s.(tasks := tasks);
    if j >= |s.jobs| then s1 else WithStatus(s1, j, Recomputed(s.jobs[j], Tally(tasks, j)))
  }

  predicate Cancellable(status: JobStatus) {
    status.Pending? || status.Running? || status.Partial?
  }

  function Act(s: State, a: Action): State {
    match a
    case CreateJob(target, expected) =>
      if HasRunning(s, target) then s else s.(jobs := s.jobs + [Job(target, JobStatus.Running, expected)])
    case CreateTask(job) => if job < |s.jobs| then s.(tasks := s.tasks + [Task(job, JobStatus.Pending)]) else s
    case MarkTask(task, status) => if task < |s.tasks| then s.(tasks := s.tasks[task := s.tasks[task].(status := status)]) else s
    case Finalize(job, status) =>
      if job < |s.jobs| && (status.Failed? || status.Partial?) then WithStatus(s, job, status) else s
    case Complete(task, success) => if task < |s.tasks| then Completed(s, task, success) else s
    case Cancel(jobs) =>
      s.(jobs := seq(|s.jobs|, j requires 0 <= j < |s.jobs| =>
                       if j in jobs && Cancellable(s.jobs[j].status) then s.jobs[j].(status := JobStatus.Cancelled) else s.jobs[j]),
         tasks := seq(|s.tasks|, t requires 0 <= t < |s.tasks| =>
                        if s.tasks[t].job in jobs && (s.tasks[t].status.Pending? || s.tasks[t].status.Running?)
                        then s.tasks[t].(status := JobStatus.Cancelled) else s.tasks[t]))
  }

  /** A completion settles its task, and of the jobs it touches only the status of the one it belongs to. */
  lemma CompletionIs(s: State, task: nat, success: bool)
    requires task < |s.tasks|
    ensures var s' := Act(s, Complete(task, success));
            && s'.tasks == s.tasks[task := Task(s.tasks[task].job, if success then JobStatus.Success else JobStatus.Failed)]
            && |s'.jobs| == |s.jobs|
            && forall j :: 0 <= j < |s.jobs| ==>
                 s'.jobs[j] == if j == s.tasks[task].job then s.jobs[j].(status := Recomputed(s.jobs[j], Tally(s'.tasks, j))) else s.jobs[j]
  {
  }

  /** A dispatch adds open tasks to its job, marks them, and ends its job as FAILED or PARTIAL. */
  lemma DispatchWrites(s: State, job: nat, task: nat, status: JobStatus)
    ensures Act(s, CreateTask(job)) == if job < |s.jobs| then s.(tasks := s.tasks + [Task(job, JobStatus.Pending)]) else s
    ensures task < |s.tasks| ==> Act(s, MarkTask(task, status)) == s.(tasks := s.tasks[task := Task(s.tasks[task].job, status)])
    ensures job < |s.jobs| && status in {JobStatus.Failed, JobStatus.Partial} ==>
              Act(s, Finalize(job, status)) == s.(jobs := s.jobs[job := Job(s.jobs[job].target, status, s.jobs[job].expected)])
  {
  }

  /** A cancellation ends what had not ended: jobs that are pending, running or partial, and their open
      tasks. Everything that has succeeded, failed or been cancelled stays. */
  lemma CancellationIs(s: State, cancelled: set<nat>)
    ensures var s' := Act(s, Cancel(cancelled));
            && |s'.jobs| == |s.jobs| && |s'.tasks| == |s.tasks|
            && (forall j :: 0 <= j < |s.jobs| ==>
                  && s'.jobs[j] == s.jobs[j].(status := s'.jobs[j].status)
                  && s'.jobs[j].status ==
                       if j in cancelled && s.jobs[j].status !in {JobStatus.Success, JobStatus.Failed} then JobStatus.Cancelled else s.jobs[j].status)
            && (forall t :: 0 <= t < |s.tasks| ==>
                  && s'.tasks[t].job == s.tasks[t].job
                  && s'.tasks[t].status ==
                       if s.tasks[t].job in cancelled && s.tasks[t].status in {JobStatus.Pending, JobStatus.Running}
                       then JobStatus.Cancelled else s.tasks[t].status)
  {
  }

  /** No statement removes a job or moves one to another target. */
  lemma JobsStay(s: State, a: Action, j: nat)
    requires j < |s.jobs|
    ensures j < |Act(s, a).jobs| && Act(s, a).jobs[j].target == s.jobs[j].target && Act(s, a).jobs[j].expected == s.jobs[j].expected
  {
  }

  /** A target gets a RUNNING job exactly when it has none; no other statement adds a job. */
  lemma JobsAreAdded(s: State, a: Action)
    ensures a.CreateJob? ==>
              Act(s, a).jobs == if forall j :: 0 <= j < |s.jobs| && s.jobs[j].target == a.target ==> !s.jobs[j].status.Running?
                                then s.jobs + [Job(a.target, JobStatus.Running, a.expected)] else s.jobs
    ensures !a.CreateJob? ==> |Act(s, a).jobs| == |s.jobs|
  {
    if a.CreateJob? {
      assert HasRunning(s, a.target) <==> exists j :: 0 <= j < |s.jobs| && s.jobs[j].target == a.target && s.jobs[j].status.Running?;
    }
  }

  function After(actions: seq<Action>): State {
    if actions == [] then EMPTY else Act(After(actions[..|actions| - 1]), actions[|actions| - 1])
  }

  // ---------------------------------------------------------------- at most one running job

  predicate OneRunning(s: State) {
    forall i, j :: 0 <= i < j < |s.jobs| && s.jobs[i].target == s.jobs[j].target ==>
      !(s.jobs[i].status.Running? && s.jobs[j].status.Running?)
  }

  /** Some other task of the same job is in this phase. */
  predicate OtherTask(tasks: seq<Task>, task: nat, phase: Phase)
    requires task < |tasks|
  {
    exists i :: 0 <= i < |tasks| && i != task && tasks[i].job == tasks[task].job && PhaseOf(tasks[i].status) == phase
  }

  function TaskCount(tasks: seq<Task>, job: nat): nat {
    if tasks == [] then 0
    else TaskCount(tasks[..|tasks| - 1], job) + if tasks[|tasks| - 1].job == job then 1 else 0
  }

  /** A success that arrives for a job that is not RUNNING while its target runs another, when some
      other task of the job is open, no other has failed or been cancelled, and none is missing. All of
      it can be read off the rows before the completion. */
  predicate Revives(s: State, a: Action) {
    && a.Complete? && a.success && a.task < |s.tasks| && s.tasks[a.task].job < |s.jobs|
    && var j := s.tasks[a.task].job;
       && !s.jobs[j].status.Running? && HasRunning(s, s.jobs[j].target)
       && OtherTask(s.tasks, a.task, Open) && !OtherTask(s.tasks, a.task, Lost)
       && s.jobs[j].expected <= TaskCount(s.tasks, j)
  }

  lemma {:induction false} TallySums(tasks: seq<Task>, job: nat)
    ensures var c := Tally(tasks, job);
            c.success + c.failed + c.running == TaskCount(tasks, job)
  {
    if tasks != [] {
      TallySums(tasks[..|tasks| - 1], job);
    }
  }

  lemma {:induction false} TaskCountKept(tasks: seq<Task>, tasks': seq<Task>, job: nat)
    requires |tasks| == |tasks'| && forall i :: 0 <= i < |tasks| ==> tasks[i].job == tasks'[i].job
    ensures TaskCount(tasks, job) == TaskCount(tasks', job)
  {
    if tasks != [] {
      TaskCountKept(tasks[..|tasks| - 1], tasks'[..|tasks| - 1], job);
    }
  }

  /** After a task is closed, an open or lost task of its job is another one, or the one just lost. */
  lemma ClosingLeaves(tasks: seq<Task>, task: nat, status: JobStatus, phase: Phase)
    requires task < |tasks| && status in {JobStatus.Success, JobStatus.Failed} && phase != Done
    ensures HasTask(tasks[task := tasks[task].(status := status)], tasks[task].job, phase)
            <==> OtherTask(tasks, task, phase) || PhaseOf(status) == phase
  {
    var tasks' := tasks[task := tasks[task].(status := status)];
    if OtherTask(tasks, task, phase) {
      var i :| 0 <= i < |tasks| && i != task && tasks[i].job == tasks[task].job && PhaseOf(tasks[i].status) == phase;
      assert tasks'[i] == tasks[i];
    }
    if PhaseOf(status) == phase {
      assert tasks'[task].job == tasks[task].job && PhaseOf(tasks'[task].status) == phase;
    }
  }

  /** The condition on the rows before a completion says exactly when it turns an ended job RUNNING
      beside another. */
  lemma RevivesExactly(s: State, a: Action)
    requires a.Complete? && a.task < |s.tasks| && s.tasks[a.task].job < |s.jobs|
    requires !s.jobs[s.tasks[a.task].job].status.Running?
    ensures var j := s.tasks[a.task].job;
            Act(s, a).jobs[j].status.Running? && HasRunning(s, s.jobs[j].target) <==> Revives(s, a)
  {
    var j, status := s.tasks[a.task].job, if a.success then JobStatus.Success else JobStatus.Failed;
    var tasks := s.tasks[a.task := s.tasks[a.task].(status := status)];
    RecomputedRuns(s.jobs[j], j, tasks);
    ClosingLeaves(s.tasks, a.task, status, Open);
    ClosingLeaves(s.tasks, a.task, status, Lost);
    TallyMeans(tasks, j);
    TallySums(tasks, j);
    TaskCountKept(s.tasks, tasks, j);
  }

  /** The lock keeps the creation of jobs from putting two RUNNING ones on a target; the one statement
      that can do so is a completion that revives an ended job. */
  lemma StepKeepsOneRunningExactly(s: State, a: Action)
    requires OneRunning(s)
    ensures OneRunning(Act(s, a)) <==> !Revives(s, a)
  {
    if a.Complete? && a.task < |s.tasks| && s.tasks[a.task].job < |s.jobs| && !s.jobs[s.tasks[a.task].job].status.Running? {
      RevivesExactly(s, a);
    }
    if Revives(s, a) {
      var j, s' := s.tasks[a.task].job, Act(s, a);
      var i :| 0 <= i < |s.jobs| && s.jobs[i].target == s.jobs[j].target && s.jobs[i].status.Running?;
      assert s'.jobs[i].status.Running? && s'.jobs[j].status.Running? && s'.jobs[i].target == s'.jobs[j].target;
    } else if a.Complete? && a.task < |s.tasks| && s.tasks[a.task].job < |s.jobs| {
      CompletionKeepsOneRunning(s, a);
    }
  }

  lemma CompletionKeepsOneRunning(s: State, a: Action)
    requires OneRunning(s) && a.Complete? && a.task < |s.tasks| && s.tasks[a.task].job < |s.jobs| && !Revives(s, a)
    ensures OneRunning(Act(s, a))
  {
    var k, s' := s.tasks[a.task].job, Act(s, a);
    if !s.jobs[k].status.Running? {
      RevivesExactly(s, a);
    }
    forall i, j | 0 <= i < j < |s'.jobs| && s'.jobs[i].target == s'.jobs[j].target
      ensures !(s'.jobs[i].status.Running? && s'.jobs[j].status.Running?)
    {
      assert i != k ==> s'.jobs[i] == s.jobs[i];
      assert j != k ==> s'.jobs[j] == s.jobs[j];
      assert s.jobs[i].target == s.jobs[j].target;
    }
  }

  predicate AlwaysOneRunning(actions: seq<Action>) {
    OneRunning(After(actions)) && (actions != [] ==> AlwaysOneRunning(actions[..|actions| - 1]))
  }

  predicate NeverRevives(actions: seq<Action>) {
    actions != [] ==> NeverRevives(actions[..|actions| - 1]) && !Revives(After(actions[..|actions| - 1]), actions[|actions| - 1])
  }

  /** A target has at most one RUNNING job at every point of a run exactly when no completion of the
      run revives an ended job beside a running one. */
  lemma {:induction false} RunKeepsOneRunningExactly(actions: seq<Action>)
    ensures AlwaysOneRunning(actions) <==> NeverRevives(actions)
  {
    if actions != [] {
      var p := actions[..|actions| - 1];
      RunKeepsOneRunningExactly(p);
      if OneRunning(After(p)) {
        StepKeepsOneRunningExactly(After(p), actions[|actions| - 1]);
      }
    }
  }

  lemma AfterSnoc(actions: seq<Action>, a: Action)
    ensures After(actions + [a]) == Act(After(actions), a)
  {
    assert (actions + [a])[..|actions|] == actions;
  }

  /** It happens: a dispatch fails after both its messages went out, the next one starts a job, and
      then the first completion of the failed job arrives. */
  lemma LateCompletionRevives()
    ensures exists actions: seq<Action> :: !OneRunning(After(actions))
  {
    var failed := [] + [CreateJob(7, 2)] + [CreateTask(0)] + [CreateTask(0)] + [Finalize(0, JobStatus.Failed)];
    AfterSnoc([], CreateJob(7, 2));
    AfterSnoc([] + [CreateJob(7, 2)], CreateTask(0));
    AfterSnoc([] + [CreateJob(7, 2)] + [CreateTask(0)], CreateTask(0));
    AfterSnoc([] + [CreateJob(7, 2)] + [CreateTask(0)] + [CreateTask(0)], Finalize(0, JobStatus.Failed));
    var s := State([Job(7, JobStatus.Failed, 2)], [Task(0, JobStatus.Pending), Task(0, JobStatus.Pending)]);
    assert After(failed) == s;
    AfterSnoc(failed, CreateJob(7, 2));
    AfterSnoc(failed + [CreateJob(7, 2)], Complete(0, true));
    var both := State([Job(7, JobStatus.Failed, 2), Job(7, JobStatus.Running, 2)], s.tasks);
    assert Act(s, CreateJob(7, 2)) == both;
    ReviveExample(both);
  }

  lemma ReviveExample(s: State)
    requires s.jobs == [Job(7, JobStatus.Failed, 2), Job(7, JobStatus.Running, 2)]
    requires s.tasks == [Task(0, JobStatus.Pending), Task(0, JobStatus.Pending)]
    ensures !OneRunning(Act(s, Complete(0, true)))
  {
    var tasks := [Task(0, JobStatus.Success), Task(0, JobStatus.Pending)];
    assert s.tasks[0 := Task(0, JobStatus.Success)] == tasks;
    assert tasks[..1] == [tasks[0]] && [tasks[0]][..0] == [];
    assert Tally([tasks[0]], 0) == Counts(1, 0, 0) && Tally(tasks, 0) == Counts(1, 0, 1);
    var s' := Act(s, Complete(0, true));
    assert s'.jobs[0].status.Running? && s'.jobs[1].status.Running?;
  }
}
