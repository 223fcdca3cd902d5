/** Completions of crawl tasks, delivered at least once to any number of concurrent handlers
    (internal/execution/usecase/consumer.go). Each call of a handler to the repository, to MinIO or
    to the parser is one step. Steps of all handlers interleave freely, a handler may crash between
    any two, and a repository call may fail before or after its transaction commits. */
module Completion {
  import opened Model
  import opened Text
  import opened Values

  datatype Kind = Success | Error | Other

  datatype Input = Input(taskId: string, kind: Kind, batchId: string, bucket: string, path: string)

  /** A row of `external_tasks`; `parseable` is SupportsParse of its platform and type. */
  datatype Task = Task(source: Id, parseable: bool, status: JobStatus, completed: bool)

  /** A row of `raw_batches`. */
  datatype Batch = Batch(source: Id, batchId: string)

  datatype Result = Ok | Invalid | TaskNotFound | Errored

  /** Where a handler stands: the next call it makes. */
  datatype Pc =
    | Start
    | Loaded(task: Task)
    | Unseen(task: Task)
    | Broken(task: Task)
    | Verified(task: Task)
    | Stored(batch: nat)
    | Done(result: Result)

  datatype Handler = Handler(input: Input, pc: Pc)

  /** `lost` collects the batches whose parse no handler will start: the acknowledgement of the insert
      was lost, the handler crashed, or its task is not parseable. */
  datatype State = State(tasks: map<string, Task>, batches: seq<Batch>, parses: seq<nat>, lost: set<nat>,
                         handlers: map<nat, Handler>)

  datatype Fault = NoFault | BeforeCommit | AfterCommit

  /** How one call turns out; `good` is the verdict of MinIO and of the metadata encoder. */
  datatype Choice = Choice(fault: Fault, good: bool)

  datatype Action =
    | Deliver(h: nat, input: Input)
    | Advance(h: nat, choice: Choice)
    | Crash(h: nat)
    | NewTask(key: string, task: Task)
    | Mark(key: string, status: JobStatus, completed: bool)
    | CancelTasks(keys: set<string>)

  const EMPTY := State(map[], [], [], {}, map[])

  // ---------------------------------------------------------------- one call of a handler

  /** `validateCompletionInput`. */
  predicate ValidInput(input: Input) {
    && TrimSpace(input.taskId) != ""
    && match input.kind
       case Success => TrimSpace(input.bucket) != "" && TrimSpace(input.path) != "" && TrimSpace(input.batchId) != ""
       case Error => true
       case Other => false
  }

  function Key(input: Input): string {
    TrimSpace(input.taskId)
  }

  predicate CancelledAndCompleted(t: Task) {
    t.status.Cancelled? && t.completed
  }

  /** `isTerminalFailure` with a completion time. */
  predicate FailedAndCompleted(t: Task) {
    (t.status.Failed? || t.status.Cancelled?) && t.completed
  }

  predicate HasBatch(s: State, source: Id, batchId: string) {
    Batch(source, batchId) in s.batches
  }

  function Settle(s: State, key: string, status: JobStatus): map<string, Task> {
    if key in s.tasks then s.tasks[key := s.tasks[key].(status := status, completed := true)] else s.tasks
  }

  function At(s: State, h: nat, pc: Pc): State
    requires h in s.handlers
  {
    s.(handlers := s.handlers[h := s.handlers[h].(pc := pc)])
  }

  /** `CompleteTaskError`. */
  function FailTask(s: State, h: nat, fault: Fault): (r: State)
    requires h in s.handlers
    ensures h in r.handlers && r.handlers == s.handlers[h := Handler(s.handlers[h].input, r.handlers[h].pc)]
    ensures forall k :: k in s.tasks <==> k in r.tasks
    ensures forall k :: k in s.tasks ==> r.tasks[k].source == s.tasks[k].source && r.tasks[k].parseable == s.tasks[k].parseable
  {
    var done := At(s, h, Done(if fault.NoFault? then Ok else Errored));
    if fault.BeforeCommit? then done
    else done.(tasks := Settle(s, Key(s.handlers[h].input), JobStatus.Failed))
  }

  /** `CompleteTaskSuccess`, and whether a parse follows. */
  function StoreBatch(s: State, h: nat, task: Task, fault: Fault): (r: State)
    requires h in s.handlers
    ensures h in r.handlers && r.handlers == s.handlers[h := Handler(s.handlers[h].input, r.handlers[h].pc)]
    ensures forall k :: k in s.tasks <==> k in r.tasks
    ensures forall k :: k in s.tasks ==> r.tasks[k].source == s.tasks[k].source && r.tasks[k].parseable == s.tasks[k].parseable
  {
    var input := s.handlers[h].input;
    if HasBatch(s, task.source, input.batchId) then At(s, h, Done(if fault.NoFault? then Ok else Errored))
    else if fault.BeforeCommit? then At(s, h, Done(Errored))
    else
      var b := |s.batches|;
      var stored := s.(batches := s.batches + [Batch(task.source, input.batchId)],
                       tasks := Settle(s, Key(input), JobStatus.Success));
      if fault.AfterCommit? then At(stored.(lost := s.lost + {b}), h, Done(Errored))
      else if !task.parseable then At(stored.(lost := s.lost + {b}), h, Done(Ok))
      else At(stored, h, Stored(b))
  }

  /** A step moves its own handler only, and changes no task's source or kind. */
  function Next(s: State, h: nat, c: Choice): (r: State)
    requires h in s.handlers
    ensures h in r.handlers && r.handlers == s.handlers[h := Handler(s.handlers[h].input, r.handlers[h].pc)]
    ensures forall k :: k in s.tasks <==> k in r.tasks
    ensures forall k :: k in s.tasks ==> r.tasks[k].source == s.tasks[k].source && r.tasks[k].parseable == s.tasks[k].parseable
  {
    var input := s.handlers[h].input;
    match s.handlers[h].pc
    case Start =>
      if !ValidInput(input) then At(s, h, Done(Invalid))
      else if !c.fault.NoFault? then At(s, h, Done(Errored))
      else if Key(input) !in s.tasks then At(s, h, Done(TaskNotFound))
      else if CancelledAndCompleted(s.tasks[Key(input)]) then At(s, h, Done(Ok))
      else At(s, h, Loaded(s.tasks[Key(input)]))
    case Loaded(task) =>
      if input.kind.Error? then
        if FailedAndCompleted(task) then At(s, h, Done(Ok)) else FailTask(s, h, c.fault)
      else if !c.fault.NoFault? then At(s, h, Done(Errored))
      else if HasBatch(s, task.source, TrimSpace(input.batchId)) then At(s, h, Done(Ok))
      else At(s, h, Unseen(task))
    case Unseen(task) => At(s, h, if c.good then Verified(task) else Broken(task))
    case Broken(task) => FailTask(s, h, c.fault)
    case Verified(task) => if c.good then StoreBatch(s, h, task, c.fault) else At(s, h, Done(Invalid))
    case Stored(b) => At(s.(parses := s.parses + [b]), h, Done(Ok))
    case Done(_) => s
  }

  // ---------------------------------------------------------------- steps and runs

  function Cancelled(t: Task): Task {
    if t.status.Pending? || t.status.Running? then t.(status := JobStatus.Cancelled, completed := true) else t
  }

  function Act(s: State, a: Action): State {
    match a
    case Deliver(h, input) => if h in s.handlers then s else s.(handlers := s.handlers[h := Handler(input, Start)])
    case Advance(h, c) => if h in s.handlers then Next(s, h, c) else s
    case Crash(h) =>
      if h !in s.handlers || s.handlers[h].pc.Done? then s
      else
        var pc := s.handlers[h].pc;
        s.(handlers := s.handlers[h := s.handlers[h].(pc := Done(Errored))],
           lost := if pc.Stored? then s.lost + {pc.batch} else s.lost)
    case NewTask(key, task) => if key in s.tasks then s else s.(tasks := s.tasks[key := task])
    case Mark(key, status, completed) =>
      if key in s.tasks then s.(tasks := s.tasks[key := s.tasks[key].(status := status, completed := s.tasks[key].completed || completed)])
      else s
    case CancelTasks(keys) => s.(tasks := map k | k in s.tasks :: if k in keys then Cancelled(s.tasks[k]) else s.tasks[k])
  }

  function After(s: State, actions: seq<Action>): State {
    if actions == [] then s else Act(After(s, actions[..|actions| - 1]), actions[|actions| - 1])
  }

  lemma {:induction false} AfterAppend(s: State, a: seq<Action>, b: seq<Action>)
    ensures After(s, a + b) == After(After(s, a), b)
  {
    if b == [] {
      assert a + b == a;
    } else {
      assert (a + b)[..|a + b| - 1] == a + b[..|b| - 1];
      AfterAppend(s, a, b[..|b| - 1]);
    }
  }

  lemma AfterOne(s: State, a: Action)
    ensures After(s, [a]) == Act(s, a)
  {
    assert [a][..0] == [];
  }

  // ---------------------------------------------------------------- the invariant

  /** The handler about to parse batch `b`. */
  ghost predicate Holds(s: State, h: nat, b: nat) {
    h in s.handlers && s.handlers[h].pc == Stored(b)
  }

  /** Every batch is in exactly one of three conditions: parsed, about to be parsed by one handler, or lost. */
  ghost predicate Inv(s: State) {
    && Distinct(s.batches) && Distinct(s.parses)
    && (forall i :: 0 <= i < |s.parses| ==> s.parses[i] < |s.batches| && s.parses[i] !in s.lost)
    && (forall b :: b in s.lost ==> b < |s.batches|)
    && (forall h: nat, b: nat :: Holds(s, h, b) ==> b < |s.batches| && b !in s.parses && b !in s.lost)
    && (forall h: nat, h': nat, b: nat :: Holds(s, h, b) && Holds(s, h', b) ==> h == h')
    && (forall b: nat :: b < |s.batches| ==> b in s.parses || b in s.lost || exists h: nat :: Holds(s, h, b))
  }

  /** Moving a handler that holds no batch to a place where it holds none. */
  lemma MoveKeepsInv(s: State, h: nat, pc: Pc, tasks: map<string, Task>)
    requires Inv(s) && h in s.handlers && !s.handlers[h].pc.Stored? && !pc.Stored?
    ensures Inv(At(s, h, pc).(tasks := tasks))
  {
    var s' := At(s, h, pc).(tasks := tasks);
    assert forall k: nat, b: nat :: Holds(s', k, b) <==> Holds(s, k, b);
  }

  lemma StoreKeepsInv(s: State, h: nat, task: Task, fault: Fault)
    requires Inv(s) && h in s.handlers && !s.handlers[h].pc.Stored?
    ensures Inv(StoreBatch(s, h, task, fault))
  {
    var s' := StoreBatch(s, h, task, fault);
    var input := s.handlers[h].input;
    if HasBatch(s, task.source, input.batchId) || fault.BeforeCommit? {
      MoveKeepsInv(s, h, Done(if HasBatch(s, task.source, input.batchId) && fault.NoFault? then Ok else Errored), s.tasks);
    } else {
      var b := |s.batches|;
      assert forall k: nat, c: nat :: Holds(s', k, c) <==> (Holds(s, k, c) || (s'.handlers[h].pc == Stored(b) && k == h && c == b));
      forall c: nat | c < |s'.batches| ensures c in s'.parses || c in s'.lost || exists k: nat :: Holds(s', k, c) {
        if c < b && c !in s.parses && c !in s.lost {
          var k: nat :| Holds(s, k, c);
          assert Holds(s', k, c);
        } else if c == b && s'.handlers[h].pc == Stored(b) {
          assert Holds(s', h, b);
        }
      }
    }
  }

  lemma ParseKeepsInv(s: State, h: nat, b: nat)
    requires Inv(s) && Holds(s, h, b)
    ensures Inv(At(s.(parses := s.parses + [b]), h, Done(Ok)))
  {
    var s' := At(s.(parses := s.parses + [b]), h, Done(Ok));
    assert forall k: nat, c: nat :: Holds(s', k, c) <==> Holds(s, k, c) && k != h;
    forall c: nat | c < |s'.batches| ensures c in s'.parses || c in s'.lost || exists k: nat :: Holds(s', k, c) {
      if c == b {
        assert s'.parses[|s.parses|] == b;
      } else if c in s.parses {
        var i :| 0 <= i < |s.parses| && s.parses[i] == c;
        assert s'.parses[i] == c;
      } else if c !in s.lost {
        var k: nat :| Holds(s, k, c);
        assert Holds(s', k, c);
      }
    }
  }

  lemma CrashKeepsInv(s: State, h: nat)
    requires Inv(s) && h in s.handlers && !s.handlers[h].pc.Done?
    ensures Inv(Act(s, Crash(h)))
  {
    var s' := Act(s, Crash(h));
    assert forall k: nat, c: nat :: Holds(s', k, c) <==> Holds(s, k, c) && k != h;
    if s.handlers[h].pc.Stored? {
      assert Holds(s, h, s.handlers[h].pc.batch);
    }
    forall c: nat | c < |s'.batches| ensures c in s'.parses || c in s'.lost || exists k: nat :: Holds(s', k, c) {
      if c !in s.parses && c !in s.lost {
        var k: nat :| Holds(s, k, c);
        assert k != h ==> Holds(s', k, c);
      }
    }
  }

  lemma NextKeepsInv(s: State, h: nat, c: Choice)
    requires Inv(s) && h in s.handlers
    ensures Inv(Next(s, h, c))
  {
    var s' := Next(s, h, c);
    match s.handlers[h].pc
    case Verified(task) =>
      if c.good {
        StoreKeepsInv(s, h, task, c.fault);
      } else {
        MoveKeepsInv(s, h, Done(Invalid), s.tasks);
      }
    case Stored(b) => ParseKeepsInv(s, h, b);
    case Done(_) =>
    case _ => MoveKeepsInv(s, h, s'.handlers[h].pc, s'.tasks);
  }

  lemma OtherKeepsInv(s: State, a: Action)
    requires Inv(s) && !a.Advance? && !a.Crash?
    ensures Inv(Act(s, a))
  {
    assert forall k: nat, b: nat :: Holds(Act(s, a), k, b) <==> Holds(s, k, b);
  }

  lemma ActKeepsInv(s: State, a: Action)
    requires Inv(s)
    ensures Inv(Act(s, a))
  {
    match a
    case Advance(h, c) =>
      if h in s.handlers {
        NextKeepsInv(s, h, c);
      }
    case Crash(h) =>
      if h in s.handlers && !s.handlers[h].pc.Done? {
        CrashKeepsInv(s, h);
      }
    case _ => OtherKeepsInv(s, a);
  }

  /** In every interleaving of any number of handlers over any deliveries, crashes and faults: at most
      one batch per source and batch id, at most one parse per batch, and every batch is parsed,
      about to be parsed by exactly one handler, or lost. */
  lemma {:induction false} RunKeepsInv(s: State, actions: seq<Action>)
    requires Inv(s)
    ensures Inv(After(s, actions))
  {
    if actions != [] {
      RunKeepsInv(s, actions[..|actions| - 1]);
      ActKeepsInv(After(s, actions[..|actions| - 1]), actions[|actions| - 1]);
    }
  }

  /** A run of the service from the start: at most one raw batch per source and batch id, and at most
      one parse of each batch, which is only ever a stored one. */
  lemma AtMostOnce(actions: seq<Action>)
    ensures var s := After(EMPTY, actions);
            && (forall i, j :: 0 <= i < j < |s.batches| ==> s.batches[i] != s.batches[j])
            && (forall i, j :: 0 <= i < j < |s.parses| ==> s.parses[i] != s.parses[j])
            && (forall i :: 0 <= i < |s.parses| ==> s.parses[i] < |s.batches|)
  {
    RunKeepsInv(EMPTY, actions);
  }

  // ---------------------------------------------------------------- what only grows

  ghost predicate Grows(s: State, s': State) {
    && s.batches <= s'.batches && s.parses <= s'.parses && s.lost <= s'.lost
    && (forall k :: k in s.tasks ==> k in s'.tasks && s'.tasks[k].source == s.tasks[k].source)
  }

  lemma ActGrows(s: State, a: Action)
    ensures Grows(s, Act(s, a))
  {
  }

  lemma {:induction false} RunGrows(s: State, actions: seq<Action>)
    ensures Grows(s, After(s, actions))
  {
    if actions != [] {
      RunGrows(s, actions[..|actions| - 1]);
      ActGrows(After(s, actions[..|actions| - 1]), actions[|actions| - 1]);
    }
  }

  /** A lost batch is never parsed afterwards, however often its completion is delivered again. */
  lemma LostIsNeverParsed(s: State, actions: seq<Action>, b: nat)
    requires Inv(s) && b in s.lost
    ensures b !in After(s, actions).parses && s.batches <= After(s, actions).batches
  {
    RunKeepsInv(s, actions);
    RunGrows(s, actions);
  }

  // ---------------------------------------------------------------- where batches come from

  /** A delivered success completion of a task of the batch's source names the batch. */
  ghost predicate Names(s: State, h: nat, batch: Batch) {
    && h in s.handlers
    && var input := s.handlers[h].input;
       ValidInput(input) && input.kind.Success? && input.batchId == batch.batchId
       && Key(input) in s.tasks && s.tasks[Key(input)].source == batch.source
  }

  ghost predicate Named(s: State, batch: Batch) {
    exists h :: h in s.handlers && Names(s, h, batch)
  }

  /** A handler's snapshot is of the row its input names. */
  ghost predicate SnapshotOk(s: State, h: nat)
    requires h in s.handlers
  {
    var input := s.handlers[h].input;
    match s.handlers[h].pc
    case Loaded(t) => ValidInput(input) && Key(input) in s.tasks && s.tasks[Key(input)].source == t.source
    case Unseen(t) => ValidInput(input) && input.kind.Success? && Key(input) in s.tasks && s.tasks[Key(input)].source == t.source
    case Broken(t) => ValidInput(input) && input.kind.Success? && Key(input) in s.tasks && s.tasks[Key(input)].source == t.source
    case Verified(t) => ValidInput(input) && input.kind.Success? && Key(input) in s.tasks && s.tasks[Key(input)].source == t.source
    case _ => true
  }

  ghost predicate Sourced(s: State) {
    && (forall h :: h in s.handlers ==> SnapshotOk(s, h))
    && (forall batch :: batch in s.batches ==> Named(s, batch))
  }

  ghost predicate KeepsInputs(s: State, s': State) {
    && (forall h :: h in s.handlers ==> h in s'.handlers && s'.handlers[h].input == s.handlers[h].input)
    && (forall k :: k in s.tasks ==> k in s'.tasks && s'.tasks[k].source == s.tasks[k].source)
  }

  lemma ActKeepsInputs(s: State, a: Action)
    ensures KeepsInputs(s, Act(s, a))
  {
  }

  lemma SnapshotKept(s: State, s': State, h: nat)
    requires KeepsInputs(s, s') && h in s.handlers && SnapshotOk(s, h) && s'.handlers[h].pc == s.handlers[h].pc
    ensures SnapshotOk(s', h)
  {
  }

  lemma NextSnapshot(s: State, h: nat, c: Choice)
    requires h in s.handlers && SnapshotOk(s, h)
    ensures SnapshotOk(Next(s, h, c), h)
  {
  }

  lemma ActKeepsSnapshots(s: State, a: Action)
    requires forall h :: h in s.handlers ==> SnapshotOk(s, h)
    ensures forall h :: h in Act(s, a).handlers ==> SnapshotOk(Act(s, a), h)
  {
    ActKeepsInputs(s, a);
    var s' := Act(s, a);
    forall h | h in s'.handlers ensures SnapshotOk(s', h) {
      if h in s.handlers && s'.handlers[h].pc == s.handlers[h].pc {
        SnapshotKept(s, s', h);
      } else if a.Advance? {
        NextSnapshot(s, h, a.choice);
      }
    }
  }

  /** The only step that adds a batch is a store of a verified completion. */
  lemma ActStores(s: State, a: Action)
    requires forall h :: h in s.handlers ==> SnapshotOk(s, h)
    ensures Act(s, a).batches == s.batches
            || exists batch :: Act(s, a).batches == s.batches + [batch] && Named(s, batch)
  {
    if a.Advance? && a.h in s.handlers && s.handlers[a.h].pc.Verified? && a.choice.good {
      var batch := Batch(s.handlers[a.h].pc.task.source, s.handlers[a.h].input.batchId);
      assert SnapshotOk(s, a.h) && Names(s, a.h, batch);
    }
  }

  lemma NamedKept(s: State, s': State, batch: Batch)
    requires KeepsInputs(s, s') && Named(s, batch)
    ensures Named(s', batch)
  {
    var h :| h in s.handlers && Names(s, h, batch);
    assert Names(s', h, batch);
  }

  lemma ActKeepsSourced(s: State, a: Action)
    requires Sourced(s)
    ensures Sourced(Act(s, a))
  {
    var s' := Act(s, a);
    ActKeepsInputs(s, a);
    ActKeepsSnapshots(s, a);
    ActStores(s, a);
    forall batch | batch in s'.batches ensures Named(s', batch) {
      NamedKept(s, s', batch);
    }
  }

  /** In every run, every batch was named by a delivered success completion of a task of its source. */
  lemma {:induction false} RunKeepsSourced(actions: seq<Action>)
    ensures Sourced(After(EMPTY, actions))
  {
    if actions != [] {
      RunKeepsSourced(actions[..|actions| - 1]);
      ActKeepsSourced(After(EMPTY, actions[..|actions| - 1]), actions[|actions| - 1]);
    }
  }

  // ---------------------------------------------------------------- silent handlers

  lemma DoneStays(s: State, a: Action, h: nat)
    requires h in s.handlers && s.handlers[h].pc.Done?
    ensures h in Act(s, a).handlers && Act(s, a).handlers[h] == s.handlers[h]
  {
  }

  lemma {:induction false} DoneIsFinal(s: State, actions: seq<Action>, h: nat)
    requires h in s.handlers && s.handlers[h].pc.Done?
    ensures h in After(s, actions).handlers && After(s, actions).handlers[h] == s.handlers[h]
  {
    if actions != [] {
      DoneIsFinal(s, actions[..|actions| - 1], h);
      DoneStays(After(s, actions[..|actions| - 1]), actions[|actions| - 1], h);
    }
  }

  /** A handler that reads a cancelled task with a completion time finishes there: neither that step
      nor any later step of it changes a row or starts a parse. */
  lemma CancelledReaderIsSilent(s: State, h: nat, c: Choice, actions: seq<Action>, c': Choice)
    requires h in s.handlers && s.handlers[h].pc.Start?
    requires Key(s.handlers[h].input) in s.tasks && CancelledAndCompleted(s.tasks[Key(s.handlers[h].input)])
    ensures var s1 := Act(s, Advance(h, c));
            && s1 == s.(handlers := s1.handlers)
            && Act(After(s1, actions), Advance(h, c')) == After(s1, actions)
  {
    var s1 := Act(s, Advance(h, c));
    DoneIsFinal(s1, actions, h);
  }

  // ---------------------------------------------------------------- one delivery handled alone

  const FINE := Choice(NoFault, true)

  /** A completion handled without faults and without interleaving; five calls always suffice. */
  function Alone(h: nat, input: Input): seq<Action> {
    [Deliver(h, input)] + seq(5, i => Advance(h, FINE))
  }

  function Steps(s: State, h: nat, n: nat): (r: State)
    requires h in s.handlers
    ensures r.handlers.Keys == s.handlers.Keys
  {
    if n == 0 then s else Next(Steps(s, h, n - 1), h, FINE)
  }

  lemma {:induction false} RunSteps(s: State, h: nat, n: nat)
    requires h in s.handlers
    ensures After(s, seq(n, i => Advance(h, FINE))) == Steps(s, h, n)
  {
    if n > 0 {
      assert seq(n, i => Advance(h, FINE))[..n - 1] == seq(n - 1, i => Advance(h, FINE));
      RunSteps(s, h, n - 1);
    }
  }

  lemma StepsNext(s: State, h: nat, n: nat, before: State, after: State)
    requires h in s.handlers && Steps(s, h, n) == before && h in before.handlers && Next(before, h, FINE) == after
    ensures Steps(s, h, n + 1) == after
  {
  }

  lemma DoneNext(s: State, h: nat)
    requires h in s.handlers && s.handlers[h].pc.Done?
    ensures Next(s, h, FINE) == s
  {
  }

  lemma DoneAfterTwo(s: State, h: nat, done: State)
    requires h in s.handlers && Steps(s, h, 2) == done && h in done.handlers && done.handlers[h].pc.Done?
    ensures Steps(s, h, 5) == done
  {
    DoneNext(done, h);
    StepsNext(s, h, 2, done, done);
    StepsNext(s, h, 3, done, done);
    StepsNext(s, h, 4, done, done);
  }

  function Delivered(s: State, h: nat, input: Input): State {
    s.(handlers := s.handlers[h := Handler(input, Start)])
  }

  lemma AloneIs(s: State, h: nat, input: Input)
    requires h !in s.handlers
    ensures After(s, Alone(h, input)) == Steps(Delivered(s, h, input), h, 5)
  {
    AfterAppend(s, [Deliver(h, input)], seq(5, i => Advance(h, FINE)));
    AfterOne(s, Deliver(h, input));
    RunSteps(Delivered(s, h, input), h, 5);
  }

  /** The reads of a success completion: a known batch ends it, an unknown one is verified. */
  lemma SuccessReads(s: State, h: nat, input: Input)
    requires h !in s.handlers && ValidInput(input) && input.kind.Success?
    requires Key(input) in s.tasks && !CancelledAndCompleted(s.tasks[Key(input)])
    ensures var t, s0 := s.tasks[Key(input)], Delivered(s, h, input);
            if HasBatch(s, t.source, TrimSpace(input.batchId)) then Steps(s0, h, 2) == At(s0, h, Done(Ok))
            else Steps(s0, h, 3) == At(s0, h, Verified(t))
  {
    var t, s0 := s.tasks[Key(input)], Delivered(s, h, input);
    assert Steps(s0, h, 1) == At(s0, h, Loaded(t));
    if !HasBatch(s, t.source, TrimSpace(input.batchId)) {
      assert Steps(s0, h, 2) == At(s0, h, Unseen(t));
    }
  }

  /** What a success completion adds: nothing when the batch is known. */
  ghost predicate Stores(s: State, input: Input, t: Task, s': State) {
    if HasBatch(s, t.source, TrimSpace(input.batchId)) || HasBatch(s, t.source, input.batchId)
    then s'.batches == s.batches && s'.tasks == s.tasks && s'.parses == s.parses
    else
      && s'.batches == s.batches + [Batch(t.source, input.batchId)]
      && Key(input) in s.tasks
      && s'.tasks == s.tasks[Key(input) := s.tasks[Key(input)].(status := JobStatus.Success, completed := true)]
      && s'.parses == if t.parseable then s.parses + [|s.batches|] else s.parses
  }

  /** The insert, and the parse of a new batch. */
  lemma SuccessStores(s: State, h: nat, t: Task) returns (s4: State, s5: State)
    requires h in s.handlers && Key(s.handlers[h].input) in s.tasks && s.handlers[h].pc == Verified(t)
    requires !HasBatch(s, t.source, TrimSpace(s.handlers[h].input.batchId))
    ensures h in s4.handlers && Next(s, h, FINE) == s4 && Next(s4, h, FINE) == s5
    ensures Stores(s, s.handlers[h].input, t, s5)
  {
    s4 := StoreBatch(s, h, t, NoFault);
    s5 := Next(s4, h, FINE);
  }

  /** What a success completion handled alone leaves behind. */
  lemma SuccessAlone(s: State, h: nat, input: Input)
    requires h !in s.handlers && ValidInput(input) && input.kind.Success?
    requires Key(input) in s.tasks && !CancelledAndCompleted(s.tasks[Key(input)])
    ensures Stores(s, input, s.tasks[Key(input)], After(s, Alone(h, input)))
  {
    var t, s0 := s.tasks[Key(input)], Delivered(s, h, input);
    AloneIs(s, h, input);
    SuccessReads(s, h, input);
    if HasBatch(s, t.source, TrimSpace(input.batchId)) {
      DoneAfterTwo(s0, h, At(s0, h, Done(Ok)));
    } else {
      var s3 := At(s0, h, Verified(t));
      var s4, s5 := SuccessStores(s3, h, t);
      StepsNext(s0, h, 3, s3, s4);
      StepsNext(s0, h, 4, s4, s5);
    }
  }

  /** An error completion handled alone fails its task unless it has failed or been cancelled already:
      a task that was completed with SUCCESS is overwritten. */
  lemma ErrorAlone(s: State, h: nat, input: Input)
    requires h !in s.handlers && ValidInput(input) && input.kind.Error? && Key(input) in s.tasks
    ensures var t := s.tasks[Key(input)];
            var s' := After(s, Alone(h, input));
            && s'.batches == s.batches && s'.parses == s.parses
            && s'.tasks == if FailedAndCompleted(t) then s.tasks
                           else s.tasks[Key(input) := t.(status := JobStatus.Failed, completed := true)]
  {
    var t, s0 := s.tasks[Key(input)], Delivered(s, h, input);
    AloneIs(s, h, input);
    if CancelledAndCompleted(t) {
      assert Steps(s0, h, 1) == At(s0, h, Done(Ok));
      DoneNext(At(s0, h, Done(Ok)), h);
      StepsNext(s0, h, 1, At(s0, h, Done(Ok)), At(s0, h, Done(Ok)));
      DoneAfterTwo(s0, h, At(s0, h, Done(Ok)));
    } else {
      assert Steps(s0, h, 1) == At(s0, h, Loaded(t));
      assert Steps(s0, h, 2) == Next(At(s0, h, Loaded(t)), h, FINE);
      DoneAfterTwo(s0, h, Next(At(s0, h, Loaded(t)), h, FINE));
    }
  }

  /** Two success completions of one task whose batch ids differ in outer blanks only, neither of them stored. */
  ghost predicate PaddedPair(s: State, plain: Input, padded: Input, h: nat, h': nat) {
    && h !in s.handlers && h' !in s.handlers && h != h'
    && ValidInput(plain) && ValidInput(padded) && plain.kind.Success? && padded.kind.Success?
    && Key(plain) == Key(padded) && Key(plain) in s.tasks && !CancelledAndCompleted(s.tasks[Key(plain)])
    && TrimSpace(padded.batchId) == plain.batchId == TrimSpace(plain.batchId) && padded.batchId != plain.batchId
    && !HasBatch(s, s.tasks[Key(plain)].source, plain.batchId) && !HasBatch(s, s.tasks[Key(plain)].source, padded.batchId)
  }

  /** The existence check trims the batch id and the insert does not: a padded id that comes second is
      dropped as a duplicate. */
  lemma PaddedSecondIsDropped(s: State, plain: Input, padded: Input, h: nat, h': nat)
    requires PaddedPair(s, plain, padded, h, h')
    ensures |After(After(s, Alone(h, plain)), Alone(h', padded)).batches| == |s.batches| + 1
  {
    var a := After(s, Alone(h, plain));
    SuccessAlone(s, h, plain);
    HandlersAlone(s, h, plain);
    assert a.batches[|s.batches|] == Batch(s.tasks[Key(plain)].source, plain.batchId);
    SuccessAlone(a, h', padded);
  }

  /** One that comes first is stored beside the plain id that follows: one batch is stored twice. */
  lemma PaddedFirstIsDoubled(s: State, plain: Input, padded: Input, h: nat, h': nat)
    requires PaddedPair(s, plain, padded, h, h')
    ensures |After(After(s, Alone(h', padded)), Alone(h, plain)).batches| == |s.batches| + 2
  {
    var b := After(s, Alone(h', padded));
    SuccessAlone(s, h', padded);
    HandlersAlone(s, h', padded);
    SuccessAlone(b, h, plain);
  }

  lemma HandlersAlone(s: State, h: nat, input: Input)
    requires h !in s.handlers
    ensures After(s, Alone(h, input)).handlers.Keys == s.handlers.Keys + {h}
  {
    AloneIs(s, h, input);
  }
}
