/** One completion handled without interleaving, whatever its calls answer: the big-step reading of the
    machine in Completion (internal/execution/usecase/consumer.go). */
module HandledTheorems {
  import opened Model
  import opened Text
  import opened Completion

  /** How the calls of one handler turn out: reading the task, looking up the batch, finding the object,
      encoding the metadata, and the transaction that settles the task. */
  datatype Calls = Calls(read: Fault, lookup: Fault, found: bool, encoded: bool, settle: Fault)

  function Choices(input: Input, c: Calls): seq<Choice> {
    [Choice(c.read, true), Choice(if input.kind.Error? then c.settle else c.lookup, true), Choice(NoFault, c.found),
     Choice(c.settle, c.encoded), FINE]
  }

  function Advances(h: nat, choices: seq<Choice>): seq<Action> {
    seq(|choices|, i requires 0 <= i < |choices| => Advance(h, choices[i]))
  }

  // ---------------------------------------------------------------- the verdict

  /** An input without a task, of an unknown kind, or a success without its object or batch. */
  predicate Refused(input: Input) {
    || TrimSpace(input.taskId) == "" || input.kind == Other
    || (input.kind == Kind.Success && "" in {TrimSpace(input.bucket), TrimSpace(input.path), TrimSpace(input.batchId)})
  }

  /** The handler ends with this result, and nothing else has changed. */
  function Ended(s: State, h: nat, input: Input, result: Result): State {
    s.(handlers := s.handlers[h := Handler(input, Done(result))])
  }

  function Told(fault: Fault): Result {
    if fault == NoFault then Ok else Errored
  }

  function WithTask(s: State, key: string, status: JobStatus): State
    requires key in s.tasks
  {
    s.(tasks := s.tasks[key := s.tasks[key].(status := status, completed := true)])
  }

  /** The task fails, unless the transaction was not committed. */
  function TaskFailed(s: State, h: nat, input: Input, key: string, settle: Fault): State
    requires key in s.tasks
  {
    Ended(if settle == BeforeCommit then s else WithTask(s, key, JobStatus.Failed), h, input, Told(settle))
  }

  /** A new batch is stored and its task succeeds; it is parsed if the task can be and the answer arrived. */
  function BatchStored(s: State, h: nat, input: Input, key: string, settle: Fault): State
    requires key in s.tasks
  {
    var t, b := s.tasks[key], |s.batches|;
    if settle == BeforeCommit then Ended(s, h, input, Errored)
    else
      var stored := WithTask(s, key, JobStatus.Success).(batches := s.batches + [Batch(t.source, input.batchId)]);
      if settle == NoFault && t.parseable then Ended(stored.(parses := s.parses + [b]), h, input, Ok)
      else Ended(stored.(lost := s.lost + {b}), h, input, Told(settle))
  }

  /** A success whose batch is new: a missing object fails the task, metadata that cannot be encoded ends it,
      and a batch stored meanwhile under the exact id is not stored again. */
  function ObjectHandled(s: State, h: nat, input: Input, key: string, c: Calls): State
    requires key in s.tasks
  {
    if !c.found then TaskFailed(s, h, input, key, c.settle)
    else if !c.encoded then Ended(s, h, input, Invalid)
    else if Batch(s.tasks[key].source, input.batchId) in s.batches then Ended(s, h, input, Told(c.settle))
    else BatchStored(s, h, input, key, c.settle)
  }

  /** From the task on: an error fails it unless it has failed, a success is dropped when its batch is known. */
  function TaskHandled(s: State, h: nat, input: Input, key: string, c: Calls): State
    requires key in s.tasks
  {
    var t := s.tasks[key];
    if input.kind == Error then
      if t.completed && t.status in {JobStatus.Failed, JobStatus.Cancelled} then Ended(s, h, input, Ok) else TaskFailed(s, h, input, key, c.settle)
    else if c.lookup != NoFault then Ended(s, h, input, Errored)
    else if Batch(t.source, TrimSpace(input.batchId)) in s.batches then Ended(s, h, input, Ok)
    else ObjectHandled(s, h, input, key, c)
  }

  /** What one completion leaves behind when it is handled alone. */
  function Handled(s: State, h: nat, input: Input, c: Calls): State {
    var key := TrimSpace(input.taskId);
    if Refused(input) then Ended(s, h, input, Invalid)
    else if c.read != NoFault then Ended(s, h, input, Errored)
    else if key !in s.tasks then Ended(s, h, input, TaskNotFound)
    else if s.tasks[key].completed && s.tasks[key].status == JobStatus.Cancelled then Ended(s, h, input, Ok)
    else TaskHandled(s, h, input, key, c)
  }

  // ---------------------------------------------------------------- the machine

  function Advanced(s: State, h: nat, choices: seq<Choice>): State
    requires h in s.handlers
    decreases |choices|
  {
    if choices == [] then s else Advanced(Next(s, h, choices[0]), h, choices[1..])
  }

  lemma {:induction false} AdvancedIs(s: State, h: nat, choices: seq<Choice>)
    requires h in s.handlers
    ensures After(s, Advances(h, choices)) == Advanced(s, h, choices)
    decreases |choices|
  {
    if choices != [] {
      var first := [Advance(h, choices[0])];
      assert Advances(h, choices) == first + Advances(h, choices[1..]);
      AfterAppend(s, first, Advances(h, choices[1..]));
      AfterOne(s, first[0]);
      AdvancedIs(Next(s, h, choices[0]), h, choices[1..]);
    }
  }

  lemma {:induction false} DoneStays(s: State, h: nat, choices: seq<Choice>)
    requires h in s.handlers && s.handlers[h].pc.Done?
    ensures Advanced(s, h, choices) == s
    decreases |choices|
  {
    if choices != [] {
      DoneStays(s, h, choices[1..]);
    }
  }

  lemma Steps(s: State, h: nat, choices: seq<Choice>, s': State)
    requires h in s.handlers && choices != [] && Next(s, h, choices[0]) == s'
    ensures Advanced(s, h, choices) == Advanced(s', h, choices[1..])
  {
  }

  /** `At(s, h, pc)` for a handler that is not there yet. */
  function Standing(s: State, h: nat, input: Input, pc: Pc): State {
    s.(handlers := s.handlers[h := Handler(input, pc)])
  }

  lemma ReadStep(s: State, h: nat, input: Input, c: Calls)
    requires h !in s.handlers
    ensures var s' := Next(Standing(s, h, input, Start), h, Choices(input, c)[0]);
            s' == if Refused(input) || c.read != NoFault || Key(input) !in s.tasks || (s.tasks[Key(input)].completed && s.tasks[Key(input)].status.Cancelled?)
                  then Handled(s, h, input, c) else Standing(s, h, input, Loaded(s.tasks[Key(input)]))
  {
  }

  lemma LoadedStep(s: State, h: nat, input: Input, c: Calls)
    requires h !in s.handlers && input.kind != Other && Key(input) in s.tasks
    ensures var t := s.tasks[Key(input)];
            var s' := Next(Standing(s, h, input, Loaded(t)), h, Choices(input, c)[1]);
            s' == if input.kind == Error || c.lookup != NoFault || Batch(t.source, TrimSpace(input.batchId)) in s.batches
                  then TaskHandled(s, h, input, Key(input), c) else Standing(s, h, input, Unseen(t))
  {
    var t := s.tasks[Key(input)];
    FailsTask(s, h, input, Loaded(t), c.settle);
  }

  lemma FailsTask(s: State, h: nat, input: Input, pc: Pc, fault: Fault)
    requires h !in s.handlers && Key(input) in s.tasks
    ensures FailTask(Standing(s, h, input, pc), h, fault) == TaskFailed(s, h, input, Key(input), fault)
  {
  }

  lemma StoresBatch(s: State, h: nat, input: Input, fault: Fault)
    requires h !in s.handlers && Key(input) in s.tasks
    ensures var t := s.tasks[Key(input)];
            var s4 := StoreBatch(Standing(s, h, input, Verified(t)), h, t, fault);
            var ended := if Batch(t.source, input.batchId) in s.batches then Ended(s, h, input, Told(fault))
                         else BatchStored(s, h, input, Key(input), fault);
            if s4.handlers[h].pc.Done? then s4 == ended
            else Next(s4, h, FINE) == ended && ended.handlers[h].pc.Done?
  {
  }

  lemma SettleStep(s: State, h: nat, input: Input, c: Calls)
    requires h !in s.handlers && Key(input) in s.tasks
    ensures var t := s.tasks[Key(input)];
            var s4 := Next(Standing(s, h, input, if c.found then Verified(t) else Broken(t)), h, Choices(input, c)[3]);
            ObjectHandled(s, h, input, Key(input), c) == if s4.handlers[h].pc.Done? then s4 else Next(s4, h, FINE)
  {
    var t := s.tasks[Key(input)];
    if !c.found {
      FailsTask(s, h, input, Broken(t), c.settle);
    } else if c.encoded {
      StoresBatch(s, h, input, c.settle);
    }
  }

  lemma LastStep(s: State, h: nat, choice: Choice, s': State)
    requires h in s.handlers && Next(s, h, choice) == s' && h in s'.handlers
    ensures Advanced(s, h, [choice]) == s'
  {
    assert [choice][1..] == [];
  }

  /** From the look at the object to the end. */
  lemma ObjectSteps(s: State, h: nat, input: Input, c: Calls)
    requires h !in s.handlers && Key(input) in s.tasks
    ensures Advanced(Standing(s, h, input, Unseen(s.tasks[Key(input)])), h, Choices(input, c)[2..]) == ObjectHandled(s, h, input, Key(input), c)
  {
    var t, choices := s.tasks[Key(input)], Choices(input, c);
    assert choices[2..][1..] == choices[3..] && choices[3..][1..] == choices[4..] && choices[4..] == [FINE];
    var s3 := Standing(s, h, input, if c.found then Verified(t) else Broken(t));
    Steps(Standing(s, h, input, Unseen(t)), h, choices[2..], s3);
    var s4 := Next(s3, h, choices[3]);
    Steps(s3, h, choices[3..], s4);
    SettleStep(s, h, input, c);
    if s4.handlers[h].pc.Done? {
      DoneStays(s4, h, [FINE]);
    } else {
      LastStep(s4, h, FINE, Next(s4, h, FINE));
    }
  }

  lemma TaskSteps(s: State, h: nat, input: Input, c: Calls)
    requires h !in s.handlers && input.kind != Other && Key(input) in s.tasks
    ensures Advanced(Standing(s, h, input, Loaded(s.tasks[Key(input)])), h, Choices(input, c)[1..]) == TaskHandled(s, h, input, Key(input), c)
  {
    var choices, s1 := Choices(input, c), Standing(s, h, input, Loaded(s.tasks[Key(input)]));
    var s2 := Next(s1, h, choices[1]);
    assert choices[1..][1..] == choices[2..];
    Steps(s1, h, choices[1..], s2);
    LoadedStep(s, h, input, c);
    if s2.handlers[h].pc.Done? {
      DoneStays(s2, h, choices[2..]);
    } else {
      ObjectSteps(s, h, input, c);
    }
  }

  /** A completion that is delivered and handled alone leaves exactly what the verdict says. */
  lemma HandledExactly(s: State, h: nat, input: Input, c: Calls)
    requires h !in s.handlers
    ensures After(s, [Deliver(h, input)] + Advances(h, Choices(input, c))) == Handled(s, h, input, c)
  {
    var choices, s0 := Choices(input, c), Standing(s, h, input, Start);
    AfterAppend(s, [Deliver(h, input)], Advances(h, choices));
    AfterOne(s, Deliver(h, input));
    AdvancedIs(s0, h, choices);
    var s1 := Next(s0, h, choices[0]);
    Steps(s0, h, choices, s1);
    ReadStep(s, h, input, c);
    if s1.handlers[h].pc.Done? {
      DoneStays(s1, h, choices[1..]);
    } else {
      TaskSteps(s, h, input, c);
    }
  }
}
