/** The completion handler as the code runs it (internal/execution/usecase/consumer.go), proved to be one
    handler of the machine in Completion, whatever the other handlers do between its calls. */
module Consumer {
  import opened Model
  import opened Text
  import opened Completion
  import HandledTheorems

  const MINIO_VERIFY_RETRY_ATTEMPTS := 3

  /** One look at the object: it exists, and its description could be read. */
  datatype Try = Try(present: bool, described: bool)

  predicate Good(t: Try) {
    t.present && t.described
  }

  class Service {
    const hasMinIO: bool
    var tasks: map<string, Task>
    var batches: seq<Batch>
    var parses: seq<nat>
    var lost: set<nat>
    var handlers: map<nat, Handler>
    /** How many repository calls have reported an error. */
    var failures: nat

    constructor (hasMinIO: bool)
      ensures Now() == EMPTY && this.hasMinIO == hasMinIO
    {
      this.hasMinIO, failures := hasMinIO, 0;
      tasks, batches, parses, lost, handlers := map[], [], [], {}, map[];
    }

    function Now(): State
      reads this
    {
      State(tasks, batches, parses, lost, handlers)
    }

    /** This handler is `h` and stands at `pc`. */
    ghost predicate Stands(h: nat, input: Input, pc: Pc)
      reads this
    {
      h in handlers && handlers[h] == Handler(input, pc)
    }

    /** Any steps of other handlers, and of the other writers of task rows. */
    method OthersAct(h: nat) returns (actions: seq<Action>)
      requires h in handlers
      modifies this
      ensures Reached(h, old(Now()), actions, Now()) && failures == old(failures)
      ensures h in handlers && handlers[h] == old(handlers[h])
    {
      var wanted: seq<Action> := *;
      actions := [];
      ghost var before := Now();
      for i := 0 to |wanted|
        invariant Reached(h, before, actions, Now()) && failures == old(failures)
        invariant h in handlers && handlers[h] == old(handlers[h])
      {
        var a := wanted[i];
        if (a.Advance? || a.Crash?) && a.h == h {
          continue;
        }
        var s := Act(Now(), a);
        ActsElsewhere(Now(), a, h);
        ReachedAdds(h, before, actions, Now(), a);
        actions := actions + [a];
        tasks, batches, parses, lost, handlers := s.tasks, s.batches, s.parses, s.lost, s.handlers;
      }
    }

    // -------------------------------------------------------------- calls

    /** `GetCompletionContext`, after validation. */
    method GetCompletionContext(h: nat, input: Input) returns (found: Option<Task>, failed: bool)
      requires Stands(h, input, Start) && ValidInput(input)
      modifies this`handlers, this`failures
      ensures failures == old(failures) + if failed then 1 else 0
      ensures found.Some? ==> !failed && Key(input) in tasks && found.value == tasks[Key(input)]
      ensures found.None? && !failed ==> Key(input) !in tasks
      ensures var fault := if failed then BeforeCommit else NoFault;
              Now() == Act(old(Now()), Advance(h, Choice(fault, true)))
    {
      failed := *;
      failures := failures + if failed then 1 else 0;
      found := if !failed && Key(input) in tasks then Some(tasks[Key(input)]) else None;
      handlers := handlers[h := Handler(input,
        if failed then Done(Errored) else if found.None? then Done(TaskNotFound)
        else if CancelledAndCompleted(found.value) then Done(Ok) else Loaded(found.value))];
    }

    /** `HasRawBatch`, by the trimmed batch id. */
    method HasRawBatch(h: nat, input: Input, task: Task) returns (known: bool, failed: bool)
      requires Stands(h, input, Loaded(task)) && !input.kind.Error?
      modifies this`handlers, this`failures
      ensures failures == old(failures) + if failed then 1 else 0
      ensures !failed ==> (known <==> Batch(task.source, TrimSpace(input.batchId)) in batches)
      ensures handlers == old(handlers)[h := Handler(input, if failed then Done(Errored) else if known then Done(Ok) else Unseen(task))]
      ensures Now() == Act(old(Now()), Advance(h, Choice(if failed then BeforeCommit else NoFault, true)))
    {
      failed, known := *, Batch(task.source, TrimSpace(input.batchId)) in batches;
      failures := failures + if failed then 1 else 0;
      handlers := handlers[h := Handler(input, if failed then Done(Errored) else if known then Done(Ok) else Unseen(task))];
    }

    /** `verifyMinIOObject`: without a client it fails at once; otherwise it stops at the first attempt
        that finds and describes the object, and after three that do not. `tries` records the attempts. */
    method VerifyMinIOObject() returns (found: bool, ghost tries: seq<Try>)
      ensures !hasMinIO ==> !found && tries == []
      ensures hasMinIO ==> 1 <= |tries| <= 3
      ensures hasMinIO ==> (found <==> Good(tries[|tries| - 1])) && forall i :: 0 <= i < |tries| - 1 ==> !Good(tries[i])
      ensures hasMinIO && !found ==> |tries| == 3
    {
      tries := [];
      if !hasMinIO {
        return false, tries;
      }
      for attempt := 0 to MINIO_VERIFY_RETRY_ATTEMPTS
        invariant |tries| == attempt && forall i :: 0 <= i < attempt ==> !Good(tries[i])
      {
        var present: bool, described: bool := *, *;
        tries := tries + [Try(present, described)];
        if present && described {
          return true, tries;
        }
      }
      return false, tries;
    }

    /** `CompleteTaskError`. */
    method CompleteTaskError(h: nat, input: Input, task: Task) returns (ok: bool)
      requires Stands(h, input, Broken(task)) || (Stands(h, input, Loaded(task)) && input.kind.Error? && !FailedAndCompleted(task))
      modifies this`tasks, this`handlers, this`failures
      ensures failures == old(failures) + if ok then 0 else 1
      ensures Stands(h, input, Done(if ok then Ok else Errored))
      ensures exists fault :: Now() == Act(old(Now()), Advance(h, Choice(fault, true)))
    {
      ghost var before := Now();
      var committed: bool, reported: bool := *, *;
      var key := Key(input);
      if committed && key in tasks {
        tasks := tasks[key := tasks[key].(status := JobStatus.Failed, completed := true)];
      }
      ok := committed && reported;
      failures := failures + if ok then 0 else 1;
      handlers := handlers[h := Handler(input, Done(if ok then Ok else Errored))];
      var fault := if !committed then BeforeCommit else if reported then NoFault else AfterCommit;
      assert Now() == Act(before, Advance(h, Choice(fault, true)));
    }

    /** `CompleteTaskSuccess`: the insert is refused when the exact batch id is there already. */
    method CompleteTaskSuccess(h: nat, input: Input, task: Task) returns (batch: Option<nat>, known: bool, failed: bool)
      requires Stands(h, input, Verified(task))
      modifies this`tasks, this`batches, this`lost, this`handlers, this`failures
      ensures failures == old(failures) + if failed then 1 else 0
      ensures batch.Some? ==> !known && !failed && task.parseable && Stands(h, input, Stored(batch.value))
      ensures batch.None? ==> Stands(h, input, Done(if failed then Errored else Ok))
      ensures exists fault :: Now() == Act(old(Now()), Advance(h, Choice(fault, true)))
    {
      ghost var before := Now();
      var committed: bool, reported: bool := *, *;
      var key, row := Key(input), Batch(task.source, input.batchId);
      known := row in batches;
      batch := None;
      if !known && committed {
        if reported && task.parseable {
          batch := Some(|batches|);
        } else {
          lost := lost + {|batches|};
        }
        batches := batches + [row];
        if key in tasks {
          tasks := tasks[key := tasks[key].(status := JobStatus.Success, completed := true)];
        }
      }
      failed := !committed || !reported;
      failures := failures + if failed then 1 else 0;
      handlers := handlers[h := Handler(input,
        if batch.Some? then Stored(batch.value) else if failed then Done(Errored) else Done(Ok))];
      var fault := if !committed then BeforeCommit else if reported then NoFault else AfterCommit;
      assert Now() == Act(before, Advance(h, Choice(fault, true)));
    }

    /** `ParseAndStoreRawBatch`; its own error is only logged. */
    method ParseAndStoreRawBatch(h: nat, input: Input, batch: nat)
      requires Stands(h, input, Stored(batch))
      modifies this`parses, this`handlers
      ensures parses == old(parses) + [batch]
      ensures Stands(h, input, Done(Ok))
      ensures Now() == Act(old(Now()), Advance(h, FINE))
    {
      parses := parses + [batch];
      handlers := handlers[h := Handler(input, Done(Ok))];
    }

    /** A step that needs no call: it only moves the handler. */
    method MoveOn(h: nat, input: Input, pc: Pc, ghost c: Choice)
      requires h in handlers && handlers[h].input == input && c.fault == NoFault && Next(Now(), h, c) == At(Now(), h, pc)
      modifies this`handlers
      ensures Now() == Act(old(Now()), Advance(h, c)) && Stands(h, input, pc)
    {
      handlers := handlers[h := Handler(input, pc)];
    }

    // -------------------------------------------------------------- the handler

    /** The error branch. */
    method HandleError(h: nat, input: Input, task: Task) returns (result: Result, ghost trace: seq<Action>)
      requires Stands(h, input, Loaded(task)) && input.kind.Error?
      modifies this
      ensures Reached(h, old(Now()), trace, Now()) && Stands(h, input, Done(result))
      ensures failures == old(failures) + if result.Errored? then 1 else 0
    {
      var others := OthersAct(h);
      ghost var s1 := Now();
      if FailedAndCompleted(task) {
        MoveOn(h, input, Done(Ok), FINE);
        ReachedAdds(h, old(Now()), others, s1, Advance(h, FINE));
        return Ok, others + [Advance(h, FINE)];
      }
      var ok := CompleteTaskError(h, input, task);
      ghost var fault :| Now() == Act(s1, Advance(h, Choice(fault, true)));
      ReachedAdds(h, old(Now()), others, s1, Advance(h, Choice(fault, true)));
      return if ok then Ok else Errored, others + [Advance(h, Choice(fault, true))];
    }

    /** From the existence check to the verdict of MinIO. */
    method CheckAndVerify(h: nat, input: Input, task: Task) returns (finished: Option<Result>, verified: bool, ghost trace: seq<Action>)
      requires Stands(h, input, Loaded(task)) && !input.kind.Error?
      modifies this
      ensures Reached(h, old(Now()), trace, Now())
      ensures failures == old(failures) + if finished == Some(Errored) then 1 else 0
      ensures finished.Some? ==> Stands(h, input, Done(finished.value))
      ensures finished.None? ==> Stands(h, input, if verified then Verified(task) else Broken(task))
    {
      verified := false;
      var others := OthersAct(h);
      ghost var s1 := Now();
      var known, failed := HasRawBatch(h, input, task);
      ghost var c := Choice(if failed then BeforeCommit else NoFault, true);
      ReachedAdds(h, old(Now()), others, s1, Advance(h, c));
      trace := others + [Advance(h, c)];
      if failed {
        return Some(Errored), false, trace;
      }
      if known {
        return Some(Ok), false, trace;
      }
      ghost var s2 := Now();
      verified := Look(h, input, task);
      ghost var c' := Choice(NoFault, verified);
      ReachedAdds(h, old(Now()), trace, s2, Advance(h, c'));
      return None, verified, trace + [Advance(h, c')];
    }

    /** The look at the object decides how to go on. */
    method Look(h: nat, input: Input, task: Task) returns (verified: bool)
      requires Stands(h, input, Unseen(task))
      modifies this`handlers
      ensures Now() == Act(old(Now()), Advance(h, Choice(NoFault, verified)))
      ensures Stands(h, input, if verified then Verified(task) else Broken(task))
    {
      ghost var tries;
      verified, tries := VerifyMinIOObject();
      MoveOn(h, input, if verified then Verified(task) else Broken(task), Choice(NoFault, verified));
    }

    /** A missing object fails its task; a verified one is stored, and a new batch is parsed. */
    method StoreAndParse(h: nat, input: Input, task: Task, verified: bool) returns (result: Result, ghost trace: seq<Action>)
      requires Stands(h, input, if verified then Verified(task) else Broken(task))
      modifies this
      ensures Reached(h, old(Now()), trace, Now()) && Stands(h, input, Done(result))
      ensures failures == old(failures) + if result.Errored? then 1 else 0
    {
      var others := OthersAct(h);
      ghost var s1 := Now();
      if !verified {
        var ok := CompleteTaskError(h, input, task);
        ghost var fault :| Now() == Act(s1, Advance(h, Choice(fault, true)));
        ReachedAdds(h, old(Now()), others, s1, Advance(h, Choice(fault, true)));
        return if ok then Ok else Errored, others + [Advance(h, Choice(fault, true))];
      }
      var encoded: bool := *;
      if !encoded {
        MoveOn(h, input, Done(Invalid), Choice(NoFault, false));
        ReachedAdds(h, old(Now()), others, s1, Advance(h, Choice(NoFault, false)));
        return Invalid, others + [Advance(h, Choice(NoFault, false))];
      }
      var batch, known, failed := CompleteTaskSuccess(h, input, task);
      ghost var fault :| Now() == Act(s1, Advance(h, Choice(fault, true)));
      ReachedAdds(h, old(Now()), others, s1, Advance(h, Choice(fault, true)));
      trace := others + [Advance(h, Choice(fault, true))];
      if batch.None? {
        return if failed then Errored else Ok, trace;
      }
      ghost var s2 := Now();
      var more := OthersAct(h);
      ReachedThen(h, old(Now()), trace, s2, more, Now());
      ghost var s3 := Now();
      ParseAndStoreRawBatch(h, input, batch.value);
      ReachedAdds(h, old(Now()), trace + more, s3, Advance(h, FINE));
      return Ok, trace + more + [Advance(h, FINE)];
    }

    /** `HandleCompletion`: whatever the other handlers do in between, the state it leaves is one that
        the machine reaches with this handler finished, which answers an error exactly when one of its
        repository calls did. A refused input changes nothing. */
    method HandleCompletion(h: nat, input: Input) returns (result: Result, ghost trace: seq<Action>)
      requires Stands(h, input, Start)
      modifies this
      ensures Reached(h, old(Now()), trace, Now()) && Stands(h, input, Done(result))
      ensures failures == old(failures) + if result.Errored? then 1 else 0
      ensures HandledTheorems.Refused(input) ==> result == Invalid && Now() == HandledTheorems.Ended(old(Now()), h, input, Invalid)
    {
      if !ValidInput(input) {
        MoveOn(h, input, Done(Invalid), FINE);
        ReachedAdds(h, old(Now()), [], old(Now()), Advance(h, FINE));
        assert [] + [Advance(h, FINE)] == [Advance(h, FINE)];
        return Invalid, [Advance(h, FINE)];
      }
      var others := OthersAct(h);
      ghost var s1 := Now();
      var found, failed := GetCompletionContext(h, input);
      ghost var c := Choice(if failed then BeforeCommit else NoFault, true);
      ReachedAdds(h, old(Now()), others, s1, Advance(h, c));
      trace := others + [Advance(h, c)];
      if failed {
        return Errored, trace;
      }
      if found.None? {
        return TaskNotFound, trace;
      }
      if CancelledAndCompleted(found.value) {
        return Ok, trace;
      }
      ghost var s2, rest := Now(), trace;
      result, rest := HandleLoaded(h, input, found.value);
      ReachedThen(h, old(Now()), trace, s2, rest, Now());
      trace := trace + rest;
    }

    method HandleLoaded(h: nat, input: Input, task: Task) returns (result: Result, ghost trace: seq<Action>)
      requires Stands(h, input, Loaded(task))
      modifies this
      ensures Reached(h, old(Now()), trace, Now()) && Stands(h, input, Done(result))
      ensures failures == old(failures) + if result.Errored? then 1 else 0
    {
      if input.kind.Error? {
        result, trace := HandleError(h, input, task);
        return;
      }
      var finished, verified, begun := CheckAndVerify(h, input, task);
      if finished.Some? {
        return finished.value, begun;
      }
      ghost var s1, rest := Now(), begun;
      result, rest := StoreAndParse(h, input, task, verified);
      ReachedThen(h, old(Now()), begun, s1, rest, Now());
      trace := begun + rest;
    }
  }

  /** The machine gets from one state to the other by these actions, in which handler `h` does not crash. */
  ghost predicate Reached(h: nat, before: State, actions: seq<Action>, now: State) {
    && now == After(before, actions)
    && forall i :: 0 <= i < |actions| && actions[i].Crash? ==> actions[i].h != h
  }

  lemma ReachedAdds(h: nat, before: State, actions: seq<Action>, now: State, a: Action)
    requires Reached(h, before, actions, now) && !(a.Crash? && a.h == h)
    ensures Reached(h, before, actions + [a], Act(now, a))
  {
    AfterAdds(before, actions, a);
  }

  lemma ReachedThen(h: nat, before: State, a: seq<Action>, middle: State, b: seq<Action>, now: State)
    requires Reached(h, before, a, middle) && Reached(h, middle, b, now)
    ensures Reached(h, before, a + b, now)
  {
    AfterAppend(before, a, b);
  }

  lemma ActsElsewhere(s: State, a: Action, h: nat)
    requires h in s.handlers && !((a.Advance? || a.Crash?) && a.h == h)
    ensures h in Act(s, a).handlers && Act(s, a).handlers[h] == s.handlers[h]
  {
  }

  lemma AfterAdds(s: State, actions: seq<Action>, a: Action)
    ensures After(s, actions + [a]) == Act(After(s, actions), a)
  {
    assert (actions + [a])[..|actions|] == actions;
  }
}
