/** When a stored batch is never parsed, and when one batch is stored twice. */
module BatchTheorems {
  import opened Model
  import opened Text
  import opened Values
  import opened Completion

  // ---------------------------------------------------------------- lost batches

  /** The actions that lose a batch: a crash between the insert and the parse, an insert of a new batch
      whose acknowledgement is lost, and one for a task that cannot be parsed. */
  predicate Loses(s: State, a: Action) {
    match a
    case Crash(h) => h in s.handlers && s.handlers[h].pc.Stored?
    case Advance(h, c) =>
      && h in s.handlers && s.handlers[h].pc.Verified? && c.good
      && var task := s.handlers[h].pc.task;
         !HasBatch(s, task.source, s.handlers[h].input.batchId)
         && (c.fault.AfterCommit? || (c.fault.NoFault? && !task.parseable))
    case _ => false
  }

  lemma StepLosesExactly(s: State, a: Action)
    requires Inv(s)
    ensures Act(s, a).lost != s.lost <==> Loses(s, a)
  {
    if a.Crash? && a.h in s.handlers && s.handlers[a.h].pc.Stored? {
      assert Holds(s, a.h, s.handlers[a.h].pc.batch);
    }
    if a.Advance? && Loses(s, a) {
      assert |s.batches| in Act(s, a).lost && |s.batches| !in s.lost;
    }
  }

  /** The action at position `i` of a run from the start loses a batch. */
  predicate LosesAt(actions: seq<Action>, i: nat)
    requires i < |actions|
  {
    Loses(After(EMPTY, actions[..i]), actions[i])
  }

  predicate LosesSome(actions: seq<Action>) {
    exists i :: 0 <= i < |actions| && LosesAt(actions, i)
  }

  lemma LosesSomeSplits(actions: seq<Action>, n: nat)
    requires n + 1 == |actions|
    ensures LosesSome(actions) <==> LosesSome(actions[..n]) || LosesAt(actions, n)
  {
    forall i | 0 <= i < n ensures LosesAt(actions[..n], i) == LosesAt(actions, i) {
      assert actions[..n][..i] == actions[..i];
    }
  }

  /** A run loses nothing exactly when none of its actions loses a batch. */
  lemma {:induction false} RunLosesExactly(actions: seq<Action>)
    ensures After(EMPTY, actions).lost != {} <==> LosesSome(actions)
  {
    if actions != [] {
      var n := |actions| - 1;
      var s := After(EMPTY, actions[..n]);
      RunLosesExactly(actions[..n]);
      RunKeepsInv(EMPTY, actions[..n]);
      StepLosesExactly(s, actions[n]);
      ActGrows(s, actions[n]);
      LosesSomeSplits(actions, n);
    }
  }

  /** Then every batch is parsed, or about to be parsed by exactly one handler. */
  lemma NothingLostAllParsed(actions: seq<Action>, b: nat)
    requires b < |After(EMPTY, actions).batches| && !LosesSome(actions)
    ensures var s := After(EMPTY, actions);
            && (b in s.parses || exists h: nat :: Holds(s, h, b))
            && !(b in s.parses && exists h: nat :: Holds(s, h, b))
            && forall h: nat, h': nat :: Holds(s, h, b) && Holds(s, h', b) ==> h == h'
  {
    RunLosesExactly(actions);
    RunKeepsInv(EMPTY, actions);
  }

  /** No continuation whatever parses the batch. */
  ghost predicate NeverParsed(s: State, b: nat) {
    forall actions: seq<Action> :: b !in After(s, actions).parses
  }

  /** What the ledger of lost batches means: those that no continuation parses. Every other stored
      batch is parsed already, or by some continuation. */
  lemma LostExactly(s: State, b: nat)
    requires Inv(s) && b < |s.batches|
    ensures NeverParsed(s, b) <==> b in s.lost
  {
    if b in s.lost {
      forall actions: seq<Action> ensures b !in After(s, actions).parses {
        LostIsNeverParsed(s, actions, b);
      }
    } else if b in s.parses {
      assert After(s, []) == s;
    } else {
      var h: nat :| Holds(s, h, b);
      AfterOne(s, Advance(h, FINE));
      assert After(s, [Advance(h, FINE)]).parses[|s.parses|] == b;
    }
  }

  /** Over whole runs: some stored batch can never be parsed exactly when some action lost one. */
  lemma UnparsedExactly(actions: seq<Action>)
    ensures (exists b: nat | b < |After(EMPTY, actions).batches| :: NeverParsed(After(EMPTY, actions), b)) <==> LosesSome(actions)
  {
    var s := After(EMPTY, actions);
    RunLosesExactly(actions);
    RunKeepsInv(EMPTY, actions);
    if b: nat :| b < |s.batches| && NeverParsed(s, b) {
      LostExactly(s, b);
    }
    if b :| b in s.lost {
      LostExactly(s, b);
    }
  }

  function UpToInsert(h: nat, input: Input): seq<Action> {
    [Deliver(h, input)] + seq(3, i => Advance(h, FINE))
  }

  /** It does happen, to every new batch: the insert commits and the handler is told otherwise. */
  lemma EveryNewBatchCanBeLost(s: State, h: nat, input: Input)
    requires Inv(s) && h !in s.handlers && ValidInput(input) && input.kind.Success?
    requires Key(input) in s.tasks && !CancelledAndCompleted(s.tasks[Key(input)])
    requires !HasBatch(s, s.tasks[Key(input)].source, TrimSpace(input.batchId)) && !HasBatch(s, s.tasks[Key(input)].source, input.batchId)
    ensures var s' := After(s, UpToInsert(h, input) + [Advance(h, Choice(AfterCommit, true))]);
            |s'.batches| == |s.batches| + 1 && NeverParsed(s', |s.batches|)
  {
    var t, s0, before, lose := s.tasks[Key(input)], Delivered(s, h, input), UpToInsert(h, input), Advance(h, Choice(AfterCommit, true));
    AfterAppend(s, [Deliver(h, input)], seq(3, i => Advance(h, FINE)));
    AfterOne(s, Deliver(h, input));
    RunSteps(s0, h, 3);
    SuccessReads(s, h, input);
    var s3 := At(s0, h, Verified(t));
    assert After(s, before) == s3;
    AfterAppend(s, before, [lose]);
    AfterOne(s3, lose);
    RunKeepsInv(s, before + [lose]);
    LosesNow(s3, h, t);
    LostExactly(After(s, before + [lose]), |s.batches|);
  }

  lemma LosesNow(s: State, h: nat, t: Task)
    requires h in s.handlers && s.handlers[h].pc == Verified(t) && !HasBatch(s, t.source, s.handlers[h].input.batchId)
    ensures var s' := Act(s, Advance(h, Choice(AfterCommit, true)));
            |s'.batches| == |s.batches| + 1 && |s.batches| in s'.lost
  {
  }

  /** So some run from the start ends with a stored batch that is never parsed. */
  lemma SomeRunLosesABatch()
    ensures exists actions: seq<Action> :: |After(EMPTY, actions).batches| == 1 && NeverParsed(After(EMPTY, actions), 0)
  {
    var make, input := NewTask("t", Task(0, true, JobStatus.Running, false)), Input("t", Kind.Success, "b", "c", "d");
    TrimmedIsFixed("t");
    TrimmedIsFixed("b");
    TrimmedIsFixed("c");
    TrimmedIsFixed("d");
    var s := Act(EMPTY, make);
    AfterOne(EMPTY, make);
    RunKeepsInv(EMPTY, [make]);
    EveryNewBatchCanBeLost(s, 0, input);
    AfterAppend(EMPTY, [make], UpToInsert(0, input) + [Advance(0, Choice(AfterCommit, true))]);
  }

  // ---------------------------------------------------------------- batches stored twice

  /** Some stored batch of the source trims to the same id. */
  ghost predicate KnownTwin(s: State, source: Id, batchId: string) {
    exists b :: b in s.batches && b.source == source && TrimSpace(b.batchId) == TrimSpace(batchId)
  }

  ghost predicate Twins(a: Batch, b: Batch) {
    a.source == b.source && TrimSpace(a.batchId) == TrimSpace(b.batchId)
  }

  /** The stored batches of one source are pairwise different after trimming. */
  ghost predicate NoTwins(s: State) {
    forall i, j :: 0 <= i < j < |s.batches| ==> !Twins(s.batches[i], s.batches[j])
  }

  /** In every state, a success handled alone stores a batch that trims like a stored one exactly when
      there is one and neither the trimmed nor the exact id is stored. */
  lemma AloneAddsTwinExactly(s: State, h: nat, input: Input)
    requires h !in s.handlers && ValidInput(input) && input.kind.Success?
    requires Key(input) in s.tasks && !CancelledAndCompleted(s.tasks[Key(input)])
    ensures var source, s' := s.tasks[Key(input)].source, After(s, Alone(h, input));
            (exists b :: s'.batches == s.batches + [b] && KnownTwin(s, b.source, b.batchId))
            <==> && KnownTwin(s, source, input.batchId)
                 && Batch(source, TrimSpace(input.batchId)) !in s.batches && Batch(source, input.batchId) !in s.batches
  {
    var source, s' := s.tasks[Key(input)].source, After(s, Alone(h, input));
    SuccessAlone(s, h, input);
    if |s'.batches| > |s.batches| {
      var added := Batch(source, input.batchId);
      assert s'.batches == s.batches + [added];
      forall b | s'.batches == s.batches + [b] ensures b == added {
        assert s'.batches[|s.batches|] == b && s'.batches[|s.batches|] == added;
      }
    }
  }

  /** The actions that store a twin: a committing insert of a new exact id whose trimmed form is known. */
  ghost predicate StoresTwin(s: State, a: Action) {
    && a.Advance? && a.h in s.handlers && s.handlers[a.h].pc.Verified?
    && a.choice.good && !a.choice.fault.BeforeCommit?
    && var source, batchId := s.handlers[a.h].pc.task.source, s.handlers[a.h].input.batchId;
       !HasBatch(s, source, batchId) && KnownTwin(s, source, batchId)
  }

  /** The batch an action adds, if any. */
  lemma ActAdds(s: State, a: Action)
    ensures var s' := Act(s, a);
            if a.Advance? && a.h in s.handlers && s.handlers[a.h].pc.Verified? && a.choice.good && !a.choice.fault.BeforeCommit?
               && !HasBatch(s, s.handlers[a.h].pc.task.source, s.handlers[a.h].input.batchId)
            then s'.batches == s.batches + [Batch(s.handlers[a.h].pc.task.source, s.handlers[a.h].input.batchId)]
            else s'.batches == s.batches
  {
  }

  lemma AddingKeepsNoTwins(s: State, s': State, b: Batch)
    requires NoTwins(s) && s'.batches == s.batches + [b]
    ensures NoTwins(s') <==> !KnownTwin(s, b.source, b.batchId)
  {
    if KnownTwin(s, b.source, b.batchId) {
      var twin :| twin in s.batches && twin.source == b.source && TrimSpace(twin.batchId) == TrimSpace(b.batchId);
      var i :| 0 <= i < |s.batches| && s.batches[i] == twin;
      assert Twins(s'.batches[i], s'.batches[|s.batches|]);
    } else {
      forall i, j | 0 <= i < j < |s'.batches| ensures !Twins(s'.batches[i], s'.batches[j]) {
        assert s'.batches[i] in s.batches;
      }
    }
  }

  lemma StepKeepsNoTwinsExactly(s: State, a: Action)
    requires NoTwins(s)
    ensures NoTwins(Act(s, a)) <==> !StoresTwin(s, a)
  {
    ActAdds(s, a);
    if Act(s, a).batches != s.batches {
      var b := Batch(s.handlers[a.h].pc.task.source, s.handlers[a.h].input.batchId);
      AddingKeepsNoTwins(s, Act(s, a), b);
    }
  }

  lemma GrowingKeepsTwins(s: State, s': State)
    requires s.batches <= s'.batches && !NoTwins(s)
    ensures !NoTwins(s')
  {
    var i, j :| 0 <= i < j < |s.batches| && Twins(s.batches[i], s.batches[j]);
    assert Twins(s'.batches[i], s'.batches[j]);
  }

  ghost predicate StoresTwinAt(actions: seq<Action>, i: nat)
    requires i < |actions|
  {
    StoresTwin(After(EMPTY, actions[..i]), actions[i])
  }

  ghost predicate StoresSomeTwin(actions: seq<Action>) {
    exists i :: 0 <= i < |actions| && StoresTwinAt(actions, i)
  }

  lemma StoresSomeTwinSplits(actions: seq<Action>, n: nat)
    requires n + 1 == |actions|
    ensures StoresSomeTwin(actions) <==> StoresSomeTwin(actions[..n]) || StoresTwinAt(actions, n)
  {
    forall i | 0 <= i < n ensures StoresTwinAt(actions[..n], i) == StoresTwinAt(actions, i) {
      assert actions[..n][..i] == actions[..i];
    }
  }

  /** A run stores each trimmed batch once exactly when none of its actions stores a twin. */
  lemma {:induction false} RunKeepsNoTwinsExactly(actions: seq<Action>)
    ensures NoTwins(After(EMPTY, actions)) <==> !StoresSomeTwin(actions)
  {
    if actions != [] {
      var n := |actions| - 1;
      var s := After(EMPTY, actions[..n]);
      RunKeepsNoTwinsExactly(actions[..n]);
      StoresSomeTwinSplits(actions, n);
      if NoTwins(s) {
        StepKeepsNoTwinsExactly(s, actions[n]);
      } else {
        ActGrows(s, actions[n]);
        GrowingKeepsTwins(s, Act(s, actions[n]));
      }
    }
  }

  /** Every handler works on an input that was delivered to it. */
  lemma {:induction false} InputsAreDelivered(actions: seq<Action>, h: nat)
    requires h in After(EMPTY, actions).handlers
    ensures Deliver(h, After(EMPTY, actions).handlers[h].input) in actions
  {
    if actions != [] {
      var n := |actions| - 1;
      var s := After(EMPTY, actions[..n]);
      ActKeepsInputs(s, actions[n]);
      if h in s.handlers {
        InputsAreDelivered(actions[..n], h);
        assert actions[..n] <= actions;
      }
    }
  }

  /** A caller-side guard: when every delivered success names a trimmed batch id, the batches of a
      source are pairwise different after trimming, in every interleaving. */
  lemma TrimmedDeliveriesHaveNoTwins(actions: seq<Action>)
    requires forall h, input :: Deliver(h, input) in actions && input.kind.Success? ==> TrimSpace(input.batchId) == input.batchId
    ensures NoTwins(After(EMPTY, actions))
  {
    var s := After(EMPTY, actions);
    RunKeepsSourced(actions);
    AtMostOnce(actions);
    forall i | 0 <= i < |s.batches| ensures TrimSpace(s.batches[i].batchId) == s.batches[i].batchId {
      assert Named(s, s.batches[i]);
      var h :| h in s.handlers && Names(s, h, s.batches[i]);
      InputsAreDelivered(actions, h);
    }
  }
}
