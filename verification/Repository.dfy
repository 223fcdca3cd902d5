/** The stored rows as the use cases reach them: reads answer from the current rows, and of the writes
    an operation issues only the first `budget` reach the database. */
module Repository {
  import opened Model
  import opened ControlPlane
  import opened Values

  method Enumerate(items: set<Id>) returns (ids: seq<Id>)
    ensures Distinct(ids)
    ensures forall x :: x in ids <==> x in items
  {
    ids := [];
    var rest := items;
    while rest != {}
      invariant Distinct(ids)
      invariant rest <= items && forall x :: x in ids <==> x in items && x !in rest
    {
      var x :| x in rest;
      ids, rest := ids + [x], rest - {x};
    }
  }

  // ---------------------------------------------------------------- outcomes

  datatype Error =
    | NotFound | UpdateNotAllowed | DeleteRequiresArchived | SourceDryrunRunning | InvalidInput
    | ActivateNotAllowed | PauseNotAllowed | ResumeNotAllowed | CrawlModeNotAllowed | ReadinessFailed
    | ProjectUnavailable | CreateFailed | SourceArchived | SourceNotCrawl | TargetNotFound | TargetDryrunRunning
    | TargetValuesInvalid | TargetValuesImmutable | TargetActivateNotAllowed | TargetDeactivateNotAllowed
    | TargetDeleteFailed | DryrunNotAllowed | DryrunTargetInvalid | DryrunAlreadyRunning | UnsupportedMapping
    | CompletionTaskNotFound | DispatchFailed | StoreFailed

  /** All writes reach the database and are accepted by it. */
  predicate AllAccepted(w: World, writes: seq<Write>, budget: nat)
    decreases |writes|
  {
    || writes == []
    || (budget > 0 && Apply(w, writes[0]).Some? && AllAccepted(Apply(w, writes[0]).value, writes[1..], budget - 1))
  }

  /** An operation that decided on `plan` has issued its writes in order up to the first that failed. */
  predicate Performs(w: World, budget: nat, plan: Plan, w': World) {
    w' == ApplyAll(w, Issued(plan, budget))
  }

  /** It also reports a refusal exactly when there is no plan, and success exactly when no write failed. */
  predicate Answers(w: World, budget: nat, plan: Plan, w': World, error: Option<Error>) {
    && Performs(w, budget, plan, w')
    && (plan.None? <==> error.Some? && !error.value.StoreFailed?)
    && (error.None? <==> plan.Some? && AllAccepted(w, plan.value, budget))
  }

  lemma AnswersNothing(w: World, budget: nat, plan: Plan, error: Option<Error>)
    requires plan.None? <==> error.Some?
    requires plan.Some? ==> plan.value == []
    requires error.Some? ==> !error.value.StoreFailed?
    ensures Answers(w, budget, plan, w, error)
  {
  }

  lemma AnswersOne(w: World, budget: nat, a: Write, ok: bool, w': World)
    requires ok <==> budget > 0 && Apply(w, a).Some?
    requires w' == if ok then Apply(w, a).value else w
    ensures Answers(w, budget, Some([a]), w', if ok then None else Some(StoreFailed))
  {
    ApplyOne(w, a);
    if budget > 0 {
      assert Issued(Some([a]), budget) == [a];
    }
    assert [a][1..] == [];
  }

  /** Issuing the first write and, if it was accepted, the rest. */
  lemma AnswersFirst(w: World, budget: nat, a: Write, rest: seq<Write>, w1: World, w': World, error: Option<Error>)
    requires budget > 0 && Apply(w, a) == Some(w1)
    requires Answers(w1, budget - 1, Some(rest), w', error)
    ensures Answers(w, budget, Some([a] + rest), w', error)
  {
    var plan: Plan := Some([a] + rest);
    assert ([a] + rest)[1..] == rest;
    assert Issued(plan, budget) == [a] + Issued(Some(rest), budget - 1);
    assert ([a] + Issued(Some(rest), budget - 1))[1..] == Issued(Some(rest), budget - 1);
  }

  lemma AnswersLost(w: World, budget: nat, a: Write, rest: seq<Write>)
    requires budget == 0 || Apply(w, a).None?
    ensures Answers(w, budget, Some([a] + rest), w, Some(StoreFailed))
  {
    if budget > 0 {
      assert Issued(Some([a] + rest), budget)[0] == a;
    }
  }

  // ---------------------------------------------------------------- the store

  class Store {
    var rows: World
    var budget: nat

    constructor (rows: World, budget: nat)
      ensures this.rows == rows && this.budget == budget
    {
      this.rows, this.budget := rows, budget;
    }

    /** One statement or transaction of the repository. */
    method Submit(write: Write) returns (ok: bool)
      modifies this
      ensures ok <==> old(budget) > 0 && Apply(old(rows), write).Some?
      ensures rows == if ok then Apply(old(rows), write).value else old(rows)
      ensures budget == if old(budget) > 0 then old(budget) - 1 else 0
    {
      ok := false;
      if budget > 0 {
        budget := budget - 1;
        var after := Apply(rows, write);
        if after.Some? {
          rows, ok := after.value, true;
        }
      }
    }

    /** `ListTargets` of one source; flushed rows stay hidden. */
    method ListTargets(sid: Id) returns (ids: seq<Id>)
      ensures Distinct(ids)
      ensures forall tid :: tid in ids <==> tid in rows.targets && Listed(rows, sid, tid)
    {
      ids := Enumerate(set tid | tid in rows.targets && Listed(rows, sid, tid));
    }

    /** `ListDataSources` of one project; deleted rows stay hidden. */
    method ListDataSources(project: Id) returns (ids: seq<Id>)
      ensures Distinct(ids)
      ensures forall sid :: sid in ids <==> sid in rows.sources && InProject(rows, project, sid)
    {
      ids := Enumerate(set sid | sid in rows.sources && InProject(rows, project, sid));
    }

    // -------------------------------------------------------------- answers

    /** An answer without a write. */
    method Refuse(ghost plan: Plan, e: Error) returns (error: Option<Error>)
      requires plan.None? && !e.StoreFailed?
      ensures Answers(rows, budget, plan, rows, error) && error == Some(e)
    {
      AnswersNothing(rows, budget, plan, Some(e));
      return Some(e);
    }

    method Accept(ghost plan: Plan) returns (error: Option<Error>)
      requires plan == Some([])
      ensures Answers(rows, budget, plan, rows, error)
    {
      AnswersNothing(rows, budget, plan, None);
      return None;
    }

    /** A last write and its answer. */
    method Finish(write: Write) returns (error: Option<Error>)
      modifies this
      ensures Answers(old(rows), old(budget), Some([write]), rows, error)
      ensures error.None? ==> old(budget) > 0 && Apply(old(rows), write) == Some(rows) && budget == old(budget) - 1
      ensures error.Some? ==> old(budget) == 0 || Apply(old(rows), write).None?
    {
      var ok := Submit(write);
      AnswersOne(old(rows), old(budget), write, ok, rows);
      return if ok then None else Some(StoreFailed);
    }

    /** Two writes; the second is issued only after the first was accepted. */
    method FinishTwo(first: Write, second: Write) returns (error: Option<Error>)
      modifies this
      ensures Answers(old(rows), old(budget), Some([first, second]), rows, error)
    {
      assert [first, second] == [first] + [second];
      var ok := Submit(first);
      if !ok {
        AnswersLost(old(rows), old(budget), first, [second]);
        return Some(StoreFailed);
      }
      ghost var w1 := rows;
      error := Finish(second);
      AnswersFirst(old(rows), old(budget), first, [second], w1, rows, error);
    }
  }
}
