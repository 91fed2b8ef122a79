/** The outcome records of attribute updates in the entity service, shared by
    the attribute update engine and the event publisher.  Their Kotlin
    declarations (the entity-service model package) are not part of this
    model; they are modelled as the update engine and the publisher use
    them. */
module UpdateResults {
  import opened Wrappers

  datatype UpdateOperationResult = APPENDED | REPLACED | UPDATED | IGNORED | FAILED

  /** `isSuccessfullyUpdated`, taken to hold for the three outcomes that change
      the attribute. */
  predicate IsSuccessful(r: UpdateOperationResult) {
    r == APPENDED || r == REPLACED || r == UPDATED
  }

  /** `UpdateAttributeResult`: the outcome of one attribute instance. */
  datatype UpdateAttributeResult = UpdateAttributeResult(
    attributeName: string,
    datasetId: Option<string>,
    updateOperationResult: UpdateOperationResult,
    errorMessage: Option<string>)

  /** `UpdatedDetails`: an instance that was changed. */
  datatype UpdatedDetails = UpdatedDetails(attributeName: string, datasetId: Option<string>, updateOperationResult: UpdateOperationResult)

  /** `NotUpdatedDetails`: an instance that was left alone, with the reason. */
  datatype NotUpdatedDetails = NotUpdatedDetails(attributeName: string, reason: string)

  /** `UpdateResult`: the changed and the unchanged instances of an operation. */
  datatype UpdateResult = UpdateResult(updated: seq<UpdatedDetails>, notUpdated: seq<NotUpdatedDetails>)

  function DetailsOf(x: UpdateAttributeResult): UpdatedDetails {
    UpdatedDetails(x.attributeName, x.datasetId, x.updateOperationResult)
  }

  function ReasonOf(x: UpdateAttributeResult): NotUpdatedDetails {
    NotUpdatedDetails(x.attributeName, x.errorMessage.GetOr(""))
  }

  /** `updateResultFromDetailedResult`: the successful outcomes become the
      updated details and every other outcome a not-updated reason, each list
      keeping the order of the outcomes. */
  function FromDetailedResult(results: seq<UpdateAttributeResult>): (r: UpdateResult)
    ensures |r.updated| + |r.notUpdated| == |results|
  {
    if results == [] then UpdateResult([], [])
    else
      var rest := FromDetailedResult(results[1..]);
      var x := results[0];
      if IsSuccessful(x.updateOperationResult) then UpdateResult([DetailsOf(x)] + rest.updated, rest.notUpdated)
      else UpdateResult(rest.updated, [ReasonOf(x)] + rest.notUpdated)
  }

  /** Every successful outcome is reported as updated and every other one as
      not updated, and nothing else appears in either list. */
  lemma {:induction false} FromDetailedResultMembers(results: seq<UpdateAttributeResult>)
    ensures var r := FromDetailedResult(results);
      (forall x :: x in results && IsSuccessful(x.updateOperationResult) ==> DetailsOf(x) in r.updated) &&
      (forall x :: x in results && !IsSuccessful(x.updateOperationResult) ==> ReasonOf(x) in r.notUpdated) &&
      (forall d :: d in r.updated ==> exists x :: x in results && IsSuccessful(x.updateOperationResult) && d == DetailsOf(x)) &&
      (forall d :: d in r.notUpdated ==> exists x :: x in results && !IsSuccessful(x.updateOperationResult) && d == ReasonOf(x)) &&
      ((forall x :: x in results ==> !IsSuccessful(x.updateOperationResult)) <==> r.updated == [])
    decreases |results|
  {
    if results != [] {
      FromDetailedResultMembers(results[1..]);
      var x := results[0];
      assert forall y :: y in results <==> y == x || y in results[1..];
    }
  }

  /** The two lists keep the order of the outcomes: the result of a
      concatenation is the concatenation of the results. */
  lemma {:induction false} FromDetailedResultAppend(a: seq<UpdateAttributeResult>, b: seq<UpdateAttributeResult>)
    ensures FromDetailedResult(a + b) == UpdateResult(
      FromDetailedResult(a).updated + FromDetailedResult(b).updated,
      FromDetailedResult(a).notUpdated + FromDetailedResult(b).notUpdated)
    decreases |a|
  {
    if a != [] {
      var x := a[0];
      assert (a + b)[0] == x && (a + b)[1..] == a[1..] + b;
      FromDetailedResultAppend(a[1..], b);
      var ra, rb := FromDetailedResult(a[1..]), FromDetailedResult(b);
      if IsSuccessful(x.updateOperationResult) {
        assert [DetailsOf(x)] + (ra.updated + rb.updated) == ([DetailsOf(x)] + ra.updated) + rb.updated;
      } else {
        assert [ReasonOf(x)] + (ra.notUpdated + rb.notUpdated) == ([ReasonOf(x)] + ra.notUpdated) + rb.notUpdated;
      }
    } else {
      assert a + b == b;
    }
  }

  /** One outcome lands in the list its result selects. */
  lemma FromDetailedResultOne(x: UpdateAttributeResult)
    ensures IsSuccessful(x.updateOperationResult) ==> FromDetailedResult([x]) == UpdateResult([DetailsOf(x)], [])
    ensures !IsSuccessful(x.updateOperationResult) ==> FromDetailedResult([x]) == UpdateResult([], [ReasonOf(x)])
  {
    assert [x][1..] == [];
  }
}
