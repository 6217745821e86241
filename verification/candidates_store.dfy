/**
 * The candidates store: the list of candidates with its loading flag and last
 * error, operated on like the applications store. Each operation takes the
 * outcome of the service call it makes in place of performing the request.
 */
module CandidatesStore {
  import opened Wrappers
  import opened Seqs
  import opened Entities
  import opened StoreSpec

  /** `candidate => ({ ...candidate, ...updatedCandidate })`. */
  function MergeWith(p: CandidatePatch): Candidate -> Candidate
  {
    (candidate: Candidate) => MergeCandidate(candidate, p)
  }

  class Store {
    var candidates: seq<Candidate>
    var isLoading: bool
    var error: Option<string>

    /** The initial state: no candidates, not loading, no error. */
    constructor ()
      ensures candidates == [] && !isLoading && error == None
    {
      candidates := [];
      isLoading := false;
      error := None;
    }

    /** `set({ isLoading: true, error: null })`, the first write of every operation. */
    method BeginRequest()
      modifies this
      ensures isLoading && error == None
      ensures candidates == old(candidates)
    {
      isLoading := true;
      error := None;
    }

    /** The failure path shared by every operation: record the message, stop loading. */
    method Fail(message: Option<string>)
      modifies this
      ensures !isLoading && error == Some(ErrorText(message))
      ensures candidates == old(candidates)
    {
      error := Some(ErrorText(message));
      isLoading := false;
    }

    /** `getAllCandidates`: replace the list wholesale with the server's. */
    method GetAllCandidates(response: Outcome<seq<Candidate>>)
      modifies this
      ensures !isLoading
      ensures response.Success? ==> candidates == response.value && error == None
      ensures response.Failure? ==>
        candidates == old(candidates) && error == Some(ErrorText(response.message))
    {
      BeginRequest();
      match response
      case Success(fetched) =>
        candidates := fetched;
        isLoading := false;
      case Failure(message) =>
        Fail(message);
    }

    /** `addCandidate`: append the candidate the server created. */
    method AddCandidate(response: Outcome<Candidate>)
      modifies this
      ensures !isLoading
      ensures response.Success? ==>
        candidates == old(candidates) + [response.value] && error == None
      ensures response.Failure? ==>
        candidates == old(candidates) && error == Some(ErrorText(response.message))
    {
      BeginRequest();
      match response
      case Success(created) =>
        candidates := candidates + [created];
        isLoading := false;
      case Failure(message) =>
        Fail(message);
    }

    /** `updateCandidateData`: overlay the server's reply onto the matching candidates. */
    method UpdateCandidateData(id: string, response: Outcome<CandidatePatch>)
      modifies this
      ensures !isLoading
      ensures response.Success? ==>
        candidates == UpdateWhere(old(candidates), CandidateId, id, MergeWith(response.value)) &&
        error == None
      ensures response.Failure? ==>
        candidates == old(candidates) && error == Some(ErrorText(response.message))
    {
      BeginRequest();
      match response
      case Success(updated) =>
        candidates := UpdateWhere(candidates, CandidateId, id, MergeWith(updated));
        isLoading := false;
      case Failure(message) =>
        Fail(message);
    }

    /** `removeCandidate`: drop every candidate with the id. */
    method RemoveCandidate(id: string, response: Outcome<()>)
      modifies this
      ensures !isLoading
      ensures response.Success? ==>
        candidates == Removed(old(candidates), CandidateId, id) && error == None
      ensures response.Failure? ==>
        candidates == old(candidates) && error == Some(ErrorText(response.message))
    {
      BeginRequest();
      match response
      case Success(_) =>
        candidates := Removed(candidates, CandidateId, id);
        isLoading := false;
      case Failure(message) =>
        Fail(message);
    }
  }
}
