/**
 * The job offers store: the list of job offers with its loading flag and last
 * error, operated on like the applications store. Each operation takes the
 * outcome of the service call it makes in place of performing the request.
 */
module JobOffersStore {
  import opened Wrappers
  import opened Seqs
  import opened Entities
  import opened StoreSpec

  /** `jobOffer => ({ ...jobOffer, ...updatedJobOffer })`. */
  function MergeWith(p: JobOfferPatch): JobOffer -> JobOffer
  {
    (jobOffer: JobOffer) => MergeJobOffer(jobOffer, p)
  }

  class Store {
    var jobOffers: seq<JobOffer>
    var isLoading: bool
    var error: Option<string>

    /** The initial state: no job offers, not loading, no error. */
    constructor ()
      ensures jobOffers == [] && !isLoading && error == None
    {
      jobOffers := [];
      isLoading := false;
      error := None;
    }

    /** `set({ isLoading: true, error: null })`, the first write of every operation. */
    method BeginRequest()
      modifies this
      ensures isLoading && error == None
      ensures jobOffers == old(jobOffers)
    {
      isLoading := true;
      error := None;
    }

    /** The failure path shared by every operation: record the message, stop loading. */
    method Fail(message: Option<string>)
      modifies this
      ensures !isLoading && error == Some(ErrorText(message))
      ensures jobOffers == old(jobOffers)
    {
      error := Some(ErrorText(message));
      isLoading := false;
    }

    /** `getAllJobOffers`: replace the list wholesale with the server's. */
    method GetAllJobOffers(response: Outcome<seq<JobOffer>>)
      modifies this
      ensures !isLoading
      ensures response.Success? ==> jobOffers == response.value && error == None
      ensures response.Failure? ==>
        jobOffers == old(jobOffers) && error == Some(ErrorText(response.message))
    {
      BeginRequest();
      match response
      case Success(fetched) =>
        jobOffers := fetched;
        isLoading := false;
      case Failure(message) =>
        Fail(message);
    }

    /** `addJobOffer`: append the job offer the server created. */
    method AddJobOffer(response: Outcome<JobOffer>)
      modifies this
      ensures !isLoading
      ensures response.Success? ==>
        jobOffers == old(jobOffers) + [response.value] && error == None
      ensures response.Failure? ==>
        jobOffers == old(jobOffers) && error == Some(ErrorText(response.message))
    {
      BeginRequest();
      match response
      case Success(created) =>
        jobOffers := jobOffers + [created];
        isLoading := false;
      case Failure(message) =>
        Fail(message);
    }

    /** `updateJobOfferData`: overlay the server's reply onto the matching job offers. */
    method UpdateJobOfferData(id: string, response: Outcome<JobOfferPatch>)
      modifies this
      ensures !isLoading
      ensures response.Success? ==>
        jobOffers == UpdateWhere(old(jobOffers), JobOfferId, id, MergeWith(response.value)) &&
        error == None
      ensures response.Failure? ==>
        jobOffers == old(jobOffers) && error == Some(ErrorText(response.message))
    {
      BeginRequest();
      match response
      case Success(updated) =>
        jobOffers := UpdateWhere(jobOffers, JobOfferId, id, MergeWith(updated));
        isLoading := false;
      case Failure(message) =>
        Fail(message);
    }

    /** `removeJobOffer`: drop every job offer with the id. */
    method RemoveJobOffer(id: string, response: Outcome<()>)
      modifies this
      ensures !isLoading
      ensures response.Success? ==>
        jobOffers == Removed(old(jobOffers), JobOfferId, id) && error == None
      ensures response.Failure? ==>
        jobOffers == old(jobOffers) && error == Some(ErrorText(response.message))
    {
      BeginRequest();
      match response
      case Success(_) =>
        jobOffers := Removed(jobOffers, JobOfferId, id);
        isLoading := false;
      case Failure(message) =>
        Fail(message);
    }
  }
}
