/**
 * The applications store: the list of applications with its loading flag and
 * last error. Each operation takes the outcome of the service call it makes
 * (`Success` with the server's reply, or `Failure` with the thrown error's
 * message) in place of performing the request.
 */
module ApplicationsStore {
  import opened Wrappers
  import opened Seqs
  import opened Entities
  import opened StoreSpec

  /** `application => ({ ...application, status })`. */
  function WithStatus(status: string): Application -> Application
  {
    (a: Application) => a.(status := status)
  }

  /** `application => ({ ...application, ...updatedApplication })`. */
  function MergeWith(p: ApplicationPatch): Application -> Application
  {
    (a: Application) => MergeApplication(a, p)
  }

  /**
   * A status update sets the status of the matching applications to the
   * requested value and changes nothing else: no other field, no other
   * application, not the length.
   */
  lemma StatusUpdateSpec(items: seq<Application>, id: string, status: string)
    ensures var r := UpdateWhere(items, ApplicationId, id, WithStatus(status));
      && |r| == |items|
      && (forall i :: 0 <= i < |items| && items[i].id == id ==>
            r[i].status == status && r[i] == items[i].(status := status))
      && (forall i :: 0 <= i < |items| && items[i].id != id ==> r[i] == items[i])
  {
    UpdatedSpec(items, ApplicationId, id, WithStatus(status));
  }

  /** The worked example: `updateStatus("1", "accepted")` on one pending application. */
  lemma StatusUpdateExample(a: Application)
    requires a.id == "1" && a.status == Pending
    ensures UpdateWhere([a], ApplicationId, "1", WithStatus(Accepted)) == [a.(status := Accepted)]
  {
    StatusUpdateSpec([a], "1", Accepted);
  }

  /** The worked example: removing `"2"` from `["1", "2", "3"]` leaves `["1", "3"]`. */
  lemma RemoveExample(a1: Application, a2: Application, a3: Application)
    requires a1.id == "1" && a2.id == "2" && a3.id == "3"
    ensures Removed([a1, a2, a3], ApplicationId, "2") == [a1, a3]
  {
    var p := KeyIsNot(ApplicationId, "2");
    assert [a1, a2, a3][1..] == [a2, a3] && [a2, a3][1..] == [a3];
    assert Filter([a3], p) == [a3];
    assert Filter([a2, a3], p) == [a3];
  }

  class Store {
    var applications: seq<Application>
    var isLoading: bool
    var error: Option<string>

    /** The initial state: no applications, not loading, no error. */
    constructor ()
      ensures applications == [] && !isLoading && error == None
    {
      applications := [];
      isLoading := false;
      error := None;
    }

    /** `set({ isLoading: true, error: null })`, the first write of every operation. */
    method BeginRequest()
      modifies this
      ensures isLoading && error == None
      ensures applications == old(applications)
    {
      isLoading := true;
      error := None;
    }

    /** The failure path shared by every operation: record the message, stop loading. */
    method Fail(message: Option<string>)
      modifies this
      ensures !isLoading && error == Some(ErrorText(message))
      ensures applications == old(applications)
    {
      error := Some(ErrorText(message));
      isLoading := false;
    }

    /** `getAllApplications`: replace the list wholesale with the server's. */
    method GetAllApplications(response: Outcome<seq<Application>>)
      modifies this
      ensures !isLoading
      ensures response.Success? ==> applications == response.value && error == None
      ensures response.Failure? ==>
        applications == old(applications) && error == Some(ErrorText(response.message))
    {
      BeginRequest();
      match response
      case Success(fetched) =>
        applications := fetched;
        isLoading := false;
      case Failure(message) =>
        Fail(message);
    }

    /** `addApplication`: append the application the server created. */
    method AddApplication(response: Outcome<Application>)
      modifies this
      ensures !isLoading
      ensures response.Success? ==>
        applications == old(applications) + [response.value] && error == None
      ensures response.Failure? ==>
        applications == old(applications) && error == Some(ErrorText(response.message))
    {
      BeginRequest();
      match response
      case Success(created) =>
        applications := applications + [created];
        isLoading := false;
      case Failure(message) =>
        Fail(message);
    }

    /** `updateApplicationStatus`: set the status of the matching applications. */
    method UpdateApplicationStatus(id: string, status: string, response: Outcome<()>)
      modifies this
      ensures !isLoading
      ensures response.Success? ==>
        applications == UpdateWhere(old(applications), ApplicationId, id, WithStatus(status)) &&
        error == None
      ensures response.Failure? ==>
        applications == old(applications) && error == Some(ErrorText(response.message))
    {
      BeginRequest();
      match response
      case Success(_) =>
        applications := UpdateWhere(applications, ApplicationId, id, WithStatus(status));
        isLoading := false;
      case Failure(message) =>
        Fail(message);
    }

    /** `updateApplicationData`: overlay the server's reply onto the matching applications. */
    method UpdateApplicationData(id: string, response: Outcome<ApplicationPatch>)
      modifies this
      ensures !isLoading
      ensures response.Success? ==>
        applications == UpdateWhere(old(applications), ApplicationId, id, MergeWith(response.value)) &&
        error == None
      ensures response.Failure? ==>
        applications == old(applications) && error == Some(ErrorText(response.message))
    {
      BeginRequest();
      match response
      case Success(updated) =>
        applications := UpdateWhere(applications, ApplicationId, id, MergeWith(updated));
        isLoading := false;
      case Failure(message) =>
        Fail(message);
    }

    /** `removeApplication`: drop every application with the id. */
    method RemoveApplication(id: string, response: Outcome<()>)
      modifies this
      ensures !isLoading
      ensures response.Success? ==>
        applications == Removed(old(applications), ApplicationId, id) && error == None
      ensures response.Failure? ==>
        applications == old(applications) && error == Some(ErrorText(response.message))
    {
      BeginRequest();
      match response
      case Success(_) =>
        applications := Removed(applications, ApplicationId, id);
        isLoading := false;
      case Failure(message) =>
        Fail(message);
    }
  }
}
