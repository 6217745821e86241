/**
 * The front end's entity types (`Candidate`, `JobOffer`, `Application`,
 * `SearchFilters`) and the partial objects the server returns from an update.
 * Dates stay the ISO strings the server sends; status codes stay the strings
 * they are at run time.
 */
module Entities {
  import opened Wrappers

  /** The application status codes. */
  const Pending: string := "pending"
  const InProgress: string := "in_progress"
  const Accepted: string := "accepted"
  const Rejected: string := "rejected"

  /** The job-offer status codes. */
  const Open: string := "open"
  const Closed: string := "closed"
  const Draft: string := "draft"

  datatype Candidate = Candidate(
    id: string,
    firstName: string,
    lastName: string,
    email: string,
    phone: string,
    skills: seq<string>,
    experience: string,
    education: string,
    cvPath: Option<string>,
    createdAt: string,
    updatedAt: string)

  datatype JobOffer = JobOffer(
    id: string,
    title: string,
    company: string,
    location: string,
    department: string,
    contract: string,
    description: string,
    requirements: seq<string>,
    salary: Option<string>,
    experienceRequired: string,
    status: string,
    createdAt: string,
    updatedAt: string)

  /** An application; `candidate` and `offer` are the copies the server may attach. */
  datatype Application = Application(
    id: string,
    candidateId: string,
    offerId: string,
    status: string,
    candidate: Option<Candidate>,
    offer: Option<JobOffer>,
    notes: Option<string>,
    recruiterNotes: Option<string>,
    createdAt: string,
    updatedAt: string)

  /** The date bounds of a filter; each bound is optional. */
  datatype DateRange = DateRange(from: Option<string>, to: Option<string>)

  /** `SearchFilters`: every field optional; absence means "no constraint". */
  datatype SearchFilters = SearchFilters(
    query: Option<string>,
    status: Option<seq<string>>,
    location: Option<string>,
    skills: Option<seq<string>>,
    experience: Option<string>,
    date: Option<DateRange>)

  /** The empty filter object `{}`. */
  const NoFilters: SearchFilters := SearchFilters(None, None, None, None, None, None)

  /** JavaScript truthiness of an optional string: present and not empty. */
  predicate Truthy(s: Option<string>)
  {
    s.Some? && s.value != ""
  }

  /** Truthiness of an optional list followed by `length > 0`. */
  predicate NonEmptyList<T>(s: Option<seq<T>>)
  {
    s.Some? && |s.value| > 0
  }

  /** The identifier of each entity, the key the stores match on. */
  function CandidateId(c: Candidate): string { c.id }
  function JobOfferId(o: JobOffer): string { o.id }
  function ApplicationId(a: Application): string { a.id }

  // ---------------------------------------------------------------------
  // Partial objects returned by the server on update. A field that is
  // `None` was absent from the response and does not override.
  // ---------------------------------------------------------------------

  datatype CandidatePatch = CandidatePatch(
    id: Option<string>,
    firstName: Option<string>,
    lastName: Option<string>,
    email: Option<string>,
    phone: Option<string>,
    skills: Option<seq<string>>,
    experience: Option<string>,
    education: Option<string>,
    cvPath: Option<string>,
    createdAt: Option<string>,
    updatedAt: Option<string>)

  datatype JobOfferPatch = JobOfferPatch(
    id: Option<string>,
    title: Option<string>,
    company: Option<string>,
    location: Option<string>,
    department: Option<string>,
    contract: Option<string>,
    description: Option<string>,
    requirements: Option<seq<string>>,
    salary: Option<string>,
    experienceRequired: Option<string>,
    status: Option<string>,
    createdAt: Option<string>,
    updatedAt: Option<string>)

  datatype ApplicationPatch = ApplicationPatch(
    id: Option<string>,
    candidateId: Option<string>,
    offerId: Option<string>,
    status: Option<string>,
    candidate: Option<Candidate>,
    offer: Option<JobOffer>,
    notes: Option<string>,
    recruiterNotes: Option<string>,
    createdAt: Option<string>,
    updatedAt: Option<string>)

  /** The value a spread takes: the patch's field when present, else the old one. */
  function Over<T>(patch: Option<T>, old_: T): T
  {
    if patch.Some? then patch.value else old_
  }

  /** An optional field: present in the patch overrides, absent keeps. */
  function OverOpt<T>(patch: Option<T>, old_: Option<T>): Option<T>
  {
    if patch.Some? then patch else old_
  }

  /** `{ ...candidate, ...patch }`. */
  function MergeCandidate(c: Candidate, p: CandidatePatch): Candidate
  {
    Candidate(
      Over(p.id, c.id), Over(p.firstName, c.firstName), Over(p.lastName, c.lastName),
      Over(p.email, c.email), Over(p.phone, c.phone), Over(p.skills, c.skills),
      Over(p.experience, c.experience), Over(p.education, c.education),
      OverOpt(p.cvPath, c.cvPath), Over(p.createdAt, c.createdAt), Over(p.updatedAt, c.updatedAt))
  }

  /** `{ ...jobOffer, ...patch }`. */
  function MergeJobOffer(o: JobOffer, p: JobOfferPatch): JobOffer
  {
    JobOffer(
      Over(p.id, o.id), Over(p.title, o.title), Over(p.company, o.company),
      Over(p.location, o.location), Over(p.department, o.department),
      Over(p.contract, o.contract), Over(p.description, o.description),
      Over(p.requirements, o.requirements), OverOpt(p.salary, o.salary),
      Over(p.experienceRequired, o.experienceRequired), Over(p.status, o.status),
      Over(p.createdAt, o.createdAt), Over(p.updatedAt, o.updatedAt))
  }

  /** `{ ...application, ...patch }`. */
  function MergeApplication(a: Application, p: ApplicationPatch): Application
  {
    Application(
      Over(p.id, a.id), Over(p.candidateId, a.candidateId), Over(p.offerId, a.offerId),
      Over(p.status, a.status), OverOpt(p.candidate, a.candidate), OverOpt(p.offer, a.offer),
      OverOpt(p.notes, a.notes), OverOpt(p.recruiterNotes, a.recruiterNotes),
      Over(p.createdAt, a.createdAt), Over(p.updatedAt, a.updatedAt))
  }

  /** The patches with no field, which the spread leaves without effect. */
  const EmptyCandidatePatch: CandidatePatch :=
    CandidatePatch(None, None, None, None, None, None, None, None, None, None, None)
  const EmptyJobOfferPatch: JobOfferPatch :=
    JobOfferPatch(None, None, None, None, None, None, None, None, None, None, None, None, None)
  const EmptyApplicationPatch: ApplicationPatch :=
    ApplicationPatch(None, None, None, None, None, None, None, None, None, None)

  /** A whole application sent back as a patch: every field present. */
  function FullApplicationPatch(a: Application): ApplicationPatch
  {
    ApplicationPatch(
      Some(a.id), Some(a.candidateId), Some(a.offerId), Some(a.status),
      a.candidate, a.offer, a.notes, a.recruiterNotes, Some(a.createdAt), Some(a.updatedAt))
  }

  /**
   * The spread overlays: an empty patch changes nothing, a field the patch
   * carries wins, a field it lacks is kept, and overlaying twice is overlaying once.
   */
  lemma MergeApplicationOverlay(a: Application, p: ApplicationPatch)
    ensures MergeApplication(a, EmptyApplicationPatch) == a
    ensures p.status.Some? ==> MergeApplication(a, p).status == p.status.value
    ensures p.status.None? ==> MergeApplication(a, p).status == a.status
    ensures p.id.None? ==> MergeApplication(a, p).id == a.id
    ensures MergeApplication(MergeApplication(a, p), p) == MergeApplication(a, p)
  {
  }

  /**
   * A full object sent back overrides everything except the attached copies
   * (`candidate`, `offer`, `notes`, `recruiterNotes`) it does not carry.
   */
  lemma MergeFullApplication(a: Application, b: Application)
    requires b.candidate.Some? && b.offer.Some? && b.notes.Some? && b.recruiterNotes.Some?
    ensures MergeApplication(a, FullApplicationPatch(b)) == b
  {
  }

  lemma MergeCandidateOverlay(c: Candidate, p: CandidatePatch)
    ensures MergeCandidate(c, EmptyCandidatePatch) == c
    ensures p.id.None? ==> MergeCandidate(c, p).id == c.id
    ensures MergeCandidate(MergeCandidate(c, p), p) == MergeCandidate(c, p)
  {
  }

  lemma MergeJobOfferOverlay(o: JobOffer, p: JobOfferPatch)
    ensures MergeJobOffer(o, EmptyJobOfferPatch) == o
    ensures p.id.None? ==> MergeJobOffer(o, p).id == o.id
    ensures MergeJobOffer(MergeJobOffer(o, p), p) == MergeJobOffer(o, p)
  {
  }
}
