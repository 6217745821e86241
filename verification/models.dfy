/**
 * The backend's tables, reduced to the columns the permission checks,
 * querysets and serializers read. Every foreign key is the referenced
 * row's id.
 */
module Models {
  import opened Wrappers

  /** The user roles. */
  const AdminRole: string := "admin"
  const RecruiterRole: string := "recruteur"

  /** The application statuses (`Application.Status`). */
  const PendingStatus: string := "pending"

  datatype User = User(id: int, role: string)

  predicate IsAdmin(u: User)
  {
    u.role == AdminRole
  }

  /** A candidate profile, owned by one user account. */
  datatype CandidateRow = CandidateRow(id: int, user: int, email: string)

  /** An experience or education entry: it belongs to a candidate, not to a user. */
  datatype ExperienceRow = ExperienceRow(id: int, candidate: int, jobTitle: string, company: string)
  datatype EducationRow = EducationRow(id: int, candidate: int, degree: string, institution: string)

  datatype OfferRow = OfferRow(
    id: int,
    title: string,
    createdBy: int,
    createdAt: string,
    updatedAt: string,
    isActive: bool)

  datatype ApplicationRow = ApplicationRow(
    id: int,
    candidate: int,
    jobOffer: int,
    status: string,
    dateApplied: string,
    matchScore: Option<int>,
    notes: string)

  /** The database: one sequence of rows per table. */
  datatype Db = Db(
    candidates: seq<CandidateRow>,
    experiences: seq<ExperienceRow>,
    educations: seq<EducationRow>,
    offers: seq<OfferRow>,
    applications: seq<ApplicationRow>)

  /** Candidate `candidate` belongs to user `user` (`candidate__user=user`). */
  predicate CandidateOwnedBy(db: Db, candidate: int, user: int)
  {
    exists c :: c in db.candidates && c.id == candidate && c.user == user
  }

  /** Offer `offer` was created by user `user` (`job_offer__created_by=user`). */
  predicate OfferCreatedBy(db: Db, offer: int, user: int)
  {
    exists o :: o in db.offers && o.id == offer && o.createdBy == user
  }

  /** `unique_together = ['candidate', 'job_offer']`. */
  predicate UniquePairs(apps: seq<ApplicationRow>)
  {
    forall i, j :: 0 <= i < j < |apps| ==>
      apps[i].candidate != apps[j].candidate || apps[i].jobOffer != apps[j].jobOffer
  }

  /** `Candidate.user` is a one-to-one field: no two candidate rows share a user. */
  predicate OneCandidatePerUser(db: Db)
  {
    forall i, j :: 0 <= i < j < |db.candidates| ==> db.candidates[i].user != db.candidates[j].user
  }
}
