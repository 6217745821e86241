/**
 * The four permission classes. A request is reduced to its method and
 * user; an object to the row it is about, tagged with its table, since the
 * checks probe attributes that only some tables have.
 */
module Permissions {
  import opened Wrappers
  import opened Models

  /** `permissions.SAFE_METHODS`. */
  const SafeMethods: set<string> := {"GET", "HEAD", "OPTIONS"}

  /**
   * `IsAdminOrReadOnly.has_permission`: reading is open to everyone;
   * anything else needs a user whose role is admin.
   */
  function IsAdminOrReadOnly(verb: string, user: Option<User>): (granted: bool)
    ensures verb in SafeMethods ==> granted
    ensures verb !in SafeMethods ==> (granted <==> user.Some? && IsAdmin(user.value))
  {
    if verb in SafeMethods then true
    else user.Some? && user.value.role == AdminRole
  }

  /** An object a permission check is asked about. */
  datatype Resource =
    | CandidateObj(candidate: CandidateRow)
    | ExperienceObj(experience: ExperienceRow)
    | EducationObj(education: EducationRow)
    | OfferObj(offer: OfferRow)
    | ApplicationObj(application: ApplicationRow)

  /** `obj.created_by` where the object has that attribute (only offers do). */
  function CreatedBy(obj: Resource): (r: Option<int>)
    ensures r.Some? <==> obj.OfferObj?
  {
    if obj.OfferObj? then Some(obj.offer.createdBy) else None
  }

  /** `obj.user` where the object has that attribute (only candidates do). */
  function UserAttribute(obj: Resource): (r: Option<int>)
    ensures r.Some? <==> obj.CandidateObj?
  {
    if obj.CandidateObj? then Some(obj.candidate.user) else None
  }

  /**
   * `IsRecruiterOrAdmin.has_object_permission`: an admin always; anyone
   * else only for an object with a creator, who must be them.
   */
  function IsRecruiterOrAdmin(user: User, obj: Resource): (granted: bool)
    ensures IsAdmin(user) ==> granted
    ensures !IsAdmin(user) ==> (granted <==> obj.OfferObj? && obj.offer.createdBy == user.id)
  {
    if user.role == AdminRole then true
    else CreatedBy(obj).Some? && CreatedBy(obj).value == user.id
  }

  /**
   * `IsOwnerOrAdmin.has_object_permission` as written: an admin always;
   * anyone else by comparing `obj.user`, which raises `AttributeError` on
   * an object without that attribute.
   */
  function IsOwnerOrAdminAsWritten(user: User, obj: Resource): (r: Result<bool, string>)
    ensures IsAdmin(user) ==> r == Ok(true)
    ensures !IsAdmin(user) && obj.CandidateObj? ==> r == Ok(obj.candidate.user == user.id)
    ensures !IsAdmin(user) && !obj.CandidateObj? ==> r == Err("AttributeError")
  {
    if user.role == AdminRole then Ok(true)
    else if UserAttribute(obj).Some? then Ok(UserAttribute(obj).value == user.id)
    else Err("AttributeError")
  }

  /** The user an object belongs to: a candidate's own, or its candidate's for an entry. */
  predicate OwnedBy(db: Db, obj: Resource, user: int)
  {
    match obj
    case CandidateObj(c) => c.user == user
    case ExperienceObj(e) => CandidateOwnedBy(db, e.candidate, user)
    case EducationObj(e) => CandidateOwnedBy(db, e.candidate, user)
    case OfferObj(_) => false
    case ApplicationObj(_) => false
  }

  /**
   * `IsOwnerOrAdmin` as evidently intended: an experience or education
   * entry is owned through its candidate (`obj.candidate.user`), as the
   * entry querysets filter.
   */
  function IsOwnerOrAdmin(db: Db, user: User, obj: Resource): (granted: bool)
    ensures IsAdmin(user) ==> granted
    ensures !IsAdmin(user) ==> (granted <==> OwnedBy(db, obj, user.id))
  {
    user.role == AdminRole || OwnedBy(db, obj, user.id)
  }

  /** On candidates, where `obj.user` exists, the intended check is the written one. */
  lemma OwnerCheckAgreesOnCandidates(db: Db, user: User, c: CandidateRow)
    ensures IsOwnerOrAdminAsWritten(user, CandidateObj(c)) == Ok(IsOwnerOrAdmin(db, user, CandidateObj(c)))
  {
  }

  /**
   * `IsApplicationOwnerOrAdmin.has_object_permission`: an admin always;
   * anyone else when they created the application's offer.
   */
  function IsApplicationOwnerOrAdmin(db: Db, user: User, a: ApplicationRow): (granted: bool)
    ensures IsAdmin(user) ==> granted
    ensures !IsAdmin(user) ==> (granted <==> OfferCreatedBy(db, a.jobOffer, user.id))
  {
    user.role == AdminRole || OfferCreatedBy(db, a.jobOffer, user.id)
  }

  /** An admin passes every object-level check, whatever the object. */
  lemma AdminPassesEverything(db: Db, admin: User, obj: Resource, a: ApplicationRow)
    requires IsAdmin(admin)
    ensures IsRecruiterOrAdmin(admin, obj)
    ensures IsOwnerOrAdminAsWritten(admin, obj) == Ok(true)
    ensures IsOwnerOrAdmin(db, admin, obj)
    ensures IsApplicationOwnerOrAdmin(db, admin, a)
  {
  }
}
