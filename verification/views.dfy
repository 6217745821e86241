/**
 * The viewsets: which rows each user may list, what creating a row stamps
 * on it, the `applications` action of an offer and the admin statistics.
 * The database is a value; a create returns the database after the insert.
 */
module Views {
  import opened Wrappers
  import opened Seqs
  import opened Models
  import opened Permissions
  import opened Serializers

  // ---------------------------------------------------------------------
  // Querysets
  // ---------------------------------------------------------------------

  function CandidateOf(user: User): CandidateRow -> bool
  {
    (c: CandidateRow) => c.user == user.id
  }

  /** `CandidateViewSet.get_queryset`: all for an admin, otherwise the requester's own profiles. */
  function CandidateQueryset(db: Db, user: User): (r: seq<CandidateRow>)
    ensures IsAdmin(user) ==> r == db.candidates
    ensures forall c :: c in r <==> c in db.candidates && (IsAdmin(user) || c.user == user.id)
  {
    if user.role == AdminRole then db.candidates
    else
      FilterMembers(db.candidates, CandidateOf(user));
      Filter(db.candidates, CandidateOf(user))
  }

  function ExperienceOf(db: Db, user: User): ExperienceRow -> bool
  {
    (e: ExperienceRow) => CandidateOwnedBy(db, e.candidate, user.id)
  }

  /**
   * `ExperienceViewSet.get_queryset`: the entries of the requester's own
   * candidate profile, for every role (admins included).
   */
  function ExperienceQueryset(db: Db, user: User): (r: seq<ExperienceRow>)
    ensures forall e :: e in r <==> e in db.experiences && CandidateOwnedBy(db, e.candidate, user.id)
  {
    FilterMembers(db.experiences, ExperienceOf(db, user));
    Filter(db.experiences, ExperienceOf(db, user))
  }

  function EducationOf(db: Db, user: User): EducationRow -> bool
  {
    (e: EducationRow) => CandidateOwnedBy(db, e.candidate, user.id)
  }

  /** `EducationViewSet.get_queryset`: as for experience entries. */
  function EducationQueryset(db: Db, user: User): (r: seq<EducationRow>)
    ensures forall e :: e in r <==> e in db.educations && CandidateOwnedBy(db, e.candidate, user.id)
  {
    FilterMembers(db.educations, EducationOf(db, user));
    Filter(db.educations, EducationOf(db, user))
  }

  function OfferOf(user: User): OfferRow -> bool
  {
    (o: OfferRow) => o.createdBy == user.id
  }

  /** `JobOfferViewSet.get_queryset`: all for an admin, otherwise the offers the requester created. */
  function JobOfferQueryset(db: Db, user: User): (r: seq<OfferRow>)
    ensures IsAdmin(user) ==> r == db.offers
    ensures forall o :: o in r <==> o in db.offers && (IsAdmin(user) || o.createdBy == user.id)
  {
    if user.role == AdminRole then db.offers
    else
      FilterMembers(db.offers, OfferOf(user));
      Filter(db.offers, OfferOf(user))
  }

  function ApplicationOf(db: Db, user: User): ApplicationRow -> bool
  {
    (a: ApplicationRow) => OfferCreatedBy(db, a.jobOffer, user.id)
  }

  /** `ApplicationViewSet.get_queryset`: all for an admin, otherwise those to the requester's offers. */
  function ApplicationQueryset(db: Db, user: User): (r: seq<ApplicationRow>)
    ensures IsAdmin(user) ==> r == db.applications
    ensures forall a :: a in r <==> a in db.applications && (IsAdmin(user) || OfferCreatedBy(db, a.jobOffer, user.id))
  {
    if user.role == AdminRole then db.applications
    else
      FilterMembers(db.applications, ApplicationOf(db, user));
      Filter(db.applications, ApplicationOf(db, user))
  }

  /**
   * Every row a user can list also passes the object-level check of its
   * viewset, so a detail request on a listed row is never refused.
   */
  lemma ListedRowsPassObjectChecks(db: Db, user: User)
    ensures forall c :: c in CandidateQueryset(db, user) ==> IsOwnerOrAdminAsWritten(user, CandidateObj(c)) == Ok(true)
    ensures forall o :: o in JobOfferQueryset(db, user) ==> IsRecruiterOrAdmin(user, OfferObj(o))
    ensures forall a :: a in ApplicationQueryset(db, user) ==> IsApplicationOwnerOrAdmin(db, user, a)
    ensures forall e :: e in ExperienceQueryset(db, user) ==> IsOwnerOrAdmin(db, user, ExperienceObj(e))
    ensures forall e :: e in EducationQueryset(db, user) ==> IsOwnerOrAdmin(db, user, EducationObj(e))
  {
  }

  /**
   * The experience and education viewsets use `IsOwnerOrAdmin`, whose
   * written form reads `obj.user`: a recruiter opening one of their own
   * candidate's entries gets an `AttributeError` instead of access.
   */
  lemma OwnEntryFailsAsWritten(db: Db, user: User, e: ExperienceRow)
    requires !IsAdmin(user)
    requires e in ExperienceQueryset(db, user)
    ensures IsOwnerOrAdminAsWritten(user, ExperienceObj(e)).Err?
    ensures IsOwnerOrAdmin(db, user, ExperienceObj(e))
  {
  }

  // ---------------------------------------------------------------------
  // Creation
  // ---------------------------------------------------------------------

  /**
   * `JobOfferViewSet.perform_create`: the offer is saved with the requester
   * as its creator, whatever the payload says.
   */
  function CreateOffer(db: Db, user: User, p: OfferPayload, id: int, now: string): (r: Db)
    ensures r.offers == db.offers + [SaveOffer(p, id, now, user.id)]
    ensures r.candidates == db.candidates && r.applications == db.applications
    ensures r.experiences == db.experiences && r.educations == db.educations
  {
    db.(offers := db.offers + [SaveOffer(p, id, now, user.id)])
  }

  /** The creator of a new offer sees it in their list and may act on it. */
  lemma CreatedOfferIsTheirs(db: Db, user: User, p: OfferPayload, id: int, now: string)
    ensures var o := SaveOffer(p, id, now, user.id);
      o.createdBy == user.id &&
      o in JobOfferQueryset(CreateOffer(db, user, p, id, now), user) &&
      IsRecruiterOrAdmin(user, OfferObj(o))
  {
    var o := SaveOffer(p, id, now, user.id);
    assert o in CreateOffer(db, user, p, id, now).offers;
  }

  /**
   * `Candidate.objects.get(user=request.user)`: the requester's single
   * candidate profile, `DoesNotExist` without one and
   * `MultipleObjectsReturned` with several.
   */
  function RequesterCandidate(db: Db, user: User): (r: Result<int, string>)
    ensures r.Ok? ==> CandidateOwnedBy(db, r.value, user.id)
    ensures r.Err? <==> Count(db.candidates, CandidateOf(user)) != 1
    ensures r.Err? && Count(db.candidates, CandidateOf(user)) == 0 ==> r.error == "DoesNotExist"
  {
    var mine := Filter(db.candidates, CandidateOf(user));
    FilterMembers(db.candidates, CandidateOf(user));
    if |mine| == 0 then Err("DoesNotExist")
    else if |mine| > 1 then Err("MultipleObjectsReturned")
    else
      assert mine[0] in db.candidates;
      Ok(mine[0].id)
  }

  /**
   * On a database that keeps the one-to-one constraint on `Candidate.user`,
   * the requester lookup never finds several profiles.
   */
  lemma OneToOneLookupNeverSeveral(db: Db, user: User)
    requires OneCandidatePerUser(db)
    ensures RequesterCandidate(db, user) != Err("MultipleObjectsReturned")
    ensures RequesterCandidate(db, user).Err? ==> RequesterCandidate(db, user).error == "DoesNotExist"
  {
    FilterAtMostOne(db.candidates, CandidateOf(user));
  }

  /**
   * `ExperienceViewSet.perform_create`: the entry is attached to the
   * requester's candidate profile; the lookup's error aborts the request.
   */
  function CreateExperience(db: Db, user: User, jobTitle: string, company: string, id: int): (r: Result<Db, string>)
    ensures r.Err? <==> RequesterCandidate(db, user).Err?
    ensures r.Ok? ==> r.value.experiences == db.experiences + [ExperienceRow(id, RequesterCandidate(db, user).value, jobTitle, company)]
    ensures r.Ok? ==> r.value.candidates == db.candidates && r.value.educations == db.educations
    ensures r.Ok? ==> r.value.offers == db.offers && r.value.applications == db.applications
  {
    match RequesterCandidate(db, user)
    case Err(e) => Err(e)
    case Ok(c) => Ok(db.(experiences := db.experiences + [ExperienceRow(id, c, jobTitle, company)]))
  }

  /** `EducationViewSet.perform_create`, as for experience entries. */
  function CreateEducation(db: Db, user: User, degree: string, institution: string, id: int): (r: Result<Db, string>)
    ensures r.Err? <==> RequesterCandidate(db, user).Err?
    ensures r.Ok? ==> r.value.educations == db.educations + [EducationRow(id, RequesterCandidate(db, user).value, degree, institution)]
    ensures r.Ok? ==> r.value.candidates == db.candidates && r.value.experiences == db.experiences
    ensures r.Ok? ==> r.value.offers == db.offers && r.value.applications == db.applications
  {
    match RequesterCandidate(db, user)
    case Err(e) => Err(e)
    case Ok(c) => Ok(db.(educations := db.educations + [EducationRow(id, c, degree, institution)]))
  }

  /** A created entry shows up in its creator's own list. */
  lemma CreatedExperienceIsListed(db: Db, user: User, jobTitle: string, company: string, id: int)
    requires CreateExperience(db, user, jobTitle, company, id).Ok?
    ensures var after := CreateExperience(db, user, jobTitle, company, id).value;
      ExperienceRow(id, RequesterCandidate(db, user).value, jobTitle, company) in ExperienceQueryset(after, user)
  {
    var after := CreateExperience(db, user, jobTitle, company, id).value;
    assert ExperienceRow(id, RequesterCandidate(db, user).value, jobTitle, company) in after.experiences;
  }

  // ---------------------------------------------------------------------
  // The `applications` action
  // ---------------------------------------------------------------------

  datatype HttpError = NotFound | Forbidden

  /** The first offer with the id, as `get_object` looks it up. */
  function FindOffer(offers: seq<OfferRow>, pk: int): (r: Option<OfferRow>)
    ensures r.Some? ==> r.value in offers && r.value.id == pk
    ensures r.None? ==> forall o :: o in offers ==> o.id != pk
    decreases |offers|
  {
    if offers == [] then None
    else if offers[0].id == pk then Some(offers[0])
    else FindOffer(offers[1..], pk)
  }

  /**
   * `JobOfferViewSet.applications`: look the offer up among those the user
   * may see (404 otherwise), check the object permission (403), then list
   * the applications to that offer.
   */
  function OfferApplications(db: Db, user: User, pk: int): (r: Result<seq<ApplicationRow>, HttpError>)
  {
    match FindOffer(JobOfferQueryset(db, user), pk)
    case None => Err(NotFound)
    case Some(o) =>
      if !IsRecruiterOrAdmin(user, OfferObj(o)) then Err(Forbidden)
      else Ok(Filter(db.applications, ForOffer(o.id)))
  }

  /**
   * The action answers for exactly the offers the user may see, never with
   * 403, and then lists exactly the applications to the offer, in order;
   * their number is the offer's `applications_count`.
   */
  lemma OfferApplicationsSpec(db: Db, user: User, pk: int)
    ensures var r := OfferApplications(db, user, pk);
      && (r.Ok? <==> exists o :: o in db.offers && o.id == pk && (IsAdmin(user) || o.createdBy == user.id))
      && (r.Err? ==> r.error == NotFound)
      && (r.Ok? ==> (forall a :: a in r.value <==> a in db.applications && a.jobOffer == pk))
      && (r.Ok? ==> IsSubsequence(r.value, db.applications))
      && (forall o :: o in db.offers && o.id == pk ==> r.Ok? ==> |r.value| == ApplicationsCount(db.applications, o))
  {
    var visible := JobOfferQueryset(db, user);
    match FindOffer(visible, pk)
    case None =>
    case Some(o) =>
      FilterMembers(db.applications, ForOffer(pk));
      FilterIsSubsequence(db.applications, ForOffer(pk));
  }

  // ---------------------------------------------------------------------
  // Statistics
  // ---------------------------------------------------------------------

  datatype Statistics = Statistics(
    totalCandidates: nat,
    totalJobOffers: nat,
    applicationsByStatus: map<string, nat>)

  datatype StatisticsResponse =
    | StatisticsDenied(detail: string)
    | StatisticsOk(stats: Statistics)

  function WithStatus(status: string): ApplicationRow -> bool
  {
    (a: ApplicationRow) => a.status == status
  }

  /**
   * `values('status').annotate(count=Count('id'))` as a dict: one entry per
   * status that occurs, with the number of applications having it.
   */
  function StatusCounts(apps: seq<ApplicationRow>): (m: map<string, nat>)
    ensures forall s :: s in m <==> exists a :: a in apps && a.status == s
    ensures forall s :: s in m ==> m[s] == Count(apps, WithStatus(s)) && m[s] >= 1
  {
    var statuses := set a | a in apps :: a.status;
    var m := map s | s in statuses :: Count(apps, WithStatus(s));
    assert forall s :: s in m ==> m[s] >= 1 by {
      forall s | s in m
        ensures m[s] >= 1
      {
        var a :| a in apps && a.status == s;
        CountPositive(apps, WithStatus(s), a);
      }
    }
    m
  }

  /** `ApplicationViewSet.statistics`: 403 for anyone but an admin, else the totals. */
  function GetStatistics(db: Db, user: User): (r: StatisticsResponse)
    ensures !IsAdmin(user) ==> r == StatisticsDenied("Permission denied")
    ensures IsAdmin(user) ==> (
      && r.StatisticsOk?
      && r.stats.totalCandidates == |db.candidates|
      && r.stats.totalJobOffers == |db.offers|
      && r.stats.applicationsByStatus == StatusCounts(db.applications))
  {
    if user.role != AdminRole then StatisticsDenied("Permission denied")
    else StatisticsOk(Statistics(|db.candidates|, |db.offers|, StatusCounts(db.applications)))
  }

  /** With no application at all, the per-status table is empty. */
  lemma NoApplicationsNoStatuses(db: Db, admin: User)
    requires IsAdmin(admin) && db.applications == []
    ensures GetStatistics(db, admin).stats.applicationsByStatus == map[]
  {
    var m := GetStatistics(db, admin).stats.applicationsByStatus;
    assert forall s :: s !in m;
  }
}
