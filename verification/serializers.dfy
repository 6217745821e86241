/**
 * The serializers' own logic: the duplicate check on applications, the
 * `applications_count` field of offers, and the read-only fields a client
 * cannot set.
 */
module Serializers {
  import opened Wrappers
  import opened Seqs
  import opened Models

  // ---------------------------------------------------------------------
  // Applications
  // ---------------------------------------------------------------------

  const DuplicateMessage: string := "Une candidature existe d\U{00E9}j\U{00E0} pour cette offre"

  /**
   * An application request body as a client may send it. `id`,
   * `date_applied` and `match_score` may be present; they are read-only.
   */
  datatype ApplicationPayload = ApplicationPayload(
    candidateId: int,
    jobOfferId: int,
    status: Option<string>,
    notes: Option<string>,
    id: Option<int>,
    dateApplied: Option<string>,
    matchScore: Option<int>)

  /** The validated data: the writable fields only. */
  datatype ApplicationData = ApplicationData(
    candidate: int,
    jobOffer: int,
    status: Option<string>,
    notes: Option<string>)

  /** Field parsing: `candidate_id`/`job_offer_id` become `candidate`/`job_offer`; read-only fields are dropped. */
  function ToInternal(p: ApplicationPayload): (d: ApplicationData)
    ensures d.candidate == p.candidateId && d.jobOffer == p.jobOfferId
    ensures d.status == p.status && d.notes == p.notes
  {
    ApplicationData(p.candidateId, p.jobOfferId, p.status, p.notes)
  }

  /** Payloads that differ only in read-only fields give the same data. */
  lemma ReadOnlyApplicationFieldsIgnored(p: ApplicationPayload, q: ApplicationPayload)
    requires p.candidateId == q.candidateId && p.jobOfferId == q.jobOfferId
    requires p.status == q.status && p.notes == q.notes
    ensures ToInternal(p) == ToInternal(q)
  {
  }

  /** Some application other than `instance` already joins this candidate to this offer. */
  predicate PairTaken(apps: seq<ApplicationRow>, candidate: int, jobOffer: int, instance: Option<int>)
  {
    exists a :: a in apps && a.candidate == candidate && a.jobOffer == jobOffer &&
      (instance.None? || a.id != instance.value)
  }

  /**
   * `ApplicationSerializer.validate` as written: reject when any stored
   * application has the pair, including the one being updated.
   */
  function ValidateAsWritten(apps: seq<ApplicationRow>, data: ApplicationData): (r: Result<ApplicationData, string>)
    ensures r.Ok? <==> !PairTaken(apps, data.candidate, data.jobOffer, None)
    ensures r.Ok? ==> r.value == data
    ensures r.Err? ==> r.error == DuplicateMessage
  {
    if exists a :: a in apps && a.candidate == data.candidate && a.jobOffer == data.jobOffer then
      Err(DuplicateMessage)
    else
      Ok(data)
  }

  /**
   * Saving an application again with its own candidate and offer (a full
   * update that changes only the status) is rejected as a duplicate of itself.
   */
  lemma UpdateRejectedAsWritten(a: ApplicationRow)
    ensures ValidateAsWritten([a], ApplicationData(a.candidate, a.jobOffer, Some("accepted"), None)).Err?
  {
    assert a in [a];
  }

  /**
   * The message of the unique-together validator that Django REST framework's
   * `ModelSerializer` derives from `unique_together = ['candidate', 'job_offer']`,
   * naming the serializer fields whose source those columns are.
   */
  const UniqueSetMessage: string := "The fields candidate_id, job_offer_id must make a unique set."

  /**
   * The serializer's whole validation as written: the framework's
   * unique-together validator runs first and leaves the instance being
   * updated out of its search; `validate()` runs only if it passes.
   */
  function RunValidators(apps: seq<ApplicationRow>, data: ApplicationData, instance: Option<int>): (r: Result<ApplicationData, string>)
    ensures PairTaken(apps, data.candidate, data.jobOffer, instance) ==> r == Err(UniqueSetMessage)
    ensures !PairTaken(apps, data.candidate, data.jobOffer, instance) ==> r == ValidateAsWritten(apps, data)
  {
    if PairTaken(apps, data.candidate, data.jobOffer, instance) then Err(UniqueSetMessage)
    else ValidateAsWritten(apps, data)
  }

  /**
   * On a create the framework's check already refuses every duplicate, so
   * `validate()`'s own message is never returned: the outcome is the
   * intended check's, with the framework's message.
   */
  lemma CreateNeverReachesDuplicateMessage(apps: seq<ApplicationRow>, data: ApplicationData)
    ensures RunValidators(apps, data, None).Ok? <==> Validate(apps, data, None).Ok?
    ensures RunValidators(apps, data, None).Ok? ==> RunValidators(apps, data, None).value == data
    ensures RunValidators(apps, data, None).Err? ==> RunValidators(apps, data, None).error == UniqueSetMessage
  {
  }

  /**
   * On an update that keeps the application's own pair, the framework's
   * check passes (it leaves the instance out) and `validate()` then rejects
   * the application as a duplicate of itself.
   */
  lemma UpdateRejectedByValidate(a: ApplicationRow)
    ensures RunValidators([a], ApplicationData(a.candidate, a.jobOffer, Some("accepted"), None), Some(a.id))
      == Err(DuplicateMessage)
  {
  }

  /**
   * `validate` as evidently intended: on an update, the application being
   * updated (`instance`) does not count as a duplicate of itself.
   */
  function Validate(apps: seq<ApplicationRow>, data: ApplicationData, instance: Option<int>): (r: Result<ApplicationData, string>)
    ensures r.Ok? <==> !PairTaken(apps, data.candidate, data.jobOffer, instance)
    ensures r.Ok? ==> r.value == data
    ensures r.Err? ==> r.error == DuplicateMessage
  {
    if PairTaken(apps, data.candidate, data.jobOffer, instance) then Err(DuplicateMessage) else Ok(data)
  }

  /** On creation (no instance) the intended check is the written one. */
  lemma ValidateCreateAsWritten(apps: seq<ApplicationRow>, data: ApplicationData)
    ensures Validate(apps, data, None) == ValidateAsWritten(apps, data)
  {
  }

  /** Under `unique_together`, a pair occurs at one index only. */
  lemma PairIndexUnique(apps: seq<ApplicationRow>, i: int, k: int)
    requires UniquePairs(apps)
    requires 0 <= i < |apps| && 0 <= k < |apps|
    requires apps[i].candidate == apps[k].candidate && apps[i].jobOffer == apps[k].jobOffer
    ensures i == k
  {
  }

  /** Re-saving a stored application with its own pair passes, when pairs are unique. */
  lemma ValidateAcceptsOwnPair(apps: seq<ApplicationRow>, k: int, data: ApplicationData)
    requires UniquePairs(apps)
    requires 0 <= k < |apps|
    requires data.candidate == apps[k].candidate && data.jobOffer == apps[k].jobOffer
    ensures Validate(apps, data, Some(apps[k].id)) == Ok(data)
  {
    forall a | a in apps && a.candidate == data.candidate && a.jobOffer == data.jobOffer
      ensures a.id == apps[k].id
    {
      var i :| 0 <= i < |apps| && apps[i] == a;
      PairIndexUnique(apps, i, k);
    }
  }

  /** The row `serializer.save()` inserts: server-chosen id and timestamp, no score yet. */
  function CreateApplication(data: ApplicationData, id: int, now: string): (a: ApplicationRow)
    ensures a.candidate == data.candidate && a.jobOffer == data.jobOffer
    ensures a.status == (if data.status.Some? then data.status.value else PendingStatus)
    ensures a.notes == (if data.notes.Some? then data.notes.value else "")
    ensures a.id == id && a.dateApplied == now && a.matchScore.None?
  {
    ApplicationRow(id, data.candidate, data.jobOffer,
      if data.status.Some? then data.status.value else PendingStatus,
      now, None, if data.notes.Some? then data.notes.value else "")
  }

  /** Inserting a validated application keeps every (candidate, offer) pair unique. */
  lemma ValidatedInsertKeepsPairsUnique(apps: seq<ApplicationRow>, data: ApplicationData, id: int, now: string)
    requires UniquePairs(apps)
    requires Validate(apps, data, None).Ok?
    ensures UniquePairs(apps + [CreateApplication(data, id, now)])
  {
    var r := apps + [CreateApplication(data, id, now)];
    forall i, j | 0 <= i < j < |r|
      ensures r[i].candidate != r[j].candidate || r[i].jobOffer != r[j].jobOffer
    {
      if j == |apps| {
        assert r[i] in apps;
      } else {
        assert r[i] == apps[i] && r[j] == apps[j];
      }
    }
  }

  /**
   * An update applies the writable fields and keeps the read-only ones:
   * id, application date and score.
   */
  function UpdateApplication(a: ApplicationRow, data: ApplicationData): (r: ApplicationRow)
    ensures r.id == a.id && r.dateApplied == a.dateApplied && r.matchScore == a.matchScore
    ensures r.candidate == data.candidate && r.jobOffer == data.jobOffer
    ensures r.status == (if data.status.Some? then data.status.value else a.status)
    ensures r.notes == (if data.notes.Some? then data.notes.value else a.notes)
  {
    ApplicationRow(a.id, data.candidate, data.jobOffer,
      if data.status.Some? then data.status.value else a.status,
      a.dateApplied, a.matchScore,
      if data.notes.Some? then data.notes.value else a.notes)
  }

  /** Sending the same data twice updates the application as once. */
  lemma UpdateApplicationIdempotent(a: ApplicationRow, data: ApplicationData)
    ensures UpdateApplication(UpdateApplication(a, data), data) == UpdateApplication(a, data)
  {
  }

  /** A partial update that sends neither status nor notes keeps both. */
  lemma PartialUpdateKeepsUnsent(a: ApplicationRow, data: ApplicationData)
    requires data.status.None? && data.notes.None?
    ensures UpdateApplication(a, data) == a.(candidate := data.candidate, jobOffer := data.jobOffer)
  {
  }

  // ---------------------------------------------------------------------
  // Job offers
  // ---------------------------------------------------------------------

  /**
   * An offer request body; `id`, `created_at`, `updated_at` and
   * `created_by` may be present and are read-only.
   */
  datatype OfferPayload = OfferPayload(
    title: string,
    isActive: Option<bool>,
    id: Option<int>,
    createdAt: Option<string>,
    updatedAt: Option<string>,
    createdBy: Option<int>)

  /**
   * The row `serializer.save(**extra)` inserts: the payload's writable
   * fields, with id, timestamps and creator taken from the server.
   */
  function SaveOffer(p: OfferPayload, id: int, now: string, creator: int): (o: OfferRow)
    ensures o.id == id && o.createdAt == now && o.updatedAt == now && o.createdBy == creator
    ensures o.title == p.title
    ensures o.isActive == (p.isActive.None? || p.isActive.value)
  {
    OfferRow(id, p.title, creator, now, now, if p.isActive.Some? then p.isActive.value else true)
  }

  /** Payloads that differ only in read-only fields save the same offer. */
  lemma ReadOnlyOfferFieldsIgnored(p: OfferPayload, q: OfferPayload, id: int, now: string, creator: int)
    requires p.title == q.title && p.isActive == q.isActive
    ensures SaveOffer(p, id, now, creator) == SaveOffer(q, id, now, creator)
  {
  }

  /** An application belongs to the offer with this id. */
  function ForOffer(offer: int): ApplicationRow -> bool
  {
    (a: ApplicationRow) => a.jobOffer == offer
  }

  /** `get_applications_count`: `obj.applications.count()`. */
  function ApplicationsCount(apps: seq<ApplicationRow>, o: OfferRow): (n: nat)
    ensures n <= |apps|
  {
    Count(apps, ForOffer(o.id))
  }

  /** The count is zero exactly when no application refers to the offer. */
  lemma ApplicationsCountZero(apps: seq<ApplicationRow>, o: OfferRow)
    ensures ApplicationsCount(apps, o) == 0 <==> forall a :: a in apps ==> a.jobOffer != o.id
  {
    FilterMembers(apps, ForOffer(o.id));
    if exists a :: a in apps && a.jobOffer == o.id {
      var a :| a in apps && a.jobOffer == o.id;
      CountPositive(apps, ForOffer(o.id), a);
    } else if ApplicationsCount(apps, o) != 0 {
      var r := Filter(apps, ForOffer(o.id));
      assert r[0] in r;
    }
  }
}
