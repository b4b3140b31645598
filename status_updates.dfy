/**
 * What each status-update handler does to the one row it targets, as a
 * function of the row, the request and the time of the request.
 */
module StatusUpdates {
  import opened Nullable
  import opened Schema
  import opened DbSchema

  // ---------------------------------------------------------------------
  // Registrations: status and notes are replaced together
  // ---------------------------------------------------------------------

  function RegistrationAfterUpdate(g: Registration, input: UpdateRegistrationStatusInput, now: nat): (r: Registration)
    ensures r.status == input.status && r.notes == input.notes && r.updatedAt == now
    ensures && r.id == g.id && r.userId == g.userId && r.programId == g.programId
            && r.registrationDate == g.registrationDate && r.createdAt == g.createdAt
  {
    g.(status := input.status, notes := input.notes, updatedAt := now)
  }

  /** No transition table: from any registration, any status can be reached. */
  lemma AnyRegistrationStatusReachable(g: Registration, target: RegistrationStatus, now: nat)
    ensures RegistrationAfterUpdate(g, UpdateRegistrationStatusInput(g.id, target, g.notes), now).status == target
  {
  }

  // ---------------------------------------------------------------------
  // Payments: a partial update that tells "left out" from "null"
  // ---------------------------------------------------------------------

  /** A nullable column after a partial update of it. */
  function Patched<T>(current: Option<T>, f: Field<T>): Option<T> {
    match f
    case Omitted => current
    case Null => None
    case Value(v) => Some(v)
  }

  function PaymentAfterUpdate(p: Payment, input: UpdatePaymentStatusInput, now: nat): (r: Payment)
    ensures r.paymentStatus == input.paymentStatus && r.updatedAt == now
    ensures && r.id == p.id && r.registrationId == p.registrationId && r.amount == p.amount
            && r.paymentMethod == p.paymentMethod && r.createdAt == p.createdAt
    ensures input.paymentDate.Omitted? ==> r.paymentDate == p.paymentDate
    ensures input.paymentDate.Null? ==> r.paymentDate == None
    ensures input.paymentDate.Value? ==> r.paymentDate == Some(input.paymentDate.value)
    ensures input.transactionId.Omitted? ==> r.transactionId == p.transactionId
    ensures input.transactionId.Null? ==> r.transactionId == None
    ensures input.transactionId.Value? ==> r.transactionId == Some(input.transactionId.value)
    ensures input.notes.Omitted? ==> r.notes == p.notes
    ensures input.notes.Null? ==> r.notes == None
    ensures input.notes.Value? ==> r.notes == Some(input.notes.value)
  {
    p.(paymentStatus := input.paymentStatus,
       updatedAt := now,
       paymentDate := Patched(p.paymentDate, input.paymentDate),
       transactionId := Patched(p.transactionId, input.transactionId),
       notes := Patched(p.notes, input.notes))
  }

  /** The field of `later` wins unless `later` leaves it out. */
  function Override<T>(earlier: Field<T>, later: Field<T>): Field<T> {
    if later.Omitted? then earlier else later
  }

  /** Two partial updates in a row act as one update with the later fields winning. */
  lemma PaymentUpdatesCompose(p: Payment, a: UpdatePaymentStatusInput, b: UpdatePaymentStatusInput,
                              t1: nat, t2: nat)
    ensures PaymentAfterUpdate(PaymentAfterUpdate(p, a, t1), b, t2) ==
            PaymentAfterUpdate(p, b.(paymentDate := Override(a.paymentDate, b.paymentDate),
                                     transactionId := Override(a.transactionId, b.transactionId),
                                     notes := Override(a.notes, b.notes)), t2)
  {
  }

  /**
   * A payment may be marked `paid` while its payment date stays null: the
   * handler does not tie the two together.
   */
  lemma PaidWithoutPaymentDate(p: Payment, now: nat)
    requires p.paymentDate == None
    ensures PaymentAfterUpdate(p, UpdatePaymentStatusInput(p.id, PaymentStatus.Paid, Omitted, Omitted, Omitted), now)
            == p.(paymentStatus := PaymentStatus.Paid, updatedAt := now)
  {
  }

  // ---------------------------------------------------------------------
  // Documents: the verification fields follow the status
  // ---------------------------------------------------------------------

  /**
   * The verification rule, as an invariant of a stored document: it carries
   * a verification time exactly when it is verified, and a verifier only
   * when it is verified.
   */
  predicate VerificationConsistent(d: Document) {
    && (d.verifiedAt.Some? <==> d.status == DocumentStatus.Verified)
    && (d.verifiedBy.Some? ==> d.status == DocumentStatus.Verified)
  }

  function DocumentAfterUpdate(d: Document, input: UpdateDocumentStatusInput, now: nat): (r: Document)
    ensures r.status == input.status && r.notes == input.notes && r.updatedAt == now
    ensures input.status == DocumentStatus.Verified ==> r.verifiedBy == input.verifiedBy && r.verifiedAt == Some(now)
    ensures input.status != DocumentStatus.Verified ==> r.verifiedBy == None && r.verifiedAt == None
    ensures && r.id == d.id && r.registrationId == d.registrationId && r.documentType == d.documentType
            && r.filePath == d.filePath && r.fileName == d.fileName && r.createdAt == d.createdAt
  {
    if input.status == DocumentStatus.Verified then
      d.(status := input.status, notes := input.notes, updatedAt := now,
         verifiedBy := input.verifiedBy, verifiedAt := Some(now))
    else
      d.(status := input.status, notes := input.notes, updatedAt := now,
         verifiedBy := None, verifiedAt := None)
  }

  /** Whatever the document was before, the update leaves it consistent. */
  lemma DocumentUpdateConsistent(d: Document, input: UpdateDocumentStatusInput, now: nat)
    ensures VerificationConsistent(DocumentAfterUpdate(d, input, now))
  {
  }

  /**
   * Repeating an update changes nothing but its time stamps; for `pending`
   * and `rejected` the second call changes only `updatedAt`.
   */
  lemma DocumentUpdateIdempotent(d: Document, input: UpdateDocumentStatusInput, t1: nat, t2: nat)
    ensures DocumentAfterUpdate(DocumentAfterUpdate(d, input, t1), input, t2) == DocumentAfterUpdate(d, input, t2)
    ensures input.status != DocumentStatus.Verified ==>
              DocumentAfterUpdate(DocumentAfterUpdate(d, input, t1), input, t2) ==
              DocumentAfterUpdate(d, input, t1).(updatedAt := t2)
  {
  }

  /**
   * A document can be verified with no verifier recorded: the input allows
   * a null `verifiedBy` whatever the status.
   */
  lemma VerifiedWithoutVerifier(d: Document, now: nat)
    ensures DocumentAfterUpdate(d, UpdateDocumentStatusInput(d.id, DocumentStatus.Verified, None, d.notes), now).status
            == DocumentStatus.Verified
    ensures DocumentAfterUpdate(d, UpdateDocumentStatusInput(d.id, DocumentStatus.Verified, None, d.notes), now).verifiedBy
            == None
  {
  }

}
