/**
 * The read handlers. Each is a `SELECT` over one table (the registration
 * listing joins two more), so each is a function of the tables it reads;
 * none can change the store.
 */
module Queries {
  import opened Schema
  import opened DbSchema
  import opened Rows
  import opened StatusUpdates

  function IsPendingDocument(d: Document): bool {
    d.status == DocumentStatus.Pending
  }

  function IsActiveProgram(p: TrainingProgram): bool {
    p.isActive
  }

  /** The administrator's queue: every pending document, of every registration. */
  function GetPendingDocuments(documents: seq<Document>): (r: seq<Document>)
    ensures |r| <= |documents|
    ensures forall d :: d in r <==> d in documents && d.status == DocumentStatus.Pending
  {
    Filter(documents, IsPendingDocument)
  }

  /** The registrations of one user. */
  function GetUserRegistrations(registrations: seq<Registration>, userId: int): (r: seq<Registration>)
    ensures |r| <= |registrations|
    ensures forall g :: g in r <==> g in registrations && g.userId == userId
  {
    Filter(registrations, (g: Registration) => g.userId == userId)
  }

  /** The catalogue: the active programs, each with its stored price. */
  function GetTrainingPrograms(programs: seq<TrainingProgram>): (r: seq<TrainingProgram>)
    ensures |r| <= |programs|
    ensures forall p :: p in r <==> p in programs && p.isActive
  {
    Filter(programs, IsActiveProgram)
  }

  /** The sessions of one program, in the order they were created. */
  function GetTrainingSchedule(schedules: seq<TrainingSchedule>, programId: int): (r: seq<TrainingSchedule>)
    ensures |r| <= |schedules|
    ensures forall s :: s in r <==> s in schedules && s.programId == programId
  {
    Filter(schedules, (s: TrainingSchedule) => s.programId == programId)
  }

  /**
   * Every registration joined (inner join) with its user and its program,
   * projected back onto the registration's own columns. Users and programs
   * are keyed by id, so a registration joins with at most one row of each
   * and appears at most once.
   */
  function GetAllRegistrations(users: seq<User>, programs: seq<TrainingProgram>,
                               registrations: seq<Registration>): (r: seq<Registration>)
    ensures |r| <= |registrations|
    ensures forall g :: g in r <==> && g in registrations
                                    && g.userId in Keys(users, UserKey)
                                    && g.programId in Keys(programs, ProgramKey)
  {
    Filter(registrations, (g: Registration) =>
      FindKey(users, UserKey, g.userId).Some? && FindKey(programs, ProgramKey, g.programId).Some?)
  }

  /**
   * Every payment, with its exact stored amount. What the listing promises
   * across writes is stated by `PaymentsListedAfterCreate` and
   * `PaymentsListedAfterUpdate` below.
   */
  function GetAllPayments(payments: seq<Payment>): (r: seq<Payment>)
  {
    payments
  }

  /** When every registration names a stored user and program, the join drops none of them. */
  lemma AllRegistrationsJoined(users: seq<User>, programs: seq<TrainingProgram>,
                               registrations: seq<Registration>)
    requires forall i :: 0 <= i < |registrations| ==>
               && registrations[i].userId in Keys(users, UserKey)
               && registrations[i].programId in Keys(programs, ProgramKey)
    ensures GetAllRegistrations(users, programs, registrations) == registrations
  {
    FilterKeepsAll(registrations, (g: Registration) =>
      FindKey(users, UserKey, g.userId).Some? && FindKey(programs, ProgramKey, g.programId).Some?);
  }

  // How each listing changes when one row is inserted into the table it reads.

  lemma PendingDocumentsAfterInsert(documents: seq<Document>, d: Document)
    ensures GetPendingDocuments(documents + [d]) ==
            GetPendingDocuments(documents) + (if d.status == DocumentStatus.Pending then [d] else [])
  {
    FilterSnoc(documents, d, IsPendingDocument);
  }

  lemma UserRegistrationsAfterInsert(registrations: seq<Registration>, g: Registration, userId: int)
    ensures GetUserRegistrations(registrations + [g], userId) ==
            GetUserRegistrations(registrations, userId) + (if g.userId == userId then [g] else [])
  {
    FilterSnoc(registrations, g, (g: Registration) => g.userId == userId);
  }

  lemma TrainingProgramsAfterInsert(programs: seq<TrainingProgram>, p: TrainingProgram)
    ensures GetTrainingPrograms(programs + [p]) ==
            GetTrainingPrograms(programs) + (if p.isActive then [p] else [])
  {
    FilterSnoc(programs, p, IsActiveProgram);
  }

  lemma TrainingScheduleAfterInsert(schedules: seq<TrainingSchedule>, s: TrainingSchedule, programId: int)
    ensures GetTrainingSchedule(schedules + [s], programId) ==
            GetTrainingSchedule(schedules, programId) + (if s.programId == programId then [s] else [])
  {
    FilterSnoc(schedules, s, (s: TrainingSchedule) => s.programId == programId);
  }

  // How the payment listing changes when a payment is created or updated.

  /** A created payment is listed last, after every payment listed before. */
  lemma PaymentsListedAfterCreate(payments: seq<Payment>, p: Payment)
    ensures |GetAllPayments(payments + [p])| == |GetAllPayments(payments)| + 1
    ensures forall i :: 0 <= i < |payments| ==> GetAllPayments(payments + [p])[i] == GetAllPayments(payments)[i]
    ensures GetAllPayments(payments + [p])[|payments|] == p
  {
  }

  /**
   * A payment status update lists the same payments, each with the same id,
   * registration, amount and method as before.
   */
  lemma PaymentsListedAfterUpdate(before: seq<Payment>, after: seq<Payment>,
                                  input: UpdatePaymentStatusInput, now: nat)
    requires |after| == |before|
    requires forall i :: 0 <= i < |before| ==>
               after[i] == if before[i].id == input.id then PaymentAfterUpdate(before[i], input, now)
                           else before[i]
    ensures |GetAllPayments(after)| == |GetAllPayments(before)|
    ensures forall i :: 0 <= i < |before| ==>
              && GetAllPayments(after)[i].id == GetAllPayments(before)[i].id
              && GetAllPayments(after)[i].registrationId == GetAllPayments(before)[i].registrationId
              && GetAllPayments(after)[i].amount == GetAllPayments(before)[i].amount
              && GetAllPayments(after)[i].paymentMethod == GetAllPayments(before)[i].paymentMethod
  {
  }

}
