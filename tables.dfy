/**
 * The invariant of each stored table on its own: ids drawn from the
 * table's serial sequence, foreign keys naming rows of the parent tables
 * (given as key sets), and the column constraints. Each insert and each
 * update of one row is shown to keep its table's invariant, and inserts
 * into a parent table only widen the key sets its children may name.
 */
module Tables {
  import opened Schema
  import opened DbSchema
  import opened Rows
  import opened StatusUpdates

  /** Some user already has this e-mail address. */
  predicate EmailTaken(users: seq<User>, email: string) {
    exists i :: 0 <= i < |users| && users[i].email == email
  }

  /** The `unique` constraint on `users.email`. */
  ghost predicate EmailsUnique(users: seq<User>) {
    forall i, j :: 0 <= i < j < |users| ==> users[i].email != users[j].email
  }

  ghost predicate UsersValid(users: seq<User>, next: int) {
    && next >= 1
    && SerialKeyed(users, UserKey, next)
    && EmailsUnique(users)
  }

  ghost predicate ProgramsValid(programs: seq<TrainingProgram>, next: int) {
    && next >= 1
    && SerialKeyed(programs, ProgramKey, next)
    && All(programs, PriceFits)
  }

  ghost predicate RegistrationsValid(registrations: seq<Registration>, next: int,
                                     userKeys: set<int>, programKeys: set<int>) {
    && next >= 1
    && SerialKeyed(registrations, RegistrationKey, next)
    && References(registrations, RegistrationUser, userKeys)
    && References(registrations, RegistrationProgram, programKeys)
  }

  ghost predicate PaymentsValid(payments: seq<Payment>, next: int, registrationKeys: set<int>) {
    && next >= 1
    && SerialKeyed(payments, PaymentKey, next)
    && References(payments, PaymentRegistration, registrationKeys)
    && All(payments, AmountFits)
  }

  /**
   * Documents also keep the verification rule, and a recorded verifier
   * names a user.
   */
  ghost predicate DocumentsValid(documents: seq<Document>, next: int, registrationKeys: set<int>,
                                 userKeys: set<int>) {
    && next >= 1
    && SerialKeyed(documents, DocumentKey, next)
    && References(documents, DocumentRegistration, registrationKeys)
    && OptionalReferences(documents, DocumentVerifier, userKeys)
    && All(documents, VerificationConsistent)
  }

  ghost predicate SchedulesValid(schedules: seq<TrainingSchedule>, next: int, programKeys: set<int>) {
    && next >= 1
    && SerialKeyed(schedules, ScheduleKey, next)
    && References(schedules, ScheduleProgram, programKeys)
  }

  // ---------------------------------------------------------------------
  // Inserts
  // ---------------------------------------------------------------------

  lemma UserAppended(users: seq<User>, next: int, row: User)
    requires UsersValid(users, next)
    requires row.id == next && !EmailTaken(users, row.email)
    ensures UsersValid(users + [row], next + 1)
    ensures Keys(users + [row], UserKey) == Keys(users, UserKey) + {next}
  {
    SerialKeyedAppend(users, UserKey, next, row);
    KeysAppend(users, UserKey, row);
    assert forall i :: 0 <= i < |users| ==> (users + [row])[i] == users[i];
  }

  lemma ProgramAppended(programs: seq<TrainingProgram>, next: int, row: TrainingProgram)
    requires ProgramsValid(programs, next)
    requires row.id == next && PriceFits(row)
    ensures ProgramsValid(programs + [row], next + 1)
    ensures Keys(programs + [row], ProgramKey) == Keys(programs, ProgramKey) + {next}
  {
    SerialKeyedAppend(programs, ProgramKey, next, row);
    KeysAppend(programs, ProgramKey, row);
    AllAppend(programs, PriceFits, row);
  }

  lemma RegistrationAppended(registrations: seq<Registration>, next: int, userKeys: set<int>,
                             programKeys: set<int>, row: Registration)
    requires RegistrationsValid(registrations, next, userKeys, programKeys)
    requires row.id == next && row.userId in userKeys && row.programId in programKeys
    ensures RegistrationsValid(registrations + [row], next + 1, userKeys, programKeys)
    ensures Keys(registrations + [row], RegistrationKey) == Keys(registrations, RegistrationKey) + {next}
  {
    SerialKeyedAppend(registrations, RegistrationKey, next, row);
    KeysAppend(registrations, RegistrationKey, row);
    ReferencesAppend(registrations, RegistrationUser, userKeys, row);
    ReferencesAppend(registrations, RegistrationProgram, programKeys, row);
  }

  lemma PaymentAppended(payments: seq<Payment>, next: int, registrationKeys: set<int>, row: Payment)
    requires PaymentsValid(payments, next, registrationKeys)
    requires row.id == next && row.registrationId in registrationKeys && AmountFits(row)
    ensures PaymentsValid(payments + [row], next + 1, registrationKeys)
  {
    SerialKeyedAppend(payments, PaymentKey, next, row);
    ReferencesAppend(payments, PaymentRegistration, registrationKeys, row);
    AllAppend(payments, AmountFits, row);
  }

  lemma DocumentAppended(documents: seq<Document>, next: int, registrationKeys: set<int>,
                         userKeys: set<int>, row: Document)
    requires DocumentsValid(documents, next, registrationKeys, userKeys)
    requires row.id == next && row.registrationId in registrationKeys
    requires row.verifiedBy.None? && VerificationConsistent(row)
    ensures DocumentsValid(documents + [row], next + 1, registrationKeys, userKeys)
  {
    SerialKeyedAppend(documents, DocumentKey, next, row);
    ReferencesAppend(documents, DocumentRegistration, registrationKeys, row);
    OptionalReferencesAppend(documents, DocumentVerifier, userKeys, row);
    AllAppend(documents, VerificationConsistent, row);
  }

  lemma ScheduleAppended(schedules: seq<TrainingSchedule>, next: int, programKeys: set<int>,
                         row: TrainingSchedule)
    requires SchedulesValid(schedules, next, programKeys)
    requires row.id == next && row.programId in programKeys
    ensures SchedulesValid(schedules + [row], next + 1, programKeys)
  {
    SerialKeyedAppend(schedules, ScheduleKey, next, row);
    ReferencesAppend(schedules, ScheduleProgram, programKeys, row);
  }

  // A parent table that gains rows leaves its children's foreign keys intact.

  lemma RegistrationsWiden(registrations: seq<Registration>, next: int, userKeys: set<int>,
                           programKeys: set<int>, userKeys': set<int>, programKeys': set<int>)
    requires RegistrationsValid(registrations, next, userKeys, programKeys)
    requires userKeys <= userKeys' && programKeys <= programKeys'
    ensures RegistrationsValid(registrations, next, userKeys', programKeys')
  {
    ReferencesWiden(registrations, RegistrationUser, userKeys, userKeys');
    ReferencesWiden(registrations, RegistrationProgram, programKeys, programKeys');
  }

  lemma PaymentsWiden(payments: seq<Payment>, next: int, registrationKeys: set<int>,
                      registrationKeys': set<int>)
    requires PaymentsValid(payments, next, registrationKeys)
    requires registrationKeys <= registrationKeys'
    ensures PaymentsValid(payments, next, registrationKeys')
  {
    ReferencesWiden(payments, PaymentRegistration, registrationKeys, registrationKeys');
  }

  lemma DocumentsWiden(documents: seq<Document>, next: int, registrationKeys: set<int>, userKeys: set<int>,
                       registrationKeys': set<int>, userKeys': set<int>)
    requires DocumentsValid(documents, next, registrationKeys, userKeys)
    requires registrationKeys <= registrationKeys' && userKeys <= userKeys'
    ensures DocumentsValid(documents, next, registrationKeys', userKeys')
  {
    ReferencesWiden(documents, DocumentRegistration, registrationKeys, registrationKeys');
    OptionalReferencesWiden(documents, DocumentVerifier, userKeys, userKeys');
  }

  lemma SchedulesWiden(schedules: seq<TrainingSchedule>, next: int, programKeys: set<int>,
                       programKeys': set<int>)
    requires SchedulesValid(schedules, next, programKeys)
    requires programKeys <= programKeys'
    ensures SchedulesValid(schedules, next, programKeys')
  {
    ReferencesWiden(schedules, ScheduleProgram, programKeys, programKeys');
  }

  // ---------------------------------------------------------------------
  // Status updates
  // ---------------------------------------------------------------------

  /** A registration status update keeps the invariant and the set of ids. */
  lemma RegistrationsUpdated(before: seq<Registration>, after: seq<Registration>, next: int,
                             userKeys: set<int>, programKeys: set<int>,
                             input: UpdateRegistrationStatusInput, now: nat)
    requires RegistrationsValid(before, next, userKeys, programKeys)
    requires |after| == |before|
    requires forall i :: 0 <= i < |before| ==>
               after[i] == if before[i].id == input.id then RegistrationAfterUpdate(before[i], input, now)
                           else before[i]
    ensures RegistrationsValid(after, next, userKeys, programKeys)
    ensures Keys(after, RegistrationKey) == Keys(before, RegistrationKey)
  {
    KeysPreserved(before, after, RegistrationKey);
    SerialKeyedPreserved(before, after, RegistrationKey, next);
    ReferencesPreserved(before, after, RegistrationUser, userKeys);
    ReferencesPreserved(before, after, RegistrationProgram, programKeys);
  }

  /** A payment status update keeps the invariant: amounts never change. */
  lemma PaymentsUpdated(before: seq<Payment>, after: seq<Payment>, next: int, registrationKeys: set<int>,
                        input: UpdatePaymentStatusInput, now: nat)
    requires PaymentsValid(before, next, registrationKeys)
    requires |after| == |before|
    requires forall i :: 0 <= i < |before| ==>
               after[i] == if before[i].id == input.id then PaymentAfterUpdate(before[i], input, now)
                           else before[i]
    ensures PaymentsValid(after, next, registrationKeys)
  {
    SerialKeyedPreserved(before, after, PaymentKey, next);
    ReferencesPreserved(before, after, PaymentRegistration, registrationKeys);
    AllUpdated(before, after, AmountFits);
  }

  /**
   * A document status update keeps the invariant, provided the verifier
   * it would record (if any) is a known user.
   */
  lemma DocumentsUpdated(before: seq<Document>, after: seq<Document>, next: int,
                         registrationKeys: set<int>, userKeys: set<int>,
                         input: UpdateDocumentStatusInput, now: nat)
    requires DocumentsValid(before, next, registrationKeys, userKeys)
    requires input.status == DocumentStatus.Verified && input.verifiedBy.Some? ==>
               input.verifiedBy.value in userKeys
    requires |after| == |before|
    requires forall i :: 0 <= i < |before| ==>
               after[i] == if before[i].id == input.id then DocumentAfterUpdate(before[i], input, now)
                           else before[i]
    ensures DocumentsValid(after, next, registrationKeys, userKeys)
  {
    forall i | 0 <= i < |before| && before[i].id == input.id
      ensures VerificationConsistent(after[i])
    {
      DocumentUpdateConsistent(before[i], input, now);
    }
    SerialKeyedPreserved(before, after, DocumentKey, next);
    ReferencesPreserved(before, after, DocumentRegistration, registrationKeys);
  }

  /**
   * The next serial value names no stored row, so every insert gets an id
   * of its own, distinct from every id before it.
   */
  lemma NextKeyFresh<T>(rows: seq<T>, key: T -> int, next: int)
    requires SerialKeyed(rows, key, next)
    ensures next !in Keys(rows, key)
    ensures forall k :: k in Keys(rows, key) ==> k < next
  {
  }

  /** A key outside the key set matches no row. */
  lemma KeyAbsent<T>(rows: seq<T>, key: T -> int, k: int)
    requires forall i :: 0 <= i < |rows| ==> key(rows[i]) != k
    ensures k !in Keys(rows, key)
  {
  }

  /** Serial keys identify rows: two rows with the same key are the same row. */
  lemma KeysUnique<T>(rows: seq<T>, key: T -> int, next: int)
    requires SerialKeyed(rows, key, next)
    ensures forall i, j :: 0 <= i < |rows| && 0 <= j < |rows| && key(rows[i]) == key(rows[j]) ==> i == j
  {
  }

}
