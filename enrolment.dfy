/**
 * The enrolment store: the six tables with their serial id sequences, and
 * the handlers that insert into them or update one row of them.
 *
 * Every handler either commits its one insert or update or, on failure,
 * leaves its table as it was; the invariant `Valid()` (keys, references,
 * unique e-mails, money range, the document verification rule) holds
 * before and after every call.
 */
module Enrolment {
  import opened Nullable
  import opened Schema
  import opened DbSchema
  import opened Rows
  import opened StatusUpdates
  import opened Tables
  import opened Queries

  datatype Table = UsersTable | ProgramsTable | RegistrationsTable | PaymentsTable | DocumentsTable | SchedulesTable

  datatype Error =
      /** "<Entity> with id N not found": an update matched no row. */
    | NotFound(table: Table, id: int)
      /** "Registration not found": the payment handler's own parent check. */
    | RegistrationNotFound
      /** "Registration with ID N not found": the document handler's own parent check. */
    | RegistrationWithIdNotFound(id: int)
      /** The store refused a row whose column names no existing parent row. */
    | ForeignKeyViolation(table: Table, column: string)
      /** The store refused a second row with the same value in a unique column. */
    | UniqueViolation(table: Table, column: string)
      /** The store refused a money value outside `numeric(10, 2)`. */
    | NumericOverflow(table: Table, column: string)

  datatype Result<T> = Ok(value: T) | Err(error: Error)

  class Store {
    var users: seq<User>
    var programs: seq<TrainingProgram>
    var registrations: seq<Registration>
    var payments: seq<Payment>
    var documents: seq<Document>
    var schedules: seq<TrainingSchedule>

    // The id the next insert into each table draws from its serial sequence.
    var nextUserId: int
    var nextProgramId: int
    var nextRegistrationId: int
    var nextPaymentId: int
    var nextDocumentId: int
    var nextScheduleId: int

    /**
     * The store's invariant: keys drawn from the serial sequences, every
     * foreign key naming an existing row, unique e-mails, money within
     * `numeric(10, 2)`, and the document verification rule.
     */
    ghost predicate Valid()
      reads this
    {
      && UsersValid(users, nextUserId)
      && ProgramsValid(programs, nextProgramId)
      && RegistrationsValid(registrations, nextRegistrationId, Keys(users, UserKey), Keys(programs, ProgramKey))
      && PaymentsValid(payments, nextPaymentId, Keys(registrations, RegistrationKey))
      && DocumentsValid(documents, nextDocumentId, Keys(registrations, RegistrationKey), Keys(users, UserKey))
      && SchedulesValid(schedules, nextScheduleId, Keys(programs, ProgramKey))
    }

    /** An empty database whose serial sequences all start at 1. */
    constructor ()
      ensures Valid()
      ensures users == [] && programs == [] && registrations == []
      ensures payments == [] && documents == [] && schedules == []
      ensures nextUserId == 1 && nextProgramId == 1 && nextRegistrationId == 1
      ensures nextPaymentId == 1 && nextDocumentId == 1 && nextScheduleId == 1
    {
      users, programs, registrations := [], [], [];
      payments, documents, schedules := [], [], [];
      nextUserId, nextProgramId, nextRegistrationId := 1, 1, 1;
      nextPaymentId, nextDocumentId, nextScheduleId := 1, 1, 1;
    }

    // -------------------------------------------------------------------
    // Inserts
    // -------------------------------------------------------------------

    /**
     * Insert into the users table. The store refuses an e-mail that is
     * already taken; the refused insert has still drawn an id.
     */
    method InsertUser(input: CreateUserInput, now: nat) returns (r: Result<User>)
      requires Valid()
      modifies this`users, this`nextUserId
      ensures Valid()
      ensures nextUserId == old(nextUserId) + 1
      ensures EmailTaken(old(users), input.email) ==>
                r == Err(UniqueViolation(UsersTable, "email")) && users == old(users)
      ensures !EmailTaken(old(users), input.email) ==>
                && r == Ok(User(old(nextUserId), input.email, input.password, input.fullName,
                                input.phone, input.address, input.role, now, now))
                && users == old(users) + [r.value]
    {
      var id := nextUserId;
      nextUserId := nextUserId + 1;
      if EmailTaken(users, input.email) {
        return Err(UniqueViolation(UsersTable, "email"));
      }
      var row := User(id, input.email, input.password, input.fullName, input.phone,
                      input.address, input.role, now, now);
      UserAppended(users, id, row);
      RegistrationsWiden(registrations, nextRegistrationId, Keys(users, UserKey), Keys(programs, ProgramKey),
                         Keys(users + [row], UserKey), Keys(programs, ProgramKey));
      DocumentsWiden(documents, nextDocumentId, Keys(registrations, RegistrationKey), Keys(users, UserKey),
                     Keys(registrations, RegistrationKey), Keys(users + [row], UserKey));
      users := users + [row];
      r := Ok(row);
    }

    /**
     * `createTrainingProgram`: insert a copy of the input; only a price
     * outside `numeric(10, 2)` is refused. The price arrives as a bound
     * parameter, whose conversion to `numeric(10, 2)` fails while the
     * statement is planned, before the id default is evaluated, so the
     * refused insert draws no id.
     */
    method CreateTrainingProgram(input: CreateTrainingProgramInput, now: nat) returns (r: Result<TrainingProgram>)
      requires Valid()
      modifies this`programs, this`nextProgramId
      ensures Valid()
      ensures !FitsNumeric(input.price) ==>
                && r == Err(NumericOverflow(ProgramsTable, "price"))
                && programs == old(programs) && nextProgramId == old(nextProgramId)
      ensures FitsNumeric(input.price) ==>
                && r == Ok(TrainingProgram(old(nextProgramId), input.name, input.description,
                                           input.durationHours, input.price, input.maxParticipants,
                                           input.startDate, input.endDate, input.isActive, now, now))
                && programs == old(programs) + [r.value]
                && nextProgramId == old(nextProgramId) + 1
    {
      if !FitsNumeric(input.price) {
        return Err(NumericOverflow(ProgramsTable, "price"));
      }
      var id := nextProgramId;
      nextProgramId := nextProgramId + 1;
      var row := TrainingProgram(id, input.name, input.description, input.durationHours, input.price,
                                 input.maxParticipants, input.startDate, input.endDate,
                                 input.isActive, now, now);
      ProgramAppended(programs, id, row);
      RegistrationsWiden(registrations, nextRegistrationId, Keys(users, UserKey), Keys(programs, ProgramKey),
                         Keys(users, UserKey), Keys(programs + [row], ProgramKey));
      SchedulesWiden(schedules, nextScheduleId, Keys(programs, ProgramKey), Keys(programs + [row], ProgramKey));
      programs := programs + [row];
      r := Ok(row);
    }

    /**
     * `createRegistration`: insert with status `pending` and registration
     * date `now`. The handler checks nothing itself; the store refuses an
     * unknown user or program (after an id was drawn). Nothing stops the
     * same user registering for the same program twice.
     */
    method CreateRegistration(input: CreateRegistrationInput, now: nat) returns (r: Result<Registration>)
      requires Valid()
      modifies this`registrations, this`nextRegistrationId
      ensures Valid()
      ensures nextRegistrationId == old(nextRegistrationId) + 1
      ensures input.userId !in Keys(users, UserKey) ==>
                r == Err(ForeignKeyViolation(RegistrationsTable, "user_id")) && registrations == old(registrations)
      ensures input.userId in Keys(users, UserKey) && input.programId !in Keys(programs, ProgramKey) ==>
                r == Err(ForeignKeyViolation(RegistrationsTable, "program_id")) && registrations == old(registrations)
      ensures input.userId in Keys(users, UserKey) && input.programId in Keys(programs, ProgramKey) ==>
                && r == Ok(Registration(old(nextRegistrationId), input.userId, input.programId,
                                        RegistrationStatus.Pending, now, input.notes, now, now))
                && registrations == old(registrations) + [r.value]
    {
      var id := nextRegistrationId;
      nextRegistrationId := nextRegistrationId + 1;
      if FindKey(users, UserKey, input.userId).None? {
        return Err(ForeignKeyViolation(RegistrationsTable, "user_id"));
      }
      if FindKey(programs, ProgramKey, input.programId).None? {
        return Err(ForeignKeyViolation(RegistrationsTable, "program_id"));
      }
      var row := Registration(id, input.userId, input.programId, RegistrationStatus.Pending,
                              now, input.notes, now, now);
      RegistrationAppended(registrations, id, Keys(users, UserKey), Keys(programs, ProgramKey), row);
      PaymentsWiden(payments, nextPaymentId, Keys(registrations, RegistrationKey),
                    Keys(registrations + [row], RegistrationKey));
      DocumentsWiden(documents, nextDocumentId, Keys(registrations, RegistrationKey), Keys(users, UserKey),
                     Keys(registrations + [row], RegistrationKey), Keys(users, UserKey));
      registrations := registrations + [row];
      r := Ok(row);
    }

    /**
     * `createPayment`: the handler first looks the registration up and
     * fails with "Registration not found" without touching the store; the
     * new payment is `pending` with no payment date. An amount outside
     * `numeric(10, 2)` is refused, like a program's price, before an id is
     * drawn.
     */
    method CreatePayment(input: CreatePaymentInput, now: nat) returns (r: Result<Payment>)
      requires Valid()
      modifies this`payments, this`nextPaymentId
      ensures Valid()
      ensures input.registrationId !in Keys(registrations, RegistrationKey) ==>
                && r == Err(RegistrationNotFound)
                && payments == old(payments) && nextPaymentId == old(nextPaymentId)
      ensures input.registrationId in Keys(registrations, RegistrationKey) && !FitsNumeric(input.amount) ==>
                && r == Err(NumericOverflow(PaymentsTable, "amount"))
                && payments == old(payments) && nextPaymentId == old(nextPaymentId)
      ensures input.registrationId in Keys(registrations, RegistrationKey) && FitsNumeric(input.amount) ==>
                && r == Ok(Payment(old(nextPaymentId), input.registrationId, input.amount,
                                   input.paymentMethod, PaymentStatus.Pending, None,
                                   input.transactionId, input.notes, now, now))
                && payments == old(payments) + [r.value]
                && nextPaymentId == old(nextPaymentId) + 1
    {
      if FindKey(registrations, RegistrationKey, input.registrationId).None? {
        return Err(RegistrationNotFound);
      }
      if !FitsNumeric(input.amount) {
        return Err(NumericOverflow(PaymentsTable, "amount"));
      }
      var id := nextPaymentId;
      nextPaymentId := nextPaymentId + 1;
      var row := Payment(id, input.registrationId, input.amount, input.paymentMethod,
                         PaymentStatus.Pending, None, input.transactionId, input.notes, now, now);
      PaymentAppended(payments, id, Keys(registrations, RegistrationKey), row);
      payments := payments + [row];
      r := Ok(row);
    }

    /**
     * `createDocument`: the handler first looks the registration up and
     * fails with "Registration with ID N not found" without touching the
     * store; the new document is `pending`, unverified and without notes.
     */
    method CreateDocument(input: CreateDocumentInput, now: nat) returns (r: Result<Document>)
      requires Valid()
      modifies this`documents, this`nextDocumentId
      ensures Valid()
      ensures input.registrationId !in Keys(registrations, RegistrationKey) ==>
                && r == Err(RegistrationWithIdNotFound(input.registrationId))
                && documents == old(documents) && nextDocumentId == old(nextDocumentId)
      ensures input.registrationId in Keys(registrations, RegistrationKey) ==>
                && r == Ok(Document(old(nextDocumentId), input.registrationId, input.documentType,
                                    input.filePath, input.fileName, DocumentStatus.Pending,
                                    None, None, None, now, now))
                && documents == old(documents) + [r.value]
                && nextDocumentId == old(nextDocumentId) + 1
    {
      if FindKey(registrations, RegistrationKey, input.registrationId).None? {
        return Err(RegistrationWithIdNotFound(input.registrationId));
      }
      var id := nextDocumentId;
      nextDocumentId := nextDocumentId + 1;
      var row := Document(id, input.registrationId, input.documentType, input.filePath,
                          input.fileName, DocumentStatus.Pending, None, None, None, now, now);
      DocumentAppended(documents, id, Keys(registrations, RegistrationKey), Keys(users, UserKey), row);
      documents := documents + [row];
      r := Ok(row);
    }

    /**
     * `createTrainingSchedule`: insert a copy of the input; the store
     * refuses an unknown program (after an id was drawn).
     */
    method CreateTrainingSchedule(input: CreateTrainingScheduleInput, now: nat) returns (r: Result<TrainingSchedule>)
      requires Valid()
      modifies this`schedules, this`nextScheduleId
      ensures Valid()
      ensures nextScheduleId == old(nextScheduleId) + 1
      ensures input.programId !in Keys(programs, ProgramKey) ==>
                r == Err(ForeignKeyViolation(SchedulesTable, "program_id")) && schedules == old(schedules)
      ensures input.programId in Keys(programs, ProgramKey) ==>
                && r == Ok(TrainingSchedule(old(nextScheduleId), input.programId, input.sessionTitle,
                                            input.sessionDate, input.startTime, input.endTime,
                                            input.location, input.materials, now, now))
                && schedules == old(schedules) + [r.value]
    {
      var id := nextScheduleId;
      nextScheduleId := nextScheduleId + 1;
      if FindKey(programs, ProgramKey, input.programId).None? {
        return Err(ForeignKeyViolation(SchedulesTable, "program_id"));
      }
      var row := TrainingSchedule(id, input.programId, input.sessionTitle, input.sessionDate,
                                  input.startTime, input.endTime, input.location, input.materials,
                                  now, now);
      ScheduleAppended(schedules, id, Keys(programs, ProgramKey), row);
      schedules := schedules + [row];
      r := Ok(row);
    }

    // -------------------------------------------------------------------
    // Status updates
    // -------------------------------------------------------------------

    /**
     * `updateRegistrationStatus`: overwrite status and notes of the row with
     * the given id (a null `notes` erases the old notes) and stamp
     * `updatedAt`; an id that matches no row is "not found".
     */
    method UpdateRegistrationStatus(input: UpdateRegistrationStatusInput, now: nat) returns (r: Result<Registration>)
      requires Valid()
      modifies this`registrations
      ensures Valid()
      ensures |registrations| == |old(registrations)|
      ensures input.id !in Keys(old(registrations), RegistrationKey) ==>
                r == Err(NotFound(RegistrationsTable, input.id)) && registrations == old(registrations)
      ensures input.id in Keys(old(registrations), RegistrationKey) ==> r.Ok?
      ensures r.Ok? ==> forall i :: 0 <= i < |registrations| ==>
                registrations[i] == if old(registrations)[i].id == input.id
                                    then RegistrationAfterUpdate(old(registrations)[i], input, now)
                                    else old(registrations)[i]
      ensures r.Ok? ==> forall i :: 0 <= i < |old(registrations)| && old(registrations)[i].id == input.id ==>
                r.value == RegistrationAfterUpdate(old(registrations)[i], input, now)
    {
      var updated, first := UpdateWhere(registrations, (g: Registration) => g.id == input.id,
                                        (g: Registration) => RegistrationAfterUpdate(g, input, now));
      if first.None? {
        KeyAbsent(registrations, RegistrationKey, input.id);
        return Err(NotFound(RegistrationsTable, input.id));
      }
      RegistrationsUpdated(registrations, updated, nextRegistrationId, Keys(users, UserKey),
                           Keys(programs, ProgramKey), input, now);
      KeysUnique(registrations, RegistrationKey, nextRegistrationId);
      registrations := updated;
      r := Ok(first.value);
    }

    /**
     * `updatePaymentStatus`: set the status and `updatedAt`; each of payment
     * date, transaction id and notes is left alone when omitted, cleared by
     * an explicit null and overwritten by a value. Amount, method and
     * registration never change. An id that matches no row is "not found".
     */
    method UpdatePaymentStatus(input: UpdatePaymentStatusInput, now: nat) returns (r: Result<Payment>)
      requires Valid()
      modifies this`payments
      ensures Valid()
      ensures |payments| == |old(payments)|
      ensures input.id !in Keys(old(payments), PaymentKey) ==>
                r == Err(NotFound(PaymentsTable, input.id)) && payments == old(payments)
      ensures input.id in Keys(old(payments), PaymentKey) ==> r.Ok?
      ensures r.Ok? ==> forall i :: 0 <= i < |payments| ==>
                payments[i] == if old(payments)[i].id == input.id
                               then PaymentAfterUpdate(old(payments)[i], input, now)
                               else old(payments)[i]
      ensures r.Ok? ==> forall i :: 0 <= i < |old(payments)| && old(payments)[i].id == input.id ==>
                r.value == PaymentAfterUpdate(old(payments)[i], input, now)
    {
      var updated, first := UpdateWhere(payments, (p: Payment) => p.id == input.id,
                                        (p: Payment) => PaymentAfterUpdate(p, input, now));
      if first.None? {
        KeyAbsent(payments, PaymentKey, input.id);
        return Err(NotFound(PaymentsTable, input.id));
      }
      PaymentsUpdated(payments, updated, nextPaymentId, Keys(registrations, RegistrationKey), input, now);
      KeysUnique(payments, PaymentKey, nextPaymentId);
      payments := updated;
      r := Ok(first.value);
    }

    /** The verifier a verifying update would store names no user. */
    ghost predicate UnknownVerifier(input: UpdateDocumentStatusInput)
      reads this
    {
      && input.status == DocumentStatus.Verified
      && input.verifiedBy.Some?
      && input.verifiedBy.value !in Keys(users, UserKey)
    }

    /**
     * `updateDocumentStatus`: set status, notes and `updatedAt`; verifying
     * stamps the given verifier (possibly null) and the time, while
     * `pending` and `rejected` clear both, whatever verifier was sent. An id
     * that matches no row is "not found"; a verifier that names no user is
     * refused by the store.
     */
    method UpdateDocumentStatus(input: UpdateDocumentStatusInput, now: nat) returns (r: Result<Document>)
      requires Valid()
      modifies this`documents
      ensures Valid()
      ensures |documents| == |old(documents)|
      ensures input.id !in Keys(old(documents), DocumentKey) ==>
                r == Err(NotFound(DocumentsTable, input.id)) && documents == old(documents)
      ensures input.id in Keys(old(documents), DocumentKey) && UnknownVerifier(input) ==>
                r == Err(ForeignKeyViolation(DocumentsTable, "verified_by")) && documents == old(documents)
      ensures input.id in Keys(old(documents), DocumentKey) && !UnknownVerifier(input) ==> r.Ok?
      ensures r.Ok? ==> forall i :: 0 <= i < |documents| ==>
                documents[i] == if old(documents)[i].id == input.id
                                then DocumentAfterUpdate(old(documents)[i], input, now)
                                else old(documents)[i]
      ensures r.Ok? ==> forall i :: 0 <= i < |old(documents)| && old(documents)[i].id == input.id ==>
                r.value == DocumentAfterUpdate(old(documents)[i], input, now)
    {
      var updated, first := UpdateWhere(documents, (d: Document) => d.id == input.id,
                                        (d: Document) => DocumentAfterUpdate(d, input, now));
      if first.None? {
        KeyAbsent(documents, DocumentKey, input.id);
        return Err(NotFound(DocumentsTable, input.id));
      }
      if input.status == DocumentStatus.Verified && input.verifiedBy.Some?
         && FindKey(users, UserKey, input.verifiedBy.value).None? {
        return Err(ForeignKeyViolation(DocumentsTable, "verified_by"));
      }
      DocumentsUpdated(documents, updated, nextDocumentId, Keys(registrations, RegistrationKey),
                       Keys(users, UserKey), input, now);
      KeysUnique(documents, DocumentKey, nextDocumentId);
      documents := updated;
      r := Ok(first.value);
    }

  }

  // -------------------------------------------------------------------
  // The payment listing across the handlers that write payments
  // -------------------------------------------------------------------

  /**
   * `createPayment` followed by `getAllPayments`: a created payment is
   * listed last with exactly the amount sent, after the unchanged earlier
   * entries; a refused one leaves the listing as it was.
   */
  method CreatePaymentThenList(s: Store, input: CreatePaymentInput, now: nat)
    returns (r: Result<Payment>, listing: seq<Payment>)
    requires s.Valid()
    modifies s`payments, s`nextPaymentId
    ensures s.Valid()
    ensures r.Err? ==> listing == old(GetAllPayments(s.payments))
    ensures r.Ok? ==> && |listing| == |old(GetAllPayments(s.payments))| + 1
                      && (forall i :: 0 <= i < |listing| - 1 ==> listing[i] == old(GetAllPayments(s.payments))[i])
                      && listing[|listing| - 1] == r.value
                      && listing[|listing| - 1].amount == input.amount
                      && listing[|listing| - 1].paymentStatus == PaymentStatus.Pending
  {
    ghost var before := s.payments;
    r := s.CreatePayment(input, now);
    listing := GetAllPayments(s.payments);
    if r.Ok? {
      PaymentsListedAfterCreate(before, r.value);
    }
  }

  /**
   * `updatePaymentStatus` followed by `getAllPayments`: the same payments
   * are listed, in the same order, each with the id, registration, amount
   * and method it had before.
   */
  method UpdatePaymentThenList(s: Store, input: UpdatePaymentStatusInput, now: nat)
    returns (r: Result<Payment>, listing: seq<Payment>)
    requires s.Valid()
    modifies s`payments
    ensures s.Valid()
    ensures |listing| == |old(GetAllPayments(s.payments))|
    ensures forall i :: 0 <= i < |listing| ==>
              && listing[i].id == old(GetAllPayments(s.payments))[i].id
              && listing[i].registrationId == old(GetAllPayments(s.payments))[i].registrationId
              && listing[i].amount == old(GetAllPayments(s.payments))[i].amount
              && listing[i].paymentMethod == old(GetAllPayments(s.payments))[i].paymentMethod
  {
    ghost var before := s.payments;
    r := s.UpdatePaymentStatus(input, now);
    listing := GetAllPayments(s.payments);
    if r.Ok? {
      PaymentsListedAfterUpdate(before, s.payments, input, now);
    }
  }

}
