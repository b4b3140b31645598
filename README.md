# Online training enrolment — a Dafny model of the server core

The server behind an online enrolment site for training programs. Students
register for a program, pay for the registration and upload supporting
documents. Administrators verify or reject registrations, payments and
documents. The server keeps six tables:
- users;
- training programs;
- registrations, each of a user for a program;
- payments and documents, each belonging to a registration;
- training schedules, the sessions of a program.

Every request handler runs one or two short queries against these tables.
Two handlers, `createPayment` and `createDocument`, first look up the
parent registration and only then insert. Every other handler is a single
query.

The model has eight modules:

- `Nullable` (`nullable.dfy`) holds the `Option` type that stands for a
  nullable column or a lookup that may find nothing.
- `Schema` (`schema.dfy`) holds the request-validation layer.
  - The status, payment-method and role enumerations, with their wire names.
  - The input shapes.
  - The checks the input schemas make before a handler runs: a positive
    amount, a non-negative price, a positive duration and capacity, a
    minimum password length, and the defaults for role and `is_active`.
- `DbSchema` (`db_schema.dfy`) holds the row shape of each table and the
  key and foreign-key columns. It also holds the range of the
  `numeric(10, 2)` money columns. Money is an exact integer number of cents.
- `Rows` (`rows.dfy`) holds generic table operations:
  - the key set;
  - serial (auto-increment) keys;
  - lookup by key;
  - the `WHERE` filter of a `SELECT`;
  - the loop of an `UPDATE ... WHERE ... RETURNING`.
- `StatusUpdates` (`status_updates.dfy`) says what each status update does
  to the row it targets:
  - the full overwrite of a registration;
  - the omit/null/value partial update of a payment;
  - the verification rule of a document.
- `Tables` (`tables.dfy`) states the invariant of each table: serial ids,
  foreign keys, the unique e-mail, the money range and the document
  verification rule. It proves that every insert and every update keeps
  that invariant.
- `Queries` (`queries.dfy`) models the read handlers as functions of the
  tables.
- `Enrolment` (`enrolment.dfy`) is the store: a class with the six tables
  and their serial counters. Each create and update handler is a method
  that keeps `Valid()` and states its whole new state.

The store follows PostgreSQL semantics for ids. A serial value is drawn
when the store evaluates the row's id default. The row's foreign keys and
unique e-mail are checked only after that, so an insert refused for either
reason has still used up an id. A check a handler makes itself, before it
reaches the store, draws no id. A price or amount outside `numeric(10, 2)`
draws no id either. It arrives as a bound parameter, and its conversion
fails while the statement is planned, before any default is evaluated.

One might expect a verified document to always carry both `verified_by`
and `verified_at`. It need not. The handler copies whatever `verified_by`
the caller sent (server/src/handlers/update_document_status.ts:18), and the
input schema allows null there (server/src/schema.ts:192). The invariant
the model proves is therefore: a document has a verification time exactly
when it is verified, and a verifier only when it is verified.
`StatusUpdates.VerifiedWithoutVerifier` shows a verified document with no
verifier.

## Model

| member | source | states |
|---|---|---|
| Schema.ParseRegistrationStatus | server/src/schema.ts:5 | accepts exactly the four registration status names, each as the status it names |
| Schema.ParsePaymentStatus | server/src/schema.ts:6 | accepts exactly pending/paid/failed/refunded |
| Schema.ParsePaymentMethod | server/src/schema.ts:7 | accepts exactly the four payment method names |
| Schema.ParseDocumentStatus | server/src/schema.ts:8 | accepts exactly pending/verified/rejected |
| Schema.ParseUserRole | server/src/schema.ts:9 | accepts exactly student/admin |
| Schema.EnumNamesRoundTrip | server/src/schema.ts:5-9 | every enumeration value's name parses back to that value |
| Schema.CompletedIsNoDocumentStatus | server/src/schema.ts:5-8 | `completed` is a registration status but not a document status |
| Schema.Utf16Length | server/src/schema.ts:109 | a string's length in UTF-16 code units, as JavaScript counts it: between its number of characters and twice that, and equal to it when no character lies beyond the Basic Multilingual Plane |
| Schema.ParseCreateUserInput | server/src/schema.ts:107-114 | accepted iff the password has at least 6 UTF-16 code units; fields copied; a missing role becomes student |
| Schema.AstralPasswordAccepted | server/src/schema.ts:109 | three characters beyond the Basic Multilingual Plane count as six code units and make an acceptable password |
| Schema.ParseCreateProgramInput | server/src/schema.ts:118-127 | accepted iff duration and capacity are positive and the price is not negative (zero accepted); a missing is_active becomes true |
| Schema.ParseCreatePaymentInput | server/src/schema.ts:139-145 | accepted iff the amount is strictly positive; fields copied |
| Rows.FindKey | server/src/handlers/create_payment.ts:10-15 | finds a row with the key exactly when the key is in the table's key set, and reports its position |
| Rows.Filter | server/src/handlers/get_pending_documents.ts:9-12 | a row is in the result iff it is in the table and passes the condition |
| Rows.FilterAppend | server/src/handlers/get_training_schedule.ts:9-12 | filtering keeps insertion order: it distributes over concatenation |
| Rows.FilterKeepsAll | server/src/handlers/get_all_registrations.ts:21-23 | a condition every row passes returns the table unchanged |
| Rows.UpdateWhere | server/src/handlers/update_registration_status.ts:10-18 | every matching row is replaced by its update and every other row kept; nothing is returned iff no row matches, else the update of a matching row |
| StatusUpdates.RegistrationAfterUpdate | server/src/handlers/update_registration_status.ts:11-15 | status and notes come from the input (null notes erase), updatedAt is now; id, user, program, registration date and createdAt are kept |
| StatusUpdates.AnyRegistrationStatusReachable | server/src/handlers/update_registration_status.ts:12 | no transition table: every status can be set from every registration |
| StatusUpdates.PaymentAfterUpdate | server/src/handlers/update_payment_status.ts:10-24 | status and updatedAt set; each of date, transaction id and notes is kept when omitted, cleared by null and overwritten by a value; amount, method and registration kept |
| StatusUpdates.PaymentUpdatesCompose | server/src/handlers/update_payment_status.ts:16-24 | two partial updates equal one update in which the later update's provided fields win |
| StatusUpdates.PaidWithoutPaymentDate | server/src/handlers/update_payment_status.ts:10-24 | a payment can become paid while its payment date stays null |
| StatusUpdates.DocumentAfterUpdate | server/src/handlers/update_document_status.ts:10-23 | verifying stamps the caller's verifier and now; pending or rejected clear both; status and notes overwritten; the document's own columns kept |
| StatusUpdates.DocumentUpdateConsistent | server/src/handlers/update_document_status.ts:17-23 | every update leaves the document satisfying the verification rule |
| StatusUpdates.DocumentUpdateIdempotent | server/src/handlers/update_document_status.ts:10-23 | repeating an update equals the later update alone; for pending/rejected it changes only updatedAt |
| StatusUpdates.VerifiedWithoutVerifier | server/src/schema.ts:189-194 | a document can be verified with a null verifier |
| Tables.UserAppended | server/src/db/schema.ts:13-23 | a user with the next id and an e-mail nobody has keeps the users invariant and adds exactly its id to the key set |
| Tables.ProgramAppended | server/src/db/schema.ts:26-38 | a program with the next id and a price in range keeps the programs invariant and adds exactly its id |
| Tables.RegistrationAppended | server/src/db/schema.ts:41-50 | a registration with the next id, an existing user and an existing program keeps the invariant and adds exactly its id |
| Tables.PaymentAppended | server/src/db/schema.ts:53-64 | a payment with the next id, an existing registration and an amount in range keeps the payments invariant |
| Tables.DocumentAppended | server/src/db/schema.ts:67-79 | a document with the next id, an existing registration and no verification keeps the documents invariant |
| Tables.ScheduleAppended | server/src/db/schema.ts:82-93 | a session with the next id and an existing program keeps the schedules invariant |
| Tables.RegistrationsWiden | server/src/db/schema.ts:43-44 | more users or programs never break a registration's foreign keys |
| Tables.PaymentsWiden | server/src/db/schema.ts:55 | more registrations never break a payment's foreign key |
| Tables.DocumentsWiden | server/src/db/schema.ts:69-74 | more registrations or users never break a document's foreign keys |
| Tables.SchedulesWiden | server/src/db/schema.ts:84 | more programs never break a session's foreign key |
| Tables.RegistrationsUpdated | server/src/handlers/update_registration_status.ts:10-18 | a status update keeps the registrations invariant and the set of registration ids |
| Tables.PaymentsUpdated | server/src/handlers/update_payment_status.ts:27-31 | a status update keeps the payments invariant (amounts never change) |
| Tables.DocumentsUpdated | server/src/handlers/update_document_status.ts:26-30 | a status update whose verifier is a known user keeps the documents invariant, verification rule included |
| Tables.NextKeyFresh | server/src/db/schema.ts:14 | the next serial value is above every stored id, so each insert gets a fresh id |
| Queries.GetPendingDocuments | server/src/handlers/get_pending_documents.ts:7-26 | exactly the stored documents whose status is pending, unchanged |
| Queries.GetUserRegistrations | server/src/handlers/get_user_registrations.ts:7-19 | exactly the registrations of the given user |
| Queries.GetTrainingPrograms | server/src/handlers/get_training_programs.ts:7-24 | exactly the active programs, with their stored price |
| Queries.GetTrainingSchedule | server/src/handlers/get_training_schedule.ts:7-19 | exactly the sessions of the given program |
| Queries.GetAllRegistrations | server/src/handlers/get_all_registrations.ts:7-31 | exactly the registrations whose user and program both exist, with their own columns |
| Queries.GetAllPayments | server/src/handlers/get_all_payments.ts:6-21 | the stored payments, in stored order, each with its exact amount; what the listing promises across writes is stated by Queries.PaymentsListedAfterCreate, Queries.PaymentsListedAfterUpdate, Enrolment.CreatePaymentThenList and Enrolment.UpdatePaymentThenList |
| Queries.PaymentsListedAfterCreate | server/src/handlers/get_all_payments.ts:6-21 | a created payment is listed last, exactly as stored, after the unchanged earlier entries |
| Queries.PaymentsListedAfterUpdate | server/src/handlers/get_all_payments.ts:6-21 | after a payment status update the listing has the same length and every entry keeps its id, registration, amount and method |
| Queries.AllRegistrationsJoined | server/src/handlers/get_all_registrations.ts:21-23 | when every registration's user and program exist, the join returns every registration in order |
| Queries.PendingDocumentsAfterInsert | server/src/handlers/get_pending_documents.ts:9-12 | a new document is appended to the pending list iff it is pending |
| Queries.UserRegistrationsAfterInsert | server/src/handlers/get_user_registrations.ts:9-12 | a new registration is appended to its user's list, and only to it |
| Queries.TrainingProgramsAfterInsert | server/src/handlers/get_training_programs.ts:10-13 | a new program is appended to the catalogue iff it is active |
| Queries.TrainingScheduleAfterInsert | server/src/handlers/get_training_schedule.ts:9-12 | a new session is appended, in insertion order, to its program's schedule only |
| Enrolment.Store.constructor | server/src/db/schema.ts:13-93 | an empty store whose serial sequences start at 1 satisfies the invariant |
| Enrolment.Store.InsertUser | server/src/db/schema.ts:13-23 | draws an id; an e-mail already taken is a unique violation with no row added; otherwise the user is appended with that id |
| Enrolment.Store.CreateTrainingProgram | server/src/handlers/create_training_program.ts:6-33 | a price outside numeric(10,2) is refused with no id drawn; otherwise an id is drawn and a copy of the input is appended with its exact price |
| Enrolment.Store.CreateRegistration | server/src/handlers/create_registration.ts:6-24 | draws an id; an unknown user, then an unknown program, is a foreign-key violation; otherwise a pending registration dated now is appended |
| Enrolment.Store.CreatePayment | server/src/handlers/create_payment.ts:7-43 | an unknown registration is "Registration not found" and an amount outside numeric(10,2) a numeric overflow, both with no id drawn; otherwise a pending payment with a null date and the exact amount is appended |
| Enrolment.Store.CreateDocument | server/src/handlers/create_document.ts:7-39 | an unknown registration is "Registration with ID N not found"; otherwise a pending document with null verifier, time and notes is appended |
| Enrolment.Store.CreateTrainingSchedule | server/src/handlers/create_training_schedule.ts:6-28 | draws an id; an unknown program is a foreign-key violation; otherwise a copy of the input is appended |
| Enrolment.Store.UpdateRegistrationStatus | server/src/handlers/update_registration_status.ts:7-29 | an unknown id is not found with nothing changed; otherwise exactly the row with that id is overwritten and returned |
| Enrolment.Store.UpdatePaymentStatus | server/src/handlers/update_payment_status.ts:7-47 | an unknown id is not found with nothing changed; otherwise exactly the row with that id gets the partial update and is returned |
| Enrolment.Store.UpdateDocumentStatus | server/src/handlers/update_document_status.ts:7-41 | an unknown id is not found; a verifier naming no user is a foreign-key violation; otherwise exactly the row with that id is updated by the verification rule and returned |
| Enrolment.CreatePaymentThenList | server/src/handlers/get_all_payments.ts:6-21 | creating a payment and then listing all payments shows the new payment last with exactly the amount sent and status pending, the earlier entries unchanged; a refused payment leaves the listing as it was |
| Enrolment.UpdatePaymentThenList | server/src/handlers/update_payment_status.ts:27-31 | updating a payment's status and then listing all payments shows the same payments in the same order, each with the id, registration, amount and method it had before |

## Left out

- The React client, the tRPC/HTTP transport, logging and the test fixtures
  are not modelled. The read and write handlers are modelled directly.
- Drizzle and PostgreSQL are replaced by in-memory tables. Only the
  constraints the handlers rely on are modelled: serial keys, foreign
  keys, the unique e-mail and the `numeric(10, 2)` range. Rows stay in
  insertion order, and every `SELECT` returns them in that order. The
  server's queries have no `ORDER BY`, so the database promises no order.
- Money is exact integer cents. The `toString`/`parseFloat` round trip
  through floating point is not modelled. Neither is the rounding of
  amounts with more than two decimals.
- Times are a `now` parameter and stored times are naturals. The model
  does not assume a clock that only moves forward. One `now` stands for
  every clock read in a request. `updateDocumentStatus` reads the clock
  twice, for `verified_at` and for `updated_at`
  (server/src/handlers/update_document_status.ts:13 and :19). A document
  verified in the model therefore always has `verifiedAt == updatedAt`,
  which the source does not promise. The `defaultNow()` columns
  (server/src/db/schema.ts:21-22, 46) read the database's clock, not the
  handler's; the model uses the same `now` for them too.
- StatusUpdates.RegistrationAfterUpdate: states that `updatedAt` becomes
  `now`, not that it grows, because no forward-moving clock is modelled.
- Ids and integer columns are unbounded. PostgreSQL `integer`/`serial`
  overflow above 2^31 - 1 is not modelled.
- Concurrency is not modelled. In particular, the gap between the
  existence check in `createPayment`/`createDocument` and the insert that
  follows it is not.
- Authorization is not modelled. The server checks none, so any caller
  may change any status.
- Schema.ParseCreateUserInput does not check the e-mail format that
  `z.string().email()` checks. Only the password length and the role
  default are modelled.
- Schema.ParseCreateProgramInput and the other parsers do not reject
  non-integer numbers. Inputs are integers (or cents) by construction.
- The `createUser` handler is not part of this model. Enrolment.Store.InsertUser
  models the insert into the users table that it relies on.
- Enrolment.Store.CreateTrainingProgram: draws no id when the price
  overflows `numeric(10, 2)`. That is what happens when the statement is
  planned with its parameter values. A cached generic plan of a prepared
  statement would draw the id first. The model does not capture that case.
- Enrolment.Store.CreatePayment: draws no id when the amount overflows
  `numeric(10, 2)`, for the same reason. The generic-plan case, which would
  draw one, is not modelled.
- Queries.GetAllPayments: the `parseFloat` of each amount
  (server/src/handlers/get_all_payments.ts:13-16) is left out, because
  amounts are exact cents throughout. The function is therefore the
  identity on the payments table.
- Errors are variants of `Enrolment.Error`, not message strings. The ids
  and column names the messages carry are kept.
- `Field.Omitted` in an `UpdatePaymentStatusInput` models an absent
  (`undefined`) property. The handler handles it, but the update schema
  marks the three fields nullable, not optional.
