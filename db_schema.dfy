/**
 * The six stored tables: the shape of one row of each, the key each is
 * indexed by, and the range of the two exact-decimal money columns.
 */
module DbSchema {
  import opened Nullable
  import opened Schema

  /**
   * The money columns are `numeric(10, 2)`: at most ten digits, two of them
   * after the decimal point, so a stored value in cents lies strictly
   * between -10^10 and 10^10.
   */
  const NumericBound := 10_000_000_000

  predicate FitsNumeric(cents: int) {
    -NumericBound < cents < NumericBound
  }

  datatype User = User(
    id: int, email: string, password: string, fullName: string, phone: string,
    address: Option<string>, role: UserRole, createdAt: nat, updatedAt: nat)

  datatype TrainingProgram = TrainingProgram(
    id: int, name: string, description: string, durationHours: int, price: int,
    maxParticipants: int, startDate: nat, endDate: nat, isActive: bool,
    createdAt: nat, updatedAt: nat)

  datatype Registration = Registration(
    id: int, userId: int, programId: int, status: RegistrationStatus,
    registrationDate: nat, notes: Option<string>, createdAt: nat, updatedAt: nat)

  datatype Payment = Payment(
    id: int, registrationId: int, amount: int, paymentMethod: PaymentMethod,
    paymentStatus: PaymentStatus, paymentDate: Option<nat>, transactionId: Option<string>,
    notes: Option<string>, createdAt: nat, updatedAt: nat)

  datatype Document = Document(
    id: int, registrationId: int, documentType: string, filePath: string, fileName: string,
    status: DocumentStatus, verifiedBy: Option<int>, verifiedAt: Option<nat>,
    notes: Option<string>, createdAt: nat, updatedAt: nat)

  datatype TrainingSchedule = TrainingSchedule(
    id: int, programId: int, sessionTitle: string, sessionDate: nat, startTime: string,
    endTime: string, location: Option<string>, materials: Option<string>,
    createdAt: nat, updatedAt: nat)

  // The primary key of each table.
  function UserKey(u: User): int { u.id }
  function ProgramKey(p: TrainingProgram): int { p.id }
  function RegistrationKey(r: Registration): int { r.id }
  function PaymentKey(p: Payment): int { p.id }
  function DocumentKey(d: Document): int { d.id }
  function ScheduleKey(s: TrainingSchedule): int { s.id }

  // The foreign-key columns, each read as the key it references.
  function RegistrationUser(g: Registration): int { g.userId }
  function RegistrationProgram(g: Registration): int { g.programId }
  function PaymentRegistration(p: Payment): int { p.registrationId }
  function DocumentRegistration(d: Document): int { d.registrationId }
  function DocumentVerifier(d: Document): Option<int> { d.verifiedBy }
  function ScheduleProgram(s: TrainingSchedule): int { s.programId }

  // The money columns hold only values that fit `numeric(10, 2)`.
  predicate PriceFits(p: TrainingProgram) { FitsNumeric(p.price) }
  predicate AmountFits(p: Payment) { FitsNumeric(p.amount) }

}
