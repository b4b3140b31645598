/**
 * The request-validation layer: the status, method and role enumerations,
 * the input shapes each handler receives, and the constraints the input
 * schemas enforce before a handler is called.
 *
 * Money is an exact integer number of cents; timestamps are `nat`s.
 */
module Schema {
  import opened Nullable

  /** Shortest password a new user may choose. */
  const MinPasswordLength := 6

  // ---------------------------------------------------------------------
  // Enumerations and their wire names
  // ---------------------------------------------------------------------

  datatype RegistrationStatus = Pending | Verified | Rejected | Completed
  datatype PaymentStatus = Pending | Paid | Failed | Refunded
  datatype PaymentMethod = BankTransfer | CreditCard | EWallet | Cash
  datatype DocumentStatus = Pending | Verified | Rejected
  datatype UserRole = Student | Admin

  function RegistrationStatusName(s: RegistrationStatus): string {
    match s
    case Pending => "pending"
    case Verified => "verified"
    case Rejected => "rejected"
    case Completed => "completed"
  }

  function PaymentStatusName(s: PaymentStatus): string {
    match s
    case Pending => "pending"
    case Paid => "paid"
    case Failed => "failed"
    case Refunded => "refunded"
  }

  function PaymentMethodName(m: PaymentMethod): string {
    match m
    case BankTransfer => "bank_transfer"
    case CreditCard => "credit_card"
    case EWallet => "e_wallet"
    case Cash => "cash"
  }

  function DocumentStatusName(s: DocumentStatus): string {
    match s
    case Pending => "pending"
    case Verified => "verified"
    case Rejected => "rejected"
  }

  function UserRoleName(r: UserRole): string {
    match r
    case Student => "student"
    case Admin => "admin"
  }

  /** Accepts exactly the four registration status names. */
  function ParseRegistrationStatus(s: string): (r: Option<RegistrationStatus>)
    ensures r.Some? ==> RegistrationStatusName(r.value) == s
    ensures r.None? ==> forall st :: RegistrationStatusName(st) != s
  {
    if s == "pending" then Some(RegistrationStatus.Pending)
    else if s == "verified" then Some(RegistrationStatus.Verified)
    else if s == "rejected" then Some(RegistrationStatus.Rejected)
    else if s == "completed" then Some(RegistrationStatus.Completed)
    else None
  }

  /** Accepts exactly the four payment status names. */
  function ParsePaymentStatus(s: string): (r: Option<PaymentStatus>)
    ensures r.Some? ==> PaymentStatusName(r.value) == s
    ensures r.None? ==> forall st :: PaymentStatusName(st) != s
  {
    if s == "pending" then Some(PaymentStatus.Pending)
    else if s == "paid" then Some(PaymentStatus.Paid)
    else if s == "failed" then Some(PaymentStatus.Failed)
    else if s == "refunded" then Some(PaymentStatus.Refunded)
    else None
  }

  /** Accepts exactly the four payment method names. */
  function ParsePaymentMethod(s: string): (r: Option<PaymentMethod>)
    ensures r.Some? ==> PaymentMethodName(r.value) == s
    ensures r.None? ==> forall m :: PaymentMethodName(m) != s
  {
    if s == "bank_transfer" then Some(BankTransfer)
    else if s == "credit_card" then Some(CreditCard)
    else if s == "e_wallet" then Some(EWallet)
    else if s == "cash" then Some(Cash)
    else None
  }

  /** Accepts exactly the three document status names. */
  function ParseDocumentStatus(s: string): (r: Option<DocumentStatus>)
    ensures r.Some? ==> DocumentStatusName(r.value) == s
    ensures r.None? ==> forall st :: DocumentStatusName(st) != s
  {
    if s == "pending" then Some(DocumentStatus.Pending)
    else if s == "verified" then Some(DocumentStatus.Verified)
    else if s == "rejected" then Some(DocumentStatus.Rejected)
    else None
  }

  /** Accepts exactly the two role names. */
  function ParseUserRole(s: string): (r: Option<UserRole>)
    ensures r.Some? ==> UserRoleName(r.value) == s
    ensures r.None? ==> forall role :: UserRoleName(role) != s
  {
    if s == "student" then Some(Student)
    else if s == "admin" then Some(Admin)
    else None
  }

  /** Every status, method and role name reads back as the value it names. */
  lemma EnumNamesRoundTrip(rs: RegistrationStatus, ps: PaymentStatus, pm: PaymentMethod,
                           ds: DocumentStatus, role: UserRole)
    ensures ParseRegistrationStatus(RegistrationStatusName(rs)) == Some(rs)
    ensures ParsePaymentStatus(PaymentStatusName(ps)) == Some(ps)
    ensures ParsePaymentMethod(PaymentMethodName(pm)) == Some(pm)
    ensures ParseDocumentStatus(DocumentStatusName(ds)) == Some(ds)
    ensures ParseUserRole(UserRoleName(role)) == Some(role)
  {
  }

  /** A registration may be `completed`; a document may not. */
  lemma CompletedIsNoDocumentStatus()
    ensures ParseRegistrationStatus("completed") == Some(RegistrationStatus.Completed)
    ensures ParseDocumentStatus("completed") == None
  {
  }

  // ---------------------------------------------------------------------
  // Inputs of the create handlers
  // ---------------------------------------------------------------------

  /** A user as the client sends it; `role` may be left out. */
  datatype UserRequest = UserRequest(
    email: string, password: string, fullName: string, phone: string,
    address: Option<string>, role: Option<UserRole>)

  datatype CreateUserInput = CreateUserInput(
    email: string, password: string, fullName: string, phone: string,
    address: Option<string>, role: UserRole)

  /** A training program as the client sends it; `isActive` may be left out. */
  datatype ProgramRequest = ProgramRequest(
    name: string, description: string, durationHours: int, price: int,
    maxParticipants: int, startDate: nat, endDate: nat, isActive: Option<bool>)

  datatype CreateTrainingProgramInput = CreateTrainingProgramInput(
    name: string, description: string, durationHours: int, price: int,
    maxParticipants: int, startDate: nat, endDate: nat, isActive: bool)

  datatype CreateRegistrationInput = CreateRegistrationInput(
    userId: int, programId: int, notes: Option<string>)

  /** A payment as the client sends it, before the amount is checked. */
  datatype PaymentRequest = PaymentRequest(
    registrationId: int, amount: int, paymentMethod: PaymentMethod,
    transactionId: Option<string>, notes: Option<string>)

  datatype CreatePaymentInput = CreatePaymentInput(
    registrationId: int, amount: int, paymentMethod: PaymentMethod,
    transactionId: Option<string>, notes: Option<string>)

  datatype CreateDocumentInput = CreateDocumentInput(
    registrationId: int, documentType: string, filePath: string, fileName: string)

  datatype CreateTrainingScheduleInput = CreateTrainingScheduleInput(
    programId: int, sessionTitle: string, sessionDate: nat, startTime: string,
    endTime: string, location: Option<string>, materials: Option<string>)

  // ---------------------------------------------------------------------
  // Inputs of the update handlers
  // ---------------------------------------------------------------------

  /**
   * A field of a partial update: left out (JavaScript `undefined`),
   * explicitly `null`, or a value.
   */
  datatype Field<T> = Omitted | Null | Value(value: T)

  datatype UpdateRegistrationStatusInput = UpdateRegistrationStatusInput(
    id: int, status: RegistrationStatus, notes: Option<string>)

  datatype UpdatePaymentStatusInput = UpdatePaymentStatusInput(
    id: int, paymentStatus: PaymentStatus, paymentDate: Field<nat>,
    transactionId: Field<string>, notes: Field<string>)

  /** `verifiedBy` is nullable whatever the status. */
  datatype UpdateDocumentStatusInput = UpdateDocumentStatusInput(
    id: int, status: DocumentStatus, verifiedBy: Option<int>, notes: Option<string>)

  // ---------------------------------------------------------------------
  // The constraints of the create-input schemas
  // ---------------------------------------------------------------------

  /**
   * The length of `s` as JavaScript counts it: in UTF-16 code units, where
   * a character outside the Basic Multilingual Plane takes two.
   */
  function Utf16Length(s: string): (n: nat)
    ensures |s| <= n <= 2 * |s|
    ensures (forall i :: 0 <= i < |s| ==> (s[i] as int) < 0x1_0000) ==> n == |s|
  {
    if |s| == 0 then 0
    else (if (s[0] as int) < 0x1_0000 then 1 else 2) + Utf16Length(s[1..])
  }


  /**
   * The user schema: the password needs at least six UTF-16 code units and
   * a missing role becomes `student`; every other field passes unchanged.
   */
  function ParseCreateUserInput(req: UserRequest): (r: Option<CreateUserInput>)
    ensures r.Some? <==> Utf16Length(req.password) >= MinPasswordLength
    ensures r.Some? ==> && r.value.email == req.email && r.value.password == req.password
                        && r.value.fullName == req.fullName && r.value.phone == req.phone
                        && r.value.address == req.address
    ensures r.Some? && req.role.None? ==> r.value.role == UserRole.Student
    ensures r.Some? && req.role.Some? ==> r.value.role == req.role.value
  {
    if Utf16Length(req.password) < MinPasswordLength then None
    else
      var role := match req.role
        case None => UserRole.Student
        case Some(given) => given;
      Some(CreateUserInput(req.email, req.password, req.fullName, req.phone, req.address, role))
  }

  /**
   * The program schema: a positive whole number of hours, a price that is
   * not negative (zero is accepted) and a positive capacity; a missing
   * `isActive` becomes true.
   */
  function ParseCreateProgramInput(req: ProgramRequest): (r: Option<CreateTrainingProgramInput>)
    ensures r.Some? <==> req.durationHours > 0 && req.price >= 0 && req.maxParticipants > 0
    ensures r.Some? ==> && r.value.name == req.name && r.value.description == req.description
                        && r.value.durationHours == req.durationHours && r.value.price == req.price
                        && r.value.maxParticipants == req.maxParticipants
                        && r.value.startDate == req.startDate && r.value.endDate == req.endDate
    ensures r.Some? && req.isActive.None? ==> r.value.isActive
    ensures r.Some? && req.isActive.Some? ==> r.value.isActive == req.isActive.value
  {
    if req.durationHours <= 0 || req.price < 0 || req.maxParticipants <= 0 then None
    else
      var active := match req.isActive
        case None => true
        case Some(given) => given;
      Some(CreateTrainingProgramInput(req.name, req.description, req.durationHours, req.price,
                                      req.maxParticipants, req.startDate, req.endDate, active))
  }

  /**
   * Three characters beyond the Basic Multilingual Plane count as six code
   * units, so they make an acceptable password.
   */
  lemma {:induction false} AstralPasswordAccepted(email: string, fullName: string, phone: string)
    ensures Utf16Length("\U{1F600}\U{1F600}\U{1F600}") == MinPasswordLength
    ensures ParseCreateUserInput(UserRequest(email, "\U{1F600}\U{1F600}\U{1F600}", fullName, phone,
                                             None, None)).Some?
  {
    var s := "\U{1F600}\U{1F600}\U{1F600}";
    assert s[1..][1..][1..] == [];
  }

  /** The payment schema: the amount must be strictly positive. */
  function ParseCreatePaymentInput(req: PaymentRequest): (r: Option<CreatePaymentInput>)
    ensures r.Some? <==> req.amount > 0
    ensures r.Some? ==> && r.value.registrationId == req.registrationId
                        && r.value.amount == req.amount
                        && r.value.paymentMethod == req.paymentMethod
                        && r.value.transactionId == req.transactionId
                        && r.value.notes == req.notes
  {
    if req.amount <= 0 then None
    else Some(CreatePaymentInput(req.registrationId, req.amount, req.paymentMethod,
                                 req.transactionId, req.notes))
  }

}
