/** Validation of a submitted order. The serializer exposes every column of the
    order, so a payload is accepted exactly when each submitted value meets its
    column's declaration; a column left out of the payload takes its default. */
module OrderSerializer {

  import opened Wrappers
  import opened Text
  import opened Roles
  import opened Accounts
  import opened Orders
  import Money

  /** One submitted value: the key is absent, its value is JSON `null`, or a value is given. */
  datatype Input<+T> = Omitted | Null | Given(value: T)

  /** The writable columns of an order as they arrive in a request body; `id` and
      `created_at` are read-only and ignored. */
  datatype OrderPayload = OrderPayload(
    clientName: Input<string>,
    clientPhone: Input<string>,
    description: Input<string>,
    address: Input<string>,
    status: Input<string>,
    isTest: Input<bool>,
    operator: Input<nat>,
    curator: Input<nat>,
    assignedMaster: Input<nat>,
    estimatedCost: Input<Money.Decimal>,
    finalCost: Input<Money.Decimal>,
    expenses: Input<Money.Decimal>)

  datatype Field =
    | ClientName | ClientPhone | Description | Address | StatusField | IsTest
    | OperatorField | CuratorField | AssignedMasterField | EstimatedCost | FinalCost | Expenses

  datatype FieldError =
    | Required
    | NullNotAllowed
    | Blank
    | TooLong(maxLength: nat)
    | InvalidChoice(input: string)
    | DoesNotExist(pk: nat)
    | Precision(bound: Money.PrecisionError)

  type Errors = map<Field, FieldError>

  const ClientNameMaxLength: nat := 255
  const ClientPhoneMaxLength: nat := 20
  const AddressMaxLength: nat := 255

  /** A required text column: present, not null, not blank once trimmed, and within
      `maxLength` (if any) once trimmed. The trimmed text is what is kept. */
  function CleanText(x: Input<string>, maxLength: Option<nat>): (r: Result<string, FieldError>)
    ensures r.Ok? <==> x.Given? && !IsBlank(x.value) && (maxLength.Some? ==> |Strip(x.value)| <= maxLength.value)
    ensures r.Ok? ==> r.value == Strip(x.value) && r.value != []
    ensures x.Omitted? ==> r == Err(Required)
    ensures x.Null? ==> r == Err(NullNotAllowed)
    ensures x.Given? && IsBlank(x.value) ==> r == Err(Blank)
    ensures x.Given? && !IsBlank(x.value) && maxLength.Some? && |Strip(x.value)| > maxLength.value ==>
      r == Err(TooLong(maxLength.value))
  {
    match x
    case Omitted => Err(Required)
    case Null => Err(NullNotAllowed)
    case Given(s) =>
      var t := Strip(s);
      StripEmptyIffBlank(s);
      if t == [] then Err(Blank)
      else if maxLength.Some? && |t| > maxLength.value then Err(TooLong(maxLength.value))
      else Ok(t)
  }

  /** The address: optional, nullable, blank allowed, at most 255 characters once trimmed. */
  function CleanAddress(x: Input<string>): (r: Result<Option<string>, FieldError>)
    ensures r.Ok? <==> (x.Given? ==> |Strip(x.value)| <= AddressMaxLength)
    ensures r.Ok? ==> r.value == (if x.Given? then Some(Strip(x.value)) else None)
    ensures r.Err? ==> r.error == TooLong(AddressMaxLength)
  {
    match x
    case Omitted => Ok(None)
    case Null => Ok(None)
    case Given(s) =>
      var t := Strip(s);
      if |t| > AddressMaxLength then Err(TooLong(AddressMaxLength)) else Ok(Some(t))
  }

  /** The status: optional (default `новый`), not null, exactly one of the choice keys. */
  function CleanStatus(x: Input<string>): (r: Result<Status, FieldError>)
    ensures r.Ok? <==> x != Null && (x.Given? ==> exists st :: StatusKey(st) == x.value)
    ensures r.Ok? ==> (if x.Given? then StatusKey(r.value) == x.value else r.value == DefaultStatus)
    ensures x.Null? ==> r == Err(NullNotAllowed)
    ensures x.Given? && r.Err? ==> r.error == InvalidChoice(x.value)
  {
    match x
    case Omitted => Ok(DefaultStatus)
    case Null => Err(NullNotAllowed)
    case Given(s) =>
      match ParseStatus(s)
      case Some(st) => Ok(st)
      case None => Err(InvalidChoice(s))
  }

  /** The test flag: optional (default false), not null. */
  function CleanIsTest(x: Input<bool>): (r: Result<bool, FieldError>)
    ensures r.Ok? <==> x != Null
    ensures r.Ok? ==> r.value == (x.Given? && x.value)
    ensures r.Err? ==> r.error == NullNotAllowed
  {
    match x
    case Omitted => Ok(false)
    case Null => Err(NullNotAllowed)
    case Given(b) => Ok(b)
  }

  /** A user reference: optional and nullable; a given id must name a stored user with
      the role the column is limited to. */
  function CleanUserRef(users: UserTable, x: Input<nat>, role: Role): (r: Result<Option<nat>, FieldError>)
    ensures r.Ok? <==> (x.Given? ==> x.value in users && users[x.value].role == Key(role))
    ensures r.Ok? ==> r.value == (if x.Given? then Some(x.value) else None)
    ensures r.Err? ==> x.Given? && r.error == DoesNotExist(x.value)
  {
    match x
    case Omitted => Ok(None)
    case Null => Ok(None)
    case Given(id) =>
      if id in users && users[id].role == Key(role) then Ok(Some(id)) else Err(DoesNotExist(id))
  }

  /** An amount: optional and nullable; a given decimal must fit the precision, and is
      kept in cents. */
  function CleanAmount(x: Input<Money.Decimal>): (r: Result<Option<int>, FieldError>)
    ensures r.Ok? <==> (x.Given? ==> Money.Fits(x.value))
    ensures r.Ok? && x.Given? ==> x.value.exponent >= -2 && r.value == Some(Money.Cents(x.value))
    ensures r.Ok? && !x.Given? ==> r.value.None?
    ensures r.Ok? && r.value.Some? ==> -Money.Pow10(Money.MaxDigits) < r.value.value < Money.Pow10(Money.MaxDigits)
    ensures r.Err? ==> x.Given? && exists e :: Money.CheckPrecision(x.value) == Some(e) && r.error == Precision(e)
  {
    match x
    case Omitted => Ok(None)
    case Null => Ok(None)
    case Given(d) =>
      match Money.CheckPrecision(d)
      case Some(e) => Err(Precision(e))
      case None =>
        Money.CentsBound(d);
        Ok(Some(Money.Cents(d)))
  }

  function ErrorOf<T>(r: Result<T, FieldError>): Option<FieldError> {
    if r.Err? then Some(r.error) else None
  }

  /** The error one field's validator reports, if any. */
  function Check(users: UserTable, p: OrderPayload, f: Field): Option<FieldError> {
    match f
    case ClientName => ErrorOf(CleanText(p.clientName, Some(ClientNameMaxLength)))
    case ClientPhone => ErrorOf(CleanText(p.clientPhone, Some(ClientPhoneMaxLength)))
    case Description => ErrorOf(CleanText(p.description, None))
    case Address => ErrorOf(CleanAddress(p.address))
    case StatusField => ErrorOf(CleanStatus(p.status))
    case IsTest => ErrorOf(CleanIsTest(p.isTest))
    case OperatorField => ErrorOf(CleanUserRef(users, p.operator, Operator))
    case CuratorField => ErrorOf(CleanUserRef(users, p.curator, Curator))
    case AssignedMasterField => ErrorOf(CleanUserRef(users, p.assignedMaster, Master))
    case EstimatedCost => ErrorOf(CleanAmount(p.estimatedCost))
    case FinalCost => ErrorOf(CleanAmount(p.finalCost))
    case Expenses => ErrorOf(CleanAmount(p.expenses))
  }

  const AllFields: set<Field> :=
    {ClientName, ClientPhone, Description, Address, StatusField, IsTest,
     OperatorField, CuratorField, AssignedMasterField, EstimatedCost, FinalCost, Expenses}

  /** Every field's error, keyed by field. */
  function FieldErrors(users: UserTable, p: OrderPayload): Errors {
    map f | f in AllFields && Check(users, p, f).Some? :: Check(users, p, f).value
  }

  /** A text value that is present and, once trimmed, non-empty and within `maxLength`. */
  predicate TextValid(x: Input<string>, maxLength: nat) {
    x.Given? && !IsBlank(x.value) && |Strip(x.value)| <= maxLength
  }

  predicate RefValid(users: UserTable, x: Input<nat>, roleKey: string) {
    x.Given? ==> x.value in users && users[x.value].role == roleKey
  }

  predicate AmountValid(x: Input<Money.Decimal>) {
    x.Given? ==>
      && Money.TotalDigits(x.value) <= 10
      && Money.Places(x.value) <= 2
      && Money.WholeDigits(x.value) <= 8
  }

  /** The column declarations, field by field, stated without the validator. */
  predicate FieldValid(users: UserTable, p: OrderPayload, f: Field) {
    match f
    case ClientName => TextValid(p.clientName, 255)
    case ClientPhone => TextValid(p.clientPhone, 20)
    case Description => p.description.Given? && !IsBlank(p.description.value)
    case Address => p.address.Given? ==> |Strip(p.address.value)| <= 255
    case StatusField =>
      p.status != Null && (p.status.Given? ==> exists s :: StatusKey(s) == p.status.value)
    case IsTest => p.isTest != Null
    case OperatorField => RefValid(users, p.operator, "operator")
    case CuratorField => RefValid(users, p.curator, "curator")
    case AssignedMasterField => RefValid(users, p.assignedMaster, "master")
    case EstimatedCost => AmountValid(p.estimatedCost)
    case FinalCost => AmountValid(p.finalCost)
    case Expenses => AmountValid(p.expenses)
  }

  predicate PayloadValid(users: UserTable, p: OrderPayload) {
    forall f :: FieldValid(users, p, f)
  }

  /** A field's validator reports an error exactly when the field breaks its declaration. */
  lemma CheckIffInvalid(users: UserTable, p: OrderPayload, f: Field)
    ensures f in AllFields
    ensures Check(users, p, f).Some? <==> !FieldValid(users, p, f)
  {
  }

  /** The reported fields are exactly the invalid ones. */
  lemma ErrorsAreTheInvalidFields(users: UserTable, p: OrderPayload)
    ensures forall f :: f in FieldErrors(users, p) <==> !FieldValid(users, p, f)
    ensures forall f :: f in FieldErrors(users, p) <==> Check(users, p, f).Some?
  {
    forall f
      ensures f in FieldErrors(users, p) <==> !FieldValid(users, p, f)
      ensures f in FieldErrors(users, p) <==> Check(users, p, f).Some?
    {
      CheckIffInvalid(users, p, f);
    }
  }

  /** Which error each field reports: a missing or null required text is `required` or
      `null`, a blank one `blank`, an over-long one `max_length`; an unknown status is an
      invalid choice, a reference to no user of the column's role does not exist, and an
      amount names the first precision bound it breaks. */
  lemma ReportedReasons(users: UserTable, p: OrderPayload)
    ensures p.clientName.Omitted? ==> Check(users, p, ClientName) == Some(Required)
    ensures p.clientName.Null? ==> Check(users, p, ClientName) == Some(NullNotAllowed)
    ensures p.clientName.Given? && IsBlank(p.clientName.value) ==> Check(users, p, ClientName) == Some(Blank)
    ensures p.clientName.Given? && !IsBlank(p.clientName.value) && |Strip(p.clientName.value)| > ClientNameMaxLength ==>
      Check(users, p, ClientName) == Some(TooLong(ClientNameMaxLength))
    ensures p.clientPhone.Omitted? ==> Check(users, p, ClientPhone) == Some(Required)
    ensures p.clientPhone.Null? ==> Check(users, p, ClientPhone) == Some(NullNotAllowed)
    ensures p.clientPhone.Given? && IsBlank(p.clientPhone.value) ==> Check(users, p, ClientPhone) == Some(Blank)
    ensures p.clientPhone.Given? && !IsBlank(p.clientPhone.value) && |Strip(p.clientPhone.value)| > ClientPhoneMaxLength ==>
      Check(users, p, ClientPhone) == Some(TooLong(ClientPhoneMaxLength))
    ensures p.description.Omitted? ==> Check(users, p, Description) == Some(Required)
    ensures p.description.Null? ==> Check(users, p, Description) == Some(NullNotAllowed)
    ensures p.description.Given? && IsBlank(p.description.value) ==> Check(users, p, Description) == Some(Blank)
    ensures p.address.Given? && |Strip(p.address.value)| > AddressMaxLength ==>
      Check(users, p, Address) == Some(TooLong(AddressMaxLength))
    ensures p.status.Null? ==> Check(users, p, StatusField) == Some(NullNotAllowed)
    ensures p.status.Given? && ParseStatus(p.status.value).None? ==>
      Check(users, p, StatusField) == Some(InvalidChoice(p.status.value))
    ensures p.isTest.Null? ==> Check(users, p, IsTest) == Some(NullNotAllowed)
    ensures p.operator.Given? && !(p.operator.value in users && users[p.operator.value].role == "operator") ==>
      Check(users, p, OperatorField) == Some(DoesNotExist(p.operator.value))
    ensures p.curator.Given? && !(p.curator.value in users && users[p.curator.value].role == "curator") ==>
      Check(users, p, CuratorField) == Some(DoesNotExist(p.curator.value))
    ensures p.assignedMaster.Given? && !(p.assignedMaster.value in users && users[p.assignedMaster.value].role == "master") ==>
      Check(users, p, AssignedMasterField) == Some(DoesNotExist(p.assignedMaster.value))
    ensures p.estimatedCost.Given? && Money.CheckPrecision(p.estimatedCost.value).Some? ==>
      Check(users, p, EstimatedCost) == Some(Precision(Money.CheckPrecision(p.estimatedCost.value).value))
    ensures p.finalCost.Given? && Money.CheckPrecision(p.finalCost.value).Some? ==>
      Check(users, p, FinalCost) == Some(Precision(Money.CheckPrecision(p.finalCost.value).value))
    ensures p.expenses.Given? && Money.CheckPrecision(p.expenses.value).Some? ==>
      Check(users, p, Expenses) == Some(Precision(Money.CheckPrecision(p.expenses.value).value))
  {
  }

  /** The cleaned columns of a payload; read only once every field has passed, so the
      placeholders standing in for a failed field are never seen. */
  function Clean(users: UserTable, p: OrderPayload): OrderFields {
    OrderFields(
      CleanText(p.clientName, Some(ClientNameMaxLength)).GetOr(""),
      CleanText(p.clientPhone, Some(ClientPhoneMaxLength)).GetOr(""),
      CleanText(p.description, None).GetOr(""),
      CleanAddress(p.address).GetOr(None),
      CleanStatus(p.status).GetOr(DefaultStatus),
      CleanIsTest(p.isTest).GetOr(false),
      CleanUserRef(users, p.operator, Operator).GetOr(None),
      CleanUserRef(users, p.curator, Curator).GetOr(None),
      CleanUserRef(users, p.assignedMaster, Master).GetOr(None),
      CleanAmount(p.estimatedCost).GetOr(None),
      CleanAmount(p.finalCost).GetOr(None),
      CleanAmount(p.expenses).GetOr(None))
  }

  /** `is_valid()` followed by `validated_data`: the cleaned columns, or every field's error. */
  function Validate(users: UserTable, p: OrderPayload): (r: Result<OrderFields, Errors>)
    ensures r.Ok? <==> PayloadValid(users, p)
    ensures r.Err? ==> r.error != map[] && forall f :: f in r.error <==> !FieldValid(users, p, f)
    ensures r.Err? ==> forall f :: f in r.error ==> Some(r.error[f]) == Check(users, p, f)
    ensures r.Ok? ==> r.value == Clean(users, p)
  {
    var errors := FieldErrors(users, p);
    ErrorsAreTheInvalidFields(users, p);
    if errors != map[] then Err(errors)
    else
      assert forall f :: f !in errors;
      Ok(Clean(users, p))
  }

  /** Every validator passes on a valid payload. */
  lemma EachFieldPasses(users: UserTable, p: OrderPayload)
    requires PayloadValid(users, p)
    ensures CleanText(p.clientName, Some(ClientNameMaxLength)).Ok?
    ensures CleanText(p.clientPhone, Some(ClientPhoneMaxLength)).Ok?
    ensures CleanText(p.description, None).Ok?
    ensures CleanAddress(p.address).Ok? && CleanStatus(p.status).Ok? && CleanIsTest(p.isTest).Ok?
    ensures CleanUserRef(users, p.operator, Operator).Ok?
    ensures CleanUserRef(users, p.curator, Curator).Ok?
    ensures CleanUserRef(users, p.assignedMaster, Master).Ok?
    ensures CleanAmount(p.estimatedCost).Ok? && CleanAmount(p.finalCost).Ok? && CleanAmount(p.expenses).Ok?
  {
    assert FieldValid(users, p, ClientName) && FieldValid(users, p, ClientPhone);
    assert FieldValid(users, p, Description) && FieldValid(users, p, Address);
    assert FieldValid(users, p, StatusField) && FieldValid(users, p, IsTest);
    assert FieldValid(users, p, OperatorField) && FieldValid(users, p, CuratorField);
    assert FieldValid(users, p, AssignedMasterField);
    assert FieldValid(users, p, EstimatedCost) && FieldValid(users, p, FinalCost) && FieldValid(users, p, Expenses);
  }

  /** What is stored meets the column declarations: trimmed non-empty names and phones
      within their lengths, a bounded address, references to users of the right role,
      and amounts of at most ten digits of cents. */
  lemma ValidatedColumnsMeetDeclarations(users: UserTable, p: OrderPayload)
    requires PayloadValid(users, p)
    ensures var o := Clean(users, p);
      && o.clientName != [] && |o.clientName| <= ClientNameMaxLength
      && !IsSpace(o.clientName[0]) && !IsSpace(o.clientName[|o.clientName| - 1])
      && o.clientPhone != [] && |o.clientPhone| <= ClientPhoneMaxLength
      && o.description != []
      && (o.address.Some? ==> |o.address.value| <= AddressMaxLength)
      && (o.operator.Some? ==> o.operator.value in users && users[o.operator.value].role == "operator")
      && (o.curator.Some? ==> o.curator.value in users && users[o.curator.value].role == "curator")
      && (o.assignedMaster.Some? ==> o.assignedMaster.value in users && users[o.assignedMaster.value].role == "master")
      && (o.estimatedCost.Some? ==> -Money.Pow10(Money.MaxDigits) < o.estimatedCost.value < Money.Pow10(Money.MaxDigits))
      && (o.finalCost.Some? ==> -Money.Pow10(Money.MaxDigits) < o.finalCost.value < Money.Pow10(Money.MaxDigits))
      && (o.expenses.Some? ==> -Money.Pow10(Money.MaxDigits) < o.expenses.value < Money.Pow10(Money.MaxDigits))
  {
    EachFieldPasses(users, p);
  }

  /** A column the payload leaves out takes the model's default: status `новый`, not a
      test order, no address, no operator, curator or master, no amounts. */
  lemma OmittedFieldsTakeDefaults(users: UserTable, p: OrderPayload)
    requires PayloadValid(users, p)
    ensures var o := Clean(users, p);
      && (p.status.Omitted? ==> o.status == New)
      && (p.isTest.Omitted? ==> !o.isTest)
      && (p.address.Omitted? ==> o.address.None?)
      && (p.operator.Omitted? ==> o.operator.None?)
      && (p.curator.Omitted? ==> o.curator.None?)
      && (p.assignedMaster.Omitted? ==> o.assignedMaster.None?)
      && (p.estimatedCost.Omitted? ==> o.estimatedCost.None?)
      && (p.finalCost.Omitted? ==> o.finalCost.None?)
      && (p.expenses.Omitted? ==> o.expenses.None?)
  {
    EachFieldPasses(users, p);
  }

  /** A column the payload gives is stored as given: text trimmed, the chosen status,
      the flag, the referenced id, the amount in cents. */
  lemma GivenFieldsAreKept(users: UserTable, p: OrderPayload)
    requires PayloadValid(users, p)
    ensures var o := Clean(users, p);
      && p.clientName.Given? && o.clientName == Strip(p.clientName.value)
      && p.clientPhone.Given? && o.clientPhone == Strip(p.clientPhone.value)
      && p.description.Given? && o.description == Strip(p.description.value)
      && (p.address.Given? ==> o.address == Some(Strip(p.address.value)))
      && (p.status.Given? ==> StatusKey(o.status) == p.status.value)
      && (p.isTest.Given? ==> o.isTest == p.isTest.value)
      && (p.operator.Given? ==> o.operator == Some(p.operator.value))
      && (p.curator.Given? ==> o.curator == Some(p.curator.value))
      && (p.assignedMaster.Given? ==> o.assignedMaster == Some(p.assignedMaster.value))
      && (p.estimatedCost.Given? ==>
            (p.estimatedCost.value.exponent >= -2 && o.estimatedCost == Some(Money.Cents(p.estimatedCost.value))))
      && (p.finalCost.Given? ==>
            (p.finalCost.value.exponent >= -2 && o.finalCost == Some(Money.Cents(p.finalCost.value))))
      && (p.expenses.Given? ==>
            (p.expenses.value.exponent >= -2 && o.expenses == Some(Money.Cents(p.expenses.value))))
  {
    EachFieldPasses(users, p);
  }

  /** A body carrying only the three required columns. */
  function MinimalPayload(name: string, phone: string, description: string): OrderPayload {
    OrderPayload(Given(name), Given(phone), Given(description),
                 Omitted, Omitted, Omitted, Omitted, Omitted, Omitted, Omitted, Omitted, Omitted)
  }

  /** A name, phone and description that are not blank and within their lengths make a
      valid order: new, not a test order, unassigned and unpriced. */
  lemma MinimalPayloadAccepted(users: UserTable, name: string, phone: string, description: string)
    requires !IsBlank(name) && |Strip(name)| <= ClientNameMaxLength
    requires !IsBlank(phone) && |Strip(phone)| <= ClientPhoneMaxLength
    requires !IsBlank(description)
    ensures var r := Validate(users, MinimalPayload(name, phone, description));
      && r.Ok?
      && r.value == OrderFields(Strip(name), Strip(phone), Strip(description), None, New, false,
                                None, None, None, None, None, None)
  {
    var p := MinimalPayload(name, phone, description);
    forall f ensures FieldValid(users, p, f) {
    }
    EachFieldPasses(users, p);
    StripEmptyIffBlank(name);
    StripEmptyIffBlank(phone);
    StripEmptyIffBlank(description);
  }
}
