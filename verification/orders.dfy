/** The order record: its status choices, its stored fields and its string form. */
module Orders {

  import opened Wrappers
  import opened Text

  datatype Status = New | Processing | Assigned | InProgress | Completed

  /** The value stored in the `status` column for each choice. */
  function StatusKey(s: Status): string {
    match s
    case New => "новый"
    case Processing => "в обработке"
    case Assigned => "назначен"
    case InProgress => "выполняется"
    case Completed => "завершен"
  }

  /** An order submitted without a status is new. */
  const DefaultStatus: Status := New

  /** The `status` column is declared with `max_length=20`. */
  const StatusMaxLength: nat := 20

  /** The choice a submitted status string denotes, if any. */
  function ParseStatus(s: string): (r: Option<Status>)
    ensures r.Some? ==> StatusKey(r.value) == s
    ensures r.None? ==> forall x :: StatusKey(x) != s
  {
    if s == "новый" then Some(New)
    else if s == "в обработке" then Some(Processing)
    else if s == "назначен" then Some(Assigned)
    else if s == "выполняется" then Some(InProgress)
    else if s == "завершен" then Some(Completed)
    else None
  }

  /** Every status choice is read back from its key and fits the column. */
  lemma StatusChoicesFit(s: Status)
    ensures ParseStatus(StatusKey(s)) == Some(s)
    ensures |StatusKey(s)| <= StatusMaxLength
  {
  }

  /** The columns of an order other than its id; amounts are in cents, references are user ids. */
  datatype OrderFields = OrderFields(
    clientName: string,
    clientPhone: string,
    description: string,
    address: Option<string>,
    status: Status,
    isTest: bool,
    operator: Option<nat>,
    curator: Option<nat>,
    assignedMaster: Option<nat>,
    estimatedCost: Option<int>,
    finalCost: Option<int>,
    expenses: Option<int>)

  datatype Order = Order(id: nat, fields: OrderFields)

  type OrderTable = map<nat, Order>

  /** Every row is stored under its own id. */
  predicate TableValid(orders: OrderTable) {
    forall id :: id in orders ==> orders[id].id == id
  }

  const OrderStrPrefix: string := "Order "

  /** The order's string form: `Order {id} - {client_name} ({status})`. */
  function OrderStr(o: Order): string {
    OrderStrPrefix + NatToDecimal(o.id) + " - " + o.fields.clientName + " (" + StatusKey(o.fields.status) + ")"
  }

  /** The id written at the head of an order's string form. */
  function IdOfOrderStr(s: string): nat
    requires |OrderStrPrefix| <= |s|
  {
    var digits := s[|OrderStrPrefix|..];
    DecimalValue(digits[..LeadingDigits(digits)])
  }

  /** The string form starts with the prefix and the order's id can be read back from it. */
  lemma OrderStrNamesId(o: Order)
    ensures |OrderStrPrefix| <= |OrderStr(o)|
    ensures OrderStr(o)[..|OrderStrPrefix|] == OrderStrPrefix
    ensures IdOfOrderStr(OrderStr(o)) == o.id
  {
    var digits := NatToDecimal(o.id);
    var rest := " - " + o.fields.clientName + " (" + StatusKey(o.fields.status) + ")";
    assert rest[0] == ' ';
    var s := OrderStr(o);
    assert s == OrderStrPrefix + (digits + rest);
    var tail := s[|OrderStrPrefix|..];
    assert tail == digits + rest;
    LeadingDigitsOfRendered(digits, rest);
    assert tail[..|digits|] == digits;
    DecimalRoundTrip(o.id);
  }
}
