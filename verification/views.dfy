/** The three endpoints: public order submission, the operator's list of new
    orders, and login. Each takes the stored tables and the request, and gives
    back the response and the tables afterwards. */
module Views {

  import opened Wrappers
  import opened Accounts
  import opened Permissions
  import opened Orders
  import opened OrderSerializer
  import opened Auth
  import Store

  /** The user fields a login reply carries. */
  datatype UserView = UserView(id: nat, email: string, role: string)

  datatype Body =
    | OrderData(order: Order)
    | OrderList(orders: seq<Order>)
    | ValidationErrors(errors: Errors)
    | LoginData(token: string, user: UserView)
    | Detail(message: string)

  datatype Response = Response(status: nat, body: Body)

  const InvalidCredentials: string := "Invalid credentials"

  /** The reply to a caller a permission gate turns away. */
  function Denied(req: Requester): Response {
    if req.Anonymous? then Response(403, Detail("Authentication credentials were not provided."))
    else Response(403, Detail("You do not have permission to perform this action."))
  }

  /** Submitting an order: a valid body is stored under the next id and echoed back with
      201; an invalid one is answered with 400 and every field's error, storing nothing. */
  function CreateTestOrder(orders: OrderTable, users: UserTable, p: OrderPayload): (r: (OrderTable, Response))
    ensures r.1.status == 201 <==> PayloadValid(users, p)
    ensures PayloadValid(users, p) ==>
      var id := Store.NextId(orders);
      && id !in orders
      && r.0.Keys == orders.Keys + {id}
      && |r.0| == |orders| + 1
      && (forall k :: k in orders ==> r.0[k] == orders[k])
      && r.0[id] == Order(id, Clean(users, p))
      && r.1.body == OrderData(r.0[id])
    ensures !PayloadValid(users, p) ==>
      && r.0 == orders
      && r.1.status == 400
      && r.1.body.ValidationErrors?
      && r.1.body.errors != map[]
      && (forall f :: f in r.1.body.errors <==> !FieldValid(users, p, f))
      && (forall f :: f in r.1.body.errors ==> Some(r.1.body.errors[f]) == Check(users, p, f))
  {
    match Validate(users, p)
    case Ok(fields) =>
      var id := Store.NextId(orders);
      var o := Order(id, fields);
      (orders[id := o], Response(201, OrderData(o)))
    case Err(errors) => (orders, Response(400, ValidationErrors(errors)))
  }

  /** Submission keeps every row stored under its own id. */
  lemma CreateTestOrderKeepsTableValid(orders: OrderTable, users: UserTable, p: OrderPayload)
    requires Orders.TableValid(orders)
    ensures Orders.TableValid(CreateTestOrder(orders, users, p).0)
  {
  }

  /** Nothing marks a submitted order as a test order: the flag is whatever the body
      says, false when it says nothing. */
  lemma TestFlagIsNotForced(orders: OrderTable, users: UserTable, p: OrderPayload)
    requires PayloadValid(users, p)
    ensures var r := CreateTestOrder(orders, users, p);
      r.1.body.OrderData? && r.1.body.order.fields.isTest == (p.isTest.Given? && p.isTest.value)
  {
    assert FieldValid(users, p, IsTest);
  }

  /** The operator's list of orders whose status is `новый`, in id order. Anyone else is
      turned away. The tables are only read. */
  method GetNewOrders(req: Requester, orders: OrderTable) returns (resp: Response)
    ensures !IsOperator(req) ==> resp == Denied(req)
    ensures IsOperator(req) ==> resp.status == 200 && resp.body.OrderList?
    ensures IsOperator(req) ==> forall i :: 0 <= i < |resp.body.orders| ==>
      resp.body.orders[i] in orders.Values && resp.body.orders[i].fields.status == New
    ensures IsOperator(req) ==> forall k :: k in orders && orders[k].fields.status == New ==>
      orders[k] in resp.body.orders
    ensures IsOperator(req) && Orders.TableValid(orders) ==>
      forall i, j :: 0 <= i < j < |resp.body.orders| ==> resp.body.orders[i].id < resp.body.orders[j].id
  {
    if !IsOperator(req) {
      return Denied(req);
    }
    var bound := Store.NextId(orders);
    var found: seq<Order> := [];
    var k := 0;
    while k < bound
      invariant 0 <= k <= bound
      invariant forall i :: 0 <= i < |found| ==> found[i] in orders.Values && found[i].fields.status == New
      invariant forall j :: 0 <= j < k && j in orders && orders[j].fields.status == New ==> orders[j] in found
      invariant Orders.TableValid(orders) ==> forall i :: 0 <= i < |found| ==> found[i].id < k
      invariant Orders.TableValid(orders) ==>
        forall i, j :: 0 <= i < j < |found| ==> found[i].id < found[j].id
    {
      if k in orders && orders[k].fields.status == New {
        found := found + [orders[k]];
      }
      k := k + 1;
    }
    return Response(200, OrderList(found));
  }

  /** Login: on good credentials, 200 with the user's token (created if they had none)
      and their id, email and role; otherwise 400 and the token table untouched. */
  function Login(users: UserTable, tokens: TokenTable, email: Option<string>, password: Option<string>,
                 freshKey: string): (r: (TokenTable, Response))
    ensures r.1.status == 200 <==> Authenticate(users, email, password).Some?
    ensures Authenticate(users, email, password).None? ==>
      r.0 == tokens && r.1 == Response(400, Detail(InvalidCredentials))
    ensures Authenticate(users, email, password).Some? ==>
      var u := Authenticate(users, email, password).value;
      && r.0.Keys == tokens.Keys + {u.id}
      && (u.id in tokens ==> r.0 == tokens)
      && (u.id !in tokens ==> r.0 == tokens[u.id := freshKey])
      && r.1.body == LoginData(r.0[u.id], UserView(u.id, u.email, u.role))
  {
    match Authenticate(users, email, password)
    case None => (tokens, Response(400, Detail(InvalidCredentials)))
    case Some(u) =>
      var token := GetOrCreateToken(tokens, u.id, freshKey);
      (token.tokens, Response(200, LoginData(token.key, UserView(u.id, u.email, u.role))))
  }

  /** With emails unique, login succeeds exactly when an active user has the supplied
      email and password. */
  lemma LoginSucceedsIff(users: UserTable, tokens: TokenTable, email: string, password: string, freshKey: string)
    requires Accounts.TableValid(users)
    ensures Login(users, tokens, Some(email), Some(password), freshKey).1.status == 200 <==>
      exists id :: id in users && users[id].email == email
                   && PasswordMatches(users[id], password) && users[id].isActive
  {
    AuthenticateIff(users, email, password);
  }

  /** Logging in again returns the same reply and adds no token, whatever fresh key is offered. */
  lemma LoginIdempotent(users: UserTable, tokens: TokenTable, email: Option<string>,
                        password: Option<string>, key1: string, key2: string)
    ensures var (t1, r1) := Login(users, tokens, email, password, key1);
      Login(users, t1, email, password, key2) == (t1, r1)
  {
  }
}
