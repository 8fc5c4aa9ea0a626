# Order service core: roles, user manager, order validation and the three endpoints

This project models the logic-bearing part of a small repair-service order backend:

- the closed set of user roles (`admin`, `operator`, `curator`, `master`, `warranty_master`, default `admin`) and the three permission gates `IsCurator`, `IsOperator` and `IsMaster`;
- the user manager: `create_user` and `create_superuser`, with their checks and flag defaults;
- the order record: its status choices, column declarations, defaults and string form;
- the order serializer, which exposes every column. A submitted body is therefore valid exactly when each value meets its column's declaration;
- the endpoints `create_test_order`, `get_new_orders` and `LoginAPIView.post`.

Persistence becomes finite maps from primary key to row, and each operation is a pure function from tables and request to tables and response. An insert takes the next id: one past the largest key in use, because the tables here only grow. `get_new_orders` is a method with a loop, because its result is a listing.

Modules, leaves first:

| file | module | models |
|---|---|---|
| wrappers.dfy | `Wrappers` | `Option`, `Result` |
| text.dfy | `Text` | `str(int)` rendering and parsing, Python's `str.strip()` and `isspace()` |
| store.dfy | `Store` | next primary key of a table |
| money.dfy | `Money` | decimal amounts, the `max_digits=10, decimal_places=2` precision check, cents |
| roles.dfy | `Roles` | `ROLE_CHOICES`, the `role` default and `max_length` |
| accounts.dfy | `Accounts` | the user record, `create_user`, `create_superuser`, `__str__` |
| permissions.dfy | `Permissions` | `IsCurator`, `IsOperator`, `IsMaster` |
| orders.dfy | `Orders` | `STATUS_CHOICES`, the order record, `__str__` |
| order_serializer.dfy | `OrderSerializer` | validation of a submitted order, defaults of omitted columns |
| auth.dfy | `Auth` | email/password authentication, the token table and `get_or_create` |
| views.dfy | `Views` | the three endpoints |

Behaviour that comes from the web framework rather than from the repository's own lines is modelled as the framework behaves:

- text columns are trimmed before the blank and length checks;
- a reference column only accepts users of the role in its `limit_choices_to`;
- the amount check looks at total digits, then decimal places, then whole digits (at most 8), counting trailing zeros of the decimal it is given;
- a column that is not supplied takes its model default;
- the email/password backend looks a user up by exact email, checks the password and refuses inactive users;
- on save, a boolean column converts the integers `1` and `0` and the strings `"t"`, `"True"`, `"1"`, `"f"`, `"False"` and `"0"`; the model refuses every other value it can express, including `None`.

Parameters stand for what the model cannot see:

- `normalize` is the manager's email normalisation;
- `freshKey` is the random key a newly created token gets;
- the caller of a request is given as a `Requester`, already resolved by authentication.

Two points where the code is looser than one might expect:

- `create_test_order` does not set `is_test`: it stores whatever `is_test` the body carries, and `False` by default (`Views.TestFlagIsNotForced`).
- `create_user` does not validate `role`: it stores any `role` string it is given, because saving a user runs no choice or length validation.

## Model

| member | source | states |
|---|---|---|
| `Roles.ParseRole` | app1/api1/models.py:42-48 | a stored role string denotes a choice exactly when it is that choice's key; any other string denotes none |
| `Roles.ParseKey` | app1/api1/models.py:42-48 | every role choice is read back from its stored key, so distinct roles are stored differently |
| `Roles.RoleFieldAcceptsFourChoices` | app1/api1/models.py:42-50 | the `role` column (choices, `max_length=10`) accepts exactly `admin`, `operator`, `curator` and `master`; the default `admin` is accepted; `warranty_master` has 15 characters and is refused |
| `Permissions.HasRole` | app1/api1/models.py:124-134 | a gate admits a caller exactly when the caller is authenticated and their stored role parses to the gate's choice |
| `Permissions.GatesAdmitOneRoleEach` | app1/api1/models.py:124-134 | no caller passes two gates; a caller passing any gate is signed in with role `curator`, `operator` or `master`; users with role `admin` or `warranty_master` pass none |
| `Accounts.CreateUser` | app1/api1/models.py:13-23 | fails with "The Email must be set" exactly when the email is missing or empty; otherwise fails on the first flag that cannot be stored, in the order `is_superuser`, `is_staff`, `is_active`, then on an email already in use; succeeds exactly when the email is present, the flags can be stored and the normalised email is unused; on success, adds one user under a fresh id with the normalised email, the given or default role, the password set, and `is_staff`, `is_superuser` and `is_active` converted from the keywords or defaulting to false, false and true |
| `Accounts.CreateUserKeepsTableValid` | app1/api1/models.py:52 | creating a user keeps every user stored under its own id and no two users sharing an email |
| `Accounts.CreateUserDefaults` | app1/api1/models.py:50 | a user created without keyword arguments has role `admin`, is neither staff nor superuser, and is active |
| `Accounts.CreateSuperuser` | app1/api1/models.py:25-37 | fails with the staff message exactly when `is_staff` is passed as anything but `True`; fails with the superuser message exactly when `is_staff` passes and `is_superuser` is passed as anything but `True`; once both pass, fails as `create_user` does: the email message exactly when the email is missing, then an unstorable `is_active`, then an email already in use; succeeds exactly when both are absent or `True` and `create_user` would succeed; a created superuser is stored under a fresh id with the normalised email, the password set and the given or default role, is staff and superuser, and is active as `is_active` says (by default, yes) |
| `Accounts.SuperuserDefaults` | app1/api1/models.py:29-31 | with no keyword arguments, a valid unused email always yields a superuser that is staff, superuser and active |
| `Accounts.InactiveSuperuserAccepted` | app1/api1/models.py:31-36 | an explicit `is_active=False` is accepted and stored, since that flag is never checked |
| `Accounts.UserStrIgnoresEmail` | app1/api1/models.py:51-59 | the string form of two users is equal exactly when their roles are equal, because `username` is always `None` and the email never shows |
| `Orders.ParseStatus` | app1/api1/models.py:72-78 | a status string denotes a choice exactly when it is that choice's key |
| `Orders.StatusChoicesFit` | app1/api1/models.py:72-84 | every status choice is read back from its key and fits `max_length=20` |
| `Orders.OrderStrNamesId` | app1/api1/models.py:119-120 | an order's string form starts with `Order ` followed by its id, and the id can be read back from it |
| `OrderSerializer.CheckIffInvalid` | app1/api1/models.py:80-116 | each field's validator reports an error exactly when the submitted value breaks the column declaration, as stated field by field in `FieldValid` |
| `OrderSerializer.ReportedReasons` | app1/api1/models.py:80-116 | the reason given for each invalid field: `required` or `null` for a missing or null name, phone or description, `blank` for blank text, `max_length` for text too long once trimmed, an invalid choice for an unknown status, does-not-exist for a reference to no user of the column's role, and for an amount the precision bound it breaks |
| `OrderSerializer.Validate` | app1/api1/models.py:80-116 | a body is accepted exactly when every column declaration holds; otherwise the errors name exactly the invalid fields, are never empty, and give each field the reason its validator reports |
| `OrderSerializer.ValidatedColumnsMeetDeclarations` | app1/api1/models.py:80-116 | what is stored has a non-empty trimmed name of at most 255 characters, a non-empty phone of at most 20, a non-empty description, an address of at most 255, references only to users of the limited role, and amounts under 10^10 cents |
| `OrderSerializer.OmittedFieldsTakeDefaults` | app1/api1/models.py:83-116 | a column left out of the body takes its default: status `новый`, `is_test` false, address, operator, curator, master and the three amounts null |
| `OrderSerializer.GivenFieldsAreKept` | app1/api1/models.py:80-116 | a column the body supplies is stored as supplied: text trimmed, the chosen status, the flag, the referenced id, the amount in cents |
| `OrderSerializer.MinimalPayloadAccepted` | app1/api1/models.py:80-85 | a non-blank name and phone within their lengths and a non-blank description make a valid order that is new, not a test order, unassigned and unpriced |
| `OrderSerializer.CleanAmount` | app1/api1/models.py:114-116 | an accepted amount is null or lies strictly between -10^10 and 10^10 cents |
| `Money.CheckPrecision` | app1/api1/models.py:114-116 | an amount passes exactly when it has at most 10 digits, at most 2 decimal places and at most 8 whole digits; the reported bound is broken and every bound checked before it holds, in the order digits, places, whole digits |
| `Money.CentsBound` | app1/api1/models.py:114-116 | an amount that passes has at most two decimal places and fits in ten digits of cents |
| `Money.CentsRoundTrip` | app1/api1/models.py:114-116 | every amount under 10^10 cents in magnitude, written with two places, passes and is stored unchanged |
| `Auth.LookupByEmail` | app1/api1/models.py:52-54 | the login lookup finds a user with exactly the given email, and finds none exactly when no user has it |
| `Auth.Authenticate` | app1/api1/views.py:37 | authentication returns only a stored, active user whose email is the supplied one and whose password matches, and only when both were supplied |
| `Auth.AuthenticateIff` | app1/api1/views.py:37-39 | with unique emails, authentication succeeds exactly when an active user has the supplied email and password |
| `Auth.GetOrCreateToken` | app1/api1/views.py:41 | returns the user's existing token unchanged, or stores the fresh key for them; other users' tokens are untouched and the created flag is true exactly when the user had none |
| `Auth.GetOrCreateIdempotent` | app1/api1/views.py:41 | a second `get_or_create` for the same user returns the same key and creates nothing |
| `Views.CreateTestOrder` | app1/api1/views.py:13-19 | returns 201 exactly for a valid body, then adds exactly one order, under a fresh id, holding the cleaned columns, and echoes it back; otherwise returns 400 with exactly the invalid fields, each with the reason its validator reports, and leaves the table unchanged |
| `Views.CreateTestOrderKeepsTableValid` | app1/api1/views.py:15-18 | submission keeps every order stored under its own id |
| `Views.TestFlagIsNotForced` | app1/api1/views.py:15-17 | the stored `is_test` is the body's value, or false when the body says nothing |
| `Views.GetNewOrders` | app1/api1/views.py:21-26 | callers other than operators are turned away; for an operator, every listed order is stored and has status `новый`, every stored order with that status is listed, and the listing is in strictly increasing id order |
| `Views.Login` | app1/api1/views.py:29-54 | replies 200 exactly when authentication succeeds, with the user's token and only their id, email and role; a user who already had a token keeps it, and a first login stores the fresh key for that user alone; on failure replies 400 "Invalid credentials" and creates no token |
| `Views.LoginSucceedsIff` | app1/api1/views.py:37-39 | with unique emails, login succeeds exactly when an active user has the supplied email and password |
| `Views.LoginIdempotent` | app1/api1/views.py:41 | logging in again returns the same reply and token and adds no token, whatever fresh key is offered |

## Left out

- Timestamps: `created_at` (`auto_now_add`) is not part of the order record, because it comes from the clock.
- `Balance`, `BalanceLog` and `ProfitDistribution`: these models declare columns but have no operations in the code, and nothing posts to the ledger.
- The code has no promotion, master assignment, update, delete or role listing; none is modelled.
- The admin registration and URL routing files: they have no behaviour beyond naming the three endpoints.
- Password hashing is left out: a password is stored as the raw string, and a match is string equality. Token key generation is the `freshKey` parameter, and a key collision with another user's token is not modelled.
- Email normalisation is the `normalize` parameter; its effect on the domain part is not modelled.
- The database and concurrency: transactions, request parallelism and insert races are not modelled.
- Values of the wrong JSON type are not modelled: a number given for a name, a string given for `is_test` or for a reference id, or a decimal given as text (including NaN and infinity).
- The serializer's refusal of NUL and surrogate characters in text is not modelled.
- `create_user` keyword arguments other than `is_staff`, `is_superuser`, `is_active` and `role` are not modelled, and `role` is modelled only as a string.
- The database's own enforcement of `max_length` on save is left out, because it depends on the database engine.
- Views.GetNewOrders: the database gives the filtered rows in no particular order. The model lists them in id order, and the ordering clause holds only for tables keyed by their own ids.
- An anonymous caller of `get_new_orders` is modelled as getting 403. Whether it gets 401 instead depends on authentication settings that are not part of this model.
- Role and status labels are not used by any operation and are not modelled.
- Accounts.CreateUser: the returned `User` is the stored row, with each flag converted to a boolean. The instance Python returns keeps the raw keyword values (for example `is_staff="t"`), because saving converts a flag only for the insert and does not write the result back.
- Money.Decimal is the amount after the JSON parser has read it: a JSON number becomes a binary float, and the serializer builds its decimal from the float's shortest text. So a JSON `1.000` reaches the check as `1.0`, and digits beyond a float's precision are already gone. That float round-trip is not modelled; the precision check and `Cents` are stated for the decimal it yields.
- Boolean columns: the floats `1.0` and `0.0`, which Django also accepts, are not expressible as a `PyValue`. A `None` flag is refused by the model, while Django stores it as NULL and the NOT NULL constraint refuses it on insert.
