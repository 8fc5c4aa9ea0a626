/** The request-level permission gates: each admits an authenticated caller
    whose stored role is exactly one string. */
module Permissions {

  import opened Wrappers
  import opened Roles
  import opened Accounts

  /** Who sent the request, as resolved by authentication. Authentication never
      resolves a request to an inactive user, so a `SignedIn` user is an active one;
      the gates themselves do not look at `isActive`. */
  datatype Requester = Anonymous | SignedIn(user: User)

  /** A stored user is always authenticated; the anonymous caller never is. */
  predicate IsAuthenticated(req: Requester) {
    req.SignedIn?
  }

  /** The shared shape of the three gates: authenticated, and the role string equals the choice's key. */
  function HasRole(req: Requester, required: Role): (ok: bool)
    ensures ok <==> IsAuthenticated(req) && ParseRole(req.user.role) == Some(required)
  {
    IsAuthenticated(req) && req.user.role == Key(required)
  }

  predicate IsCurator(req: Requester) {
    HasRole(req, Curator)
  }

  predicate IsOperator(req: Requester) {
    HasRole(req, Operator)
  }

  predicate IsMaster(req: Requester) {
    HasRole(req, Master)
  }

  /** No caller passes two gates; the anonymous caller, admins, warranty masters and
      users whose role is not a choice pass none. */
  lemma GatesAdmitOneRoleEach(req: Requester)
    ensures !(IsCurator(req) && IsOperator(req))
    ensures !(IsCurator(req) && IsMaster(req))
    ensures !(IsOperator(req) && IsMaster(req))
    ensures IsCurator(req) || IsOperator(req) || IsMaster(req) ==>
      req.SignedIn? && req.user.role in {"curator", "operator", "master"}
    ensures req.SignedIn? && req.user.role in {"admin", "warranty_master"} ==>
      !IsCurator(req) && !IsOperator(req) && !IsMaster(req)
  {
  }
}
