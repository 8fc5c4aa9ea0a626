/** The closed set of user roles and the stored form of each. */
module Roles {

  import opened Wrappers

  datatype Role = Admin | Operator | Curator | Master | WarrantyMaster

  /** The value stored in the user's `role` column for each choice. */
  function Key(r: Role): string {
    match r
    case Admin => "admin"
    case Operator => "operator"
    case Curator => "curator"
    case Master => "master"
    case WarrantyMaster => "warranty_master"
  }

  /** A user created without a role gets this one. */
  const DefaultRole: Role := Admin

  /** The `role` column is declared with `max_length=10`. */
  const RoleMaxLength: nat := 10

  /** The choice a stored role string denotes, if any. */
  function ParseRole(s: string): (r: Option<Role>)
    ensures r.Some? ==> Key(r.value) == s
    ensures r.None? ==> forall x :: Key(x) != s
  {
    if s == "admin" then Some(Admin)
    else if s == "operator" then Some(Operator)
    else if s == "curator" then Some(Curator)
    else if s == "master" then Some(Master)
    else if s == "warranty_master" then Some(WarrantyMaster)
    else None
  }

  /** Each choice is read back from its stored form, so distinct roles store distinct strings. */
  lemma ParseKey(r: Role)
    ensures ParseRole(Key(r)) == Some(r)
  {
  }

  /** What field validation of the `role` column accepts: a choice key within the length bound. */
  predicate RoleFieldValid(s: string) {
    ParseRole(s).Some? && |s| <= RoleMaxLength
  }

  /** Exactly four of the five choices fit the column; `warranty_master` does not. */
  lemma RoleFieldAcceptsFourChoices(s: string)
    ensures RoleFieldValid(s) <==> s in {"admin", "operator", "curator", "master"}
    ensures RoleFieldValid(Key(DefaultRole))
    ensures !RoleFieldValid(Key(WarrantyMaster)) && |Key(WarrantyMaster)| == 15
  {
  }
}
