/** The role gates of backend/internal/middleware/auth.go and the role tests of the services. */
module Access {

  /** The four roles of the program; `Unknown` stands for any other text in a token. */
  datatype Role = Viewer | Operator | Reviewer | Admin | Unknown(text: string)

  const ROLE_RANK: map<Role, int> := map[Viewer := 1, Operator := 2, Reviewer := 3, Admin := 4]

  /** A lookup in a Go map: an absent role has rank zero. */
  function Rank(role: Role): int {
    if role in ROLE_RANK then ROLE_RANK[role] else 0
  }

  predicate RequireMinimumRole(minimum: Role, role: Role) {
    Rank(minimum) != 0 && Rank(role) >= Rank(minimum)
  }

  /** The set that RequireRoles fills from its arguments before it serves any request. */
  method RequireRoles(roles: seq<Role>) returns (allowed: set<Role>)
    ensures forall role :: role in allowed <==> role in roles
  {
    allowed := {};
    for i := 0 to |roles|
      invariant forall role :: role in allowed <==> role in roles[..i]
    {
      allowed := allowed + {roles[i]};
    }
  }

  predicate IsOperatorRole(role: Role) {
    role == Operator || role == Reviewer || role == Admin
  }

  predicate IsReviewerRole(role: Role) {
    role == Reviewer || role == Admin
  }

  /** The route gates and the service tests agree: a service test is a minimum-role gate, so
      the service's operator test never rejects a request that the route let through, and
      every test is kept when a role is raised. */
  lemma RoleTestsAreGates(role: Role, raised: Role)
    requires Rank(role) <= Rank(raised)
    ensures IsOperatorRole(role) <==> RequireMinimumRole(Operator, role)
    ensures IsReviewerRole(role) <==> RequireMinimumRole(Reviewer, role)
    ensures IsOperatorRole(role) ==> IsOperatorRole(raised)
    ensures IsReviewerRole(role) ==> IsReviewerRole(raised)
    ensures role == Admin ==> raised == Admin
  {
    assert Rank(Operator) == 2 && Rank(Reviewer) == 3 && Rank(Admin) == 4;
  }
}
