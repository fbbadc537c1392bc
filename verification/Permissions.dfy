/**
 The role-permission table, the matrix loaded from it, and the edit that replaces a role's row set.
 */
module Permissions {
  import opened Roles

  datatype Grant = Grant(role: Role, permission: string)

  type Matrix = map<Role, set<string>>

  predicate Holds(matrix: Matrix, role: Role, permission: string) {
    role in matrix && permission in matrix[role]
  }

  // roleHasPermission
  predicate RoleHasPermission(matrix: Matrix, role: Role, permission: string) {
    role == SuperAdmin || Holds(matrix, role, permission)
  }

  method LoadMatrix(rows: seq<Grant>) returns (matrix: Matrix)
    ensures forall role, permission :: Holds(matrix, role, permission) <==> Grant(role, permission) in rows
  {
    matrix := map[];
    for i := 0 to |rows|
      invariant forall role, permission :: Holds(matrix, role, permission) <==> Grant(role, permission) in rows[..i]
    {
      var role, permission := rows[i].role, rows[i].permission;
      assert rows[..i + 1] == rows[..i] + [rows[i]];
      if role !in matrix {
        matrix := matrix[role := {}];
      }
      matrix := matrix[role := matrix[role] + {permission}];
    }
  }

  // setRolePermissions: delete the role's rows, insert the known keys asked for.
  function SetRolePermissions(rows: set<Grant>, catalog: set<string>, role: Role, permissions: seq<string>): set<Grant> {
    (set g | g in rows && g.role != role) + set p | p in permissions && p in catalog :: Grant(role, p)
  }

  // A matrix loaded after the edit answers for the edited role exactly the known keys asked for,
  // for every other role what it answered before, and never locks the SUPER_ADMIN out.
  lemma EditTakesEffect(rows: set<Grant>, catalog: set<string>, role: Role, permissions: seq<string>,
                        before: Matrix, after: Matrix, r: Role, p: string)
    requires forall q, k :: Holds(before, q, k) <==> Grant(q, k) in rows
    requires forall q, k :: Holds(after, q, k) <==> Grant(q, k) in SetRolePermissions(rows, catalog, role, permissions)
    ensures RoleHasPermission(after, r, p) <==>
      || r == SuperAdmin
      || (if r == role then p in permissions && p in catalog else RoleHasPermission(before, r, p))
  {
    assert Holds(after, r, p) <==> Grant(r, p) in SetRolePermissions(rows, catalog, role, permissions);
    assert Holds(before, r, p) <==> Grant(r, p) in rows;
  }
}
