/** The GRANT statement as the parser and the legacy `show grants` path build
    it: privilege names, object type, a grantee clause and an objects holder. */
module GrantPrivilegeStmts {
  import opened Wrappers

  /** A user account; what it holds is not part of this model. */
  type UserIdentity(==)

  /** Who receives the grant (a user, a role, or as built here at most one of
      them) and whether the grantee may grant it on. */
  datatype GrantRevokeClause = GrantRevokeClause(
    userIdentity: Option<UserIdentity>,
    roleName: Option<string>,
    withGrantOption: bool)

  predicate HasExactlyOneGrantee(c: GrantRevokeClause) {
    c.userIdentity.Some? != c.roleName.Some?
  }

  predicate HasBothGrantees(c: GrantRevokeClause) {
    c.userIdentity.Some? && c.roleName.Some?
  }

  /** The grantee as a sum type: a user or a role, never both. */
  datatype Grantee = User(identity: UserIdentity) | Role(name: string)

  /** The clause's grantee when it names exactly one. */
  function GranteeOf(c: GrantRevokeClause): (g: Option<Grantee>)
    ensures g.None? <==> !HasExactlyOneGrantee(c)
    ensures g.Some? && g.value.User? ==> c.userIdentity == Some(g.value.identity)
    ensures g.Some? && g.value.Role? ==> c.roleName == Some(g.value.name)
  {
    match (c.userIdentity, c.roleName)
    case (Some(u), None) => Some(User(u))
    case (None, Some(r)) => Some(Role(r))
    case _ => None
  }

  /** The clause the user-identity constructor builds. */
  function UserGrantClause(userIdentity: Option<UserIdentity>): (c: GrantRevokeClause)
    ensures !HasBothGrantees(c) && !c.withGrantOption
    ensures GranteeOf(c) == if userIdentity.Some? then Some(User(userIdentity.value)) else None
  {
    GrantRevokeClause(userIdentity, None, false)
  }

  /** The clause the role-name constructor builds. */
  function RoleGrantClause(roleName: Option<string>): (c: GrantRevokeClause)
    ensures !HasBothGrantees(c) && !c.withGrantOption
    ensures GranteeOf(c) == if roleName.Some? then Some(Role(roleName.value)) else None
  {
    GrantRevokeClause(None, roleName, false)
  }

  /** The two convenience clauses are exactly the clauses with one grantee
      and no grant option: each such clause is rebuilt from its grantee. */
  lemma ConvenienceClausesCoverOneGrantee(c: GrantRevokeClause)
    requires HasExactlyOneGrantee(c) && !c.withGrantOption
    ensures GranteeOf(c).Some?
    ensures c == match GranteeOf(c).value
                 case User(u) => UserGrantClause(Some(u))
                 case Role(r) => RoleGrantClause(Some(r))
  {
  }

  /** The objects a grant applies to. Of its lists only the user list is
      modelled; `None` is the list never having been set. */
  class GrantRevokePrivilegeObjects {
    var userPrivilegeObjectList: Option<seq<UserIdentity>>

    constructor ()
      ensures userPrivilegeObjectList == None
    {
      userPrivilegeObjectList := None;
    }

    method SetUserPrivilegeObjectList(list: seq<UserIdentity>)
      modifies this
      ensures userPrivilegeObjectList == Some(list)
    {
      userPrivilegeObjectList := Some(list);
    }
  }

  class GrantPrivilegeStmt {
    var privilegeTypeUnResolved: seq<string>
    var objectTypeUnResolved: string
    var grantRevokeClause: GrantRevokeClause
    var objects: GrantRevokePrivilegeObjects

    /** Every argument is stored unchanged; the objects holder is shared, not copied. */
    constructor (privilegeTypeUnResolved: seq<string>, objectTypeUnResolved: string,
                 grantRevokeClause: GrantRevokeClause, objects: GrantRevokePrivilegeObjects)
      ensures this.privilegeTypeUnResolved == privilegeTypeUnResolved
      ensures this.objectTypeUnResolved == objectTypeUnResolved
      ensures this.grantRevokeClause == grantRevokeClause
      ensures this.objects == objects
      ensures objects.userPrivilegeObjectList == old(objects.userPrivilegeObjectList)
    {
      this.privilegeTypeUnResolved := privilegeTypeUnResolved;
      this.objectTypeUnResolved := objectTypeUnResolved;
      this.grantRevokeClause := grantRevokeClause;
      this.objects := objects;
    }

    /** A grant to one user, without grant option, on a fresh empty objects holder. */
    constructor ForUser(privilegeTypeUnResolved: seq<string>, objectTypeUnResolved: string,
                        userIdentity: Option<UserIdentity>)
      ensures this.privilegeTypeUnResolved == privilegeTypeUnResolved
      ensures this.objectTypeUnResolved == objectTypeUnResolved
      ensures !HasBothGrantees(grantRevokeClause) && !grantRevokeClause.withGrantOption
      ensures grantRevokeClause.userIdentity == userIdentity && grantRevokeClause.roleName == None
      ensures HasExactlyOneGrantee(grantRevokeClause) <==> userIdentity.Some?
      ensures fresh(objects) && objects.userPrivilegeObjectList == None
    {
      this.privilegeTypeUnResolved := privilegeTypeUnResolved;
      this.objectTypeUnResolved := objectTypeUnResolved;
      this.grantRevokeClause := UserGrantClause(userIdentity);
      this.objects := new GrantRevokePrivilegeObjects();
    }

    /** A grant to one role, without grant option, on a fresh empty objects holder. */
    constructor ForRole(privilegeTypeUnResolved: seq<string>, objectTypeUnResolved: string,
                        roleName: Option<string>)
      ensures this.privilegeTypeUnResolved == privilegeTypeUnResolved
      ensures this.objectTypeUnResolved == objectTypeUnResolved
      ensures !HasBothGrantees(grantRevokeClause) && !grantRevokeClause.withGrantOption
      ensures grantRevokeClause.roleName == roleName && grantRevokeClause.userIdentity == None
      ensures HasExactlyOneGrantee(grantRevokeClause) <==> roleName.Some?
      ensures fresh(objects) && objects.userPrivilegeObjectList == None
    {
      this.privilegeTypeUnResolved := privilegeTypeUnResolved;
      this.objectTypeUnResolved := objectTypeUnResolved;
      this.grantRevokeClause := RoleGrantClause(roleName);
      this.objects := new GrantRevokePrivilegeObjects();
    }

    /** Replaces the objects' user list, whatever it held, by the one given
        user; the statement's own fields stay as they were. */
    method SetUserPrivilegeObject(userIdentity: UserIdentity)
      modifies objects
      ensures objects.userPrivilegeObjectList == Some([userIdentity])
      ensures unchanged(this)
    {
      objects.SetUserPrivilegeObjectList([userIdentity]);
    }
  }
}
