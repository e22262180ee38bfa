/** `ProtectedRoute`: the guard in front of the admin pages. */
module Route {
  import opened Js
  import opened Records

  datatype Decision = ToLogin | ToHome | Grant

  /** The stored "user", or else the stored "currentUser". */
  function Lookup(user: Option<User>, currentUser: Option<User>): (r: Option<User>)
    ensures user.Some? ==> r == user
    ensures user.None? ==> r == currentUser
  {
    if user.Some? then user else currentUser
  }

  /** `user.role?.toLowerCase() !== "admin"` fails; a missing role is "". */
  predicate IsAdmin(u: User)
  {
    Lower(u.role) == "admin"
  }

  function Decide(user: Option<User>, currentUser: Option<User>): (d: Decision)
    ensures d == ToLogin <==> user.None? && currentUser.None?
    ensures d == Grant <==> Lookup(user, currentUser).Some? && IsAdmin(Lookup(user, currentUser).value)
    ensures d == ToHome <==> Lookup(user, currentUser).Some? && !IsAdmin(Lookup(user, currentUser).value)
  {
    var u := Lookup(user, currentUser);
    if u.None? then ToLogin
    else if !IsAdmin(u.value) then ToHome
    else Grant
  }

  /** The check ignores ASCII case: roles that differ only in case decide alike. */
  lemma RoleCaseInsensitive(u: User, role: string)
    requires Lower(role) == Lower(u.role)
    ensures Decide(Some(u.(role := role)), None) == Decide(Some(u), None)
  {
  }

  /** "Admin" and "ADMIN" are let in; a missing role and "administrator" are not. */
  lemma RoleExamples(u: User)
    ensures Decide(Some(u.(role := "Admin")), None) == Grant
    ensures Decide(Some(u.(role := "ADMIN")), None) == Grant
    ensures Decide(Some(u.(role := "")), None) == ToHome
    ensures Decide(Some(u.(role := "administrator")), None) == ToHome
  {
    LowerSpelled("Admin");
    LowerSpelled("ADMIN");
  }

  lemma LowerSpelled(s: string)
    requires |s| == 5 && LowerChar(s[0]) == 'a' && LowerChar(s[1]) == 'd' && LowerChar(s[2]) == 'm'
    requires LowerChar(s[3]) == 'i' && LowerChar(s[4]) == 'n'
    ensures Lower(s) == "admin"
  {
    var l := Lower(s);
    assert l[0] == 'a' && l[1] == 'd' && l[2] == 'm' && l[3] == 'i' && l[4] == 'n';
  }

  /** A stored "currentUser" is never consulted while a "user" is stored. */
  lemma UserTakesPrecedence(u: User, current1: Option<User>, current2: Option<User>)
    ensures Decide(Some(u), current1) == Decide(Some(u), current2)
  {
  }
}
