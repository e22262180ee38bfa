/** `UsersManagement`: the admin's user list, its search, role filter and sort,
    the user counts, the block/active toggles and delete applied to the shown
    list and (when the server fails) to the stored copy, and the row helpers. */
module UsersAdmin {
  import opened Js
  import opened Records
  import opened Seqs
  import opened Sorting

  /** The fields an update sends: `{ isBlocked }` or `{ isActive }`. */
  datatype Patch = BlockedPatch(blocked: bool) | ActivePatch(active: bool)

  /** `{ ...user, ...updatedData }`. */
  function Merged(u: User, patch: Patch): (r: User)
    ensures patch.BlockedPatch? ==> r == u.(isBlocked := Some(patch.blocked))
    ensures patch.ActivePatch? ==> r == u.(isActive := Some(patch.active))
  {
    match patch
    case BlockedPatch(b) => u.(isBlocked := Some(b))
    case ActivePatch(a) => u.(isActive := Some(a))
  }

  /** `users.map(user => user.id === id ? { ...user, ...patch } : user)`. */
  function Patched(users: seq<User>, id: string, patch: Patch): (r: seq<User>)
    ensures |r| == |users|
    ensures forall i :: 0 <= i < |users| && users[i].id == id ==> r[i] == Merged(users[i], patch)
    ensures forall i :: 0 <= i < |users| && users[i].id != id ==> r[i] == users[i]
  {
    seq(|users|, i requires 0 <= i < |users| => if users[i].id == id then Merged(users[i], patch) else users[i])
  }

  /** A patch reaches only the users with the id, and changes only its own
      flag; applying it twice is applying it once. */
  lemma PatchedSpec(users: seq<User>, id: string, patch: Patch)
    ensures Patched(Patched(users, id, patch), id, patch) == Patched(users, id, patch)
    ensures forall i :: 0 <= i < |users| ==>
      var u := Patched(users, id, patch)[i];
      u.id == users[i].id && u.name == users[i].name && u.email == users[i].email &&
      u.role == users[i].role && u.createdAt == users[i].createdAt
    ensures patch.BlockedPatch? ==> forall i :: 0 <= i < |users| ==>
      Patched(users, id, patch)[i].isActive == users[i].isActive
    ensures patch.ActivePatch? ==> forall i :: 0 <= i < |users| ==>
      Patched(users, id, patch)[i].isBlocked == users[i].isBlocked
  {
  }

  /** The toggle's patch: the negation of the flag the row showed, where an
      absent flag reads as false. */
  function Toggle(current: Option<bool>): (b: bool)
    ensures b <==> !Truthy(current)
  {
    !Truthy(current)
  }

  /** A toggle read from the user's own flag flips its truthiness, and two
      toggles in a row restore it. */
  lemma ToggleFlips(users: seq<User>, i: nat)
    requires i < |users|
    ensures var after := Patched(users, users[i].id, BlockedPatch(Toggle(users[i].isBlocked)));
      Truthy(after[i].isBlocked) == !Truthy(users[i].isBlocked) &&
      Truthy(Patched(after, users[i].id, BlockedPatch(Toggle(after[i].isBlocked)))[i].isBlocked) ==
        Truthy(users[i].isBlocked)
    ensures var after := Patched(users, users[i].id, ActivePatch(Toggle(users[i].isActive)));
      Truthy(after[i].isActive) == !Truthy(users[i].isActive) &&
      Truthy(Patched(after, users[i].id, ActivePatch(Toggle(after[i].isActive)))[i].isActive) ==
        Truthy(users[i].isActive)
  {
  }

  function WithoutId(id: string): User -> bool
  {
    (u: User) => u.id != id
  }

  /** `users.filter(user => user.id !== id)`. */
  function Deleted(users: seq<User>, id: string): seq<User>
  {
    Filter(users, WithoutId(id))
  }

  /** Deleting leaves no user with the id, keeps every other user in list
      order, and changes nothing when no user has the id. */
  lemma DeletedSpec(users: seq<User>, id: string)
    ensures forall i :: 0 <= i < |Deleted(users, id)| ==> Deleted(users, id)[i].id != id
    ensures forall u :: u in users && u.id != id ==> u in Deleted(users, id)
    ensures IsSubseq(Deleted(users, id), users)
    ensures (forall i :: 0 <= i < |users| ==> users[i].id != id) ==> Deleted(users, id) == users
  {
    var r := Deleted(users, id);
    forall i | 0 <= i < |r| ensures r[i].id != id {
      assert WithoutId(id)(r[i]);
    }
    forall u | u in users && u.id != id ensures u in r {
      FilterMember(users, WithoutId(id), u);
    }
    if forall i :: 0 <= i < |users| ==> users[i].id != id {
      FilterKeepsAll(users, WithoutId(id));
    }
  }

  /** The search: the name or email contains the term, ignoring case; an
      empty term is contained in every text. */
  predicate MatchesSearch(term: string, u: User)
  {
    IncludesIgnoringCase(u.name, term) || IncludesIgnoringCase(u.email, term)
  }

  predicate MatchesRole(filter: string, u: User)
  {
    filter == "all" || u.role == filter
  }

  function Shown(term: string, filter: string): User -> bool
  {
    (u: User) => MatchesSearch(term, u) && MatchesRole(filter, u)
  }

  function UserName(u: User): string { u.name }
  function UserEmail(u: User): string { u.email }
  function UserRole(u: User): string { u.role }
  function Joined(u: User): int { u.createdAt }

  /** The comparator of each sort option; any other option returns 0 for
      every pair, which a stable sort turns into the identity. */
  function Comparator(sortBy: string): Option<(User, User) -> bool>
  {
    if sortBy == "name" then Some(ByText(UserName))
    else if sortBy == "email" then Some(ByText(UserEmail))
    else if sortBy == "role" then Some(ByText(UserRole))
    else if sortBy == "recent" then Some(ByNumberDescending(Joined))
    else None
  }

  lemma ComparatorPreorder(sortBy: string)
    requires Comparator(sortBy).Some?
    ensures Total(Comparator(sortBy).value) && Transitive(Comparator(sortBy).value)
  {
    if sortBy == "name" { ByTextPreorder(UserName); }
    else if sortBy == "email" { ByTextPreorder(UserEmail); }
    else if sortBy == "role" { ByTextPreorder(UserRole); }
    else { ByNumberDescendingPreorder(Joined); }
  }

  /** `filteredUsers`. */
  function FilteredUsers(users: seq<User>, term: string, filter: string, sortBy: string): seq<User>
  {
    var kept := Filter(users, Shown(term, filter));
    if Comparator(sortBy).Some? then Sort(kept, Comparator(sortBy).value) else kept
  }

  /** The listed users are exactly the matching ones, each as often as in the
      list. */
  lemma FilteredUsersMembers(users: seq<User>, term: string, filter: string, sortBy: string)
    ensures multiset(FilteredUsers(users, term, filter, sortBy)) == multiset(Filter(users, Shown(term, filter)))
    ensures forall u :: u in FilteredUsers(users, term, filter, sortBy) <==>
      u in users && MatchesSearch(term, u) && MatchesRole(filter, u)
  {
    var kept := Filter(users, Shown(term, filter));
    var r := FilteredUsers(users, term, filter, sortBy);
    if Comparator(sortBy).Some? {
      SortPermutes(kept, Comparator(sortBy).value);
    }
    forall u ensures u in r <==> u in kept {
      assert u in multiset(r) <==> u in multiset(kept);
    }
    forall u ensures u in kept <==> u in users && Shown(term, filter)(u) {
      FilterMember(users, Shown(term, filter), u);
    }
  }

  /** Each sort option orders the list by its key; an unknown option keeps
      the list order. */
  lemma FilteredUsersOrder(users: seq<User>, term: string, filter: string, sortBy: string)
    ensures Comparator(sortBy).Some? ==> SortedBy(FilteredUsers(users, term, filter, sortBy), Comparator(sortBy).value)
    ensures Comparator(sortBy).None? ==> FilteredUsers(users, term, filter, sortBy) == Filter(users, Shown(term, filter))
  {
    if Comparator(sortBy).Some? {
      ComparatorPreorder(sortBy);
      SortSorted(Filter(users, Shown(term, filter)), Comparator(sortBy).value);
    }
  }

  /** "recent" puts the newest first. */
  lemma RecentFirst(users: seq<User>, term: string, filter: string)
    ensures forall i, j :: 0 <= i < j < |FilteredUsers(users, term, filter, "recent")| ==>
      FilteredUsers(users, term, filter, "recent")[i].createdAt >= FilteredUsers(users, term, filter, "recent")[j].createdAt
  {
    var kept := Filter(users, Shown(term, filter));
    var le := ByNumberDescending(Joined);
    assert Comparator("recent") == Some(le);
    var r := Sort(kept, le);
    assert FilteredUsers(users, term, filter, "recent") == r;
    ByNumberDescendingPreorder(Joined);
    SortSorted(kept, le);
    forall i, j | 0 <= i < j < |r| ensures r[i].createdAt >= r[j].createdAt {
      assert le(r[i], r[j]) == (Joined(r[j]) <= Joined(r[i]));
    }
  }

  datatype UsersStats = UsersStats(totalUsers: nat, adminUsers: nat, regularUsers: nat, activeUsers: nat, blockedUsers: nat)

  predicate IsActive(u: User) { Truthy(u.isActive) && !Truthy(u.isBlocked) }
  predicate IsBlocked(u: User) { Truthy(u.isBlocked) }

  function ActiveTest(): User -> bool { (u: User) => IsActive(u) }
  function BlockedTest(): User -> bool { (u: User) => IsBlocked(u) }
  function RoleTest(role: string): User -> bool { (u: User) => u.role == role }

  /** `getUsersStats()`. */
  function Stats(users: seq<User>): UsersStats
  {
    UsersStats(|users|, Count(users, RoleTest("admin")), Count(users, RoleTest("user")),
      Count(users, ActiveTest()), Count(users, BlockedTest()))
  }

  /** No user is both active and blocked, nor both an admin and a regular
      user, so each pair of counts fits in the total. */
  lemma StatsSpec(users: seq<User>)
    ensures Stats(users).activeUsers + Stats(users).blockedUsers <= Stats(users).totalUsers
    ensures Stats(users).adminUsers + Stats(users).regularUsers <= Stats(users).totalUsers
  {
    CountDisjoint(users, ActiveTest(), BlockedTest());
    CountDisjoint(users, RoleTest("admin"), RoleTest("user"));
  }

  /** The first letters of the non-empty words (`word[0]` of an empty word is
      `undefined`, which `join` writes as nothing). */
  function Heads(words: seq<string>): string
  {
    if words == [] then [] else (if words[0] != [] then [words[0][0]] else []) + Heads(words[1..])
  }

  /** The same letters read off the text: each non-space character that starts
      the text (when `atStart`) or follows a space. */
  function WordStarts(s: string, atStart: bool): string
  {
    if s == [] then []
    else (if s[0] != ' ' && atStart then [s[0]] else []) + WordStarts(s[1..], s[0] == ' ')
  }

  lemma {:induction false} HeadsSplit(s: string, atStart: bool)
    ensures (if atStart then Heads(Split(s, ' ')) else Heads(Split(s, ' ')[1..])) == WordStarts(s, atStart)
  {
    if s != [] {
      var rest := Split(s[1..], ' ');
      if s[0] == ' ' {
        HeadsSplit(s[1..], true);
        assert Split(s, ' ') == [""] + rest;
        assert Split(s, ' ')[1..] == rest;
      } else {
        HeadsSplit(s[1..], false);
        assert Split(s, ' ') == [[s[0]] + rest[0]] + rest[1..];
        assert Split(s, ' ')[1..] == rest[1..];
      }
    }
  }

  /** `getUserInitials(name)`. */
  function Initials(name: string): (r: string)
    ensures |r| <= 2
    ensures name == "" ==> r == "UU"
  {
    if name == "" then "UU" else Slice(Upper(Heads(Split(name, ' '))), 0, 2)
  }

  /** The initials are the first two word starts, upper-cased: a name that
      does not start with a space begins with its own first letter. */
  lemma InitialsSpec(name: string)
    requires name != ""
    ensures var w := WordStarts(name, true);
      Initials(name) == Upper(if |w| < 2 then w else w[..2])
    ensures name[0] != ' ' ==> Initials(name) != [] && Initials(name)[0] == UpperChar(name[0])
  {
    HeadsSplit(name, true);
    var w := WordStarts(name, true);
    var u := Upper(w);
    assert Initials(name) == Slice(u, 0, 2);
    if |w| >= 2 {
      assert Slice(u, 0, 2) == u[..2];
      UpperPrefix(w, 2);
    } else {
      assert Slice(u, 0, 2) == u;
    }
    if name[0] != ' ' {
      assert w == [name[0]] + WordStarts(name[1..], false);
    }
  }

  /** Upper-casing commutes with taking a prefix. */
  lemma UpperPrefix(w: string, n: nat)
    requires n <= |w|
    ensures Upper(w)[..n] == Upper(w[..n])
  {
    assert forall i :: 0 <= i < n ==> Upper(w)[..n][i] == UpperChar(w[..n][i]);
  }

  /** Word starts of a concatenation: the second part starts a word when the
      first part is empty and `atStart`, or when it ends with a space. */
  lemma {:induction false} WordStartsConcat(x: string, y: string, atStart: bool)
    ensures WordStarts(x + y, atStart) == WordStarts(x, atStart) + WordStarts(y, if x == [] then atStart else x[|x| - 1] == ' ')
  {
    if x == [] {
      assert x + y == y;
    } else {
      var c, xs := x[0], x[1..];
      var flag := if xs == [] then c == ' ' else xs[|xs| - 1] == ' ';
      assert flag == (x[|x| - 1] == ' ');
      WordStartsConcat(xs, y, c == ' ');
      assert x == [c] + xs;
      assert x + y == [c] + (xs + y);
      WordStartsCons(c, xs, atStart);
      WordStartsCons(c, xs + y, atStart);
    }
  }

  /** One step of `WordStarts`. */
  lemma WordStartsCons(c: char, rest: string, atStart: bool)
    ensures WordStarts([c] + rest, atStart) == (if c != ' ' && atStart then [c] else []) + WordStarts(rest, c == ' ')
  {
    assert ([c] + rest)[1..] == rest;
  }

  /** A word without spaces contributes its first letter when it starts a word. */
  lemma {:induction false} WordStartsWord(x: string, atStart: bool)
    requires x != [] && ' ' !in x
    ensures WordStarts(x, atStart) == if atStart then [x[0]] else []
  {
    if x[1..] != [] {
      WordStartsWord(x[1..], false);
    }
  }

  /** A word followed by a space and more text: its first letter, then the
      word starts of the rest. */
  lemma WordThenRest(a: string, rest: string)
    requires a != [] && ' ' !in a
    ensures WordStarts(a + ([' '] + rest), true) == [a[0]] + WordStarts(rest, true)
  {
    WordStartsConcat(a, [' '] + rest, true);
    WordStartsWord(a, true);
    assert WordStarts([' '] + rest, false) == WordStarts(rest, true);
  }

  /** Two words give both first letters, upper-cased: "ann lee" gives "AL". */
  lemma InitialsTwoWords(a: string, b: string)
    requires a != [] && b != [] && ' ' !in a && ' ' !in b
    ensures Initials(a + " " + b) == [UpperChar(a[0]), UpperChar(b[0])]
  {
    assert a + " " + b == a + ([' '] + b);
    WordThenRest(a, b);
    WordStartsWord(b, true);
    InitialsSpec(a + " " + b);
  }

  /** A third word is cut off: "ann bo lee" gives "AB". */
  lemma InitialsThreeWords(a: string, b: string, c: string)
    requires a != [] && b != [] && c != [] && ' ' !in a && ' ' !in b && ' ' !in c
    ensures Initials(a + " " + b + " " + c) == [UpperChar(a[0]), UpperChar(b[0])]
  {
    var name := a + " " + b + " " + c;
    assert name == a + ([' '] + (b + ([' '] + c)));
    WordThenRest(a, b + ([' '] + c));
    WordThenRest(b, c);
    WordStartsWord(c, true);
    var w := WordStarts(name, true);
    assert w == [a[0], b[0], c[0]];
    InitialsSpec(name);
    assert w[..2] == [a[0], b[0]];
  }

  /** `getRandomColor(str)`: none of the six colours for an empty text,
      otherwise the index `charCodeAt(0) % 6`. */
  function ColorIndex(s: string): (r: Option<nat>)
    ensures s == "" <==> r.None?
    ensures r.Some? ==> r.value < 6
  {
    if s == "" then None else Some((s[0] as int) % 6)
  }

  /** The colour depends on the first character alone. */
  lemma ColorByFirstChar(s: string, t: string)
    requires s != "" && t != "" && s[0] == t[0]
    ensures ColorIndex(s) == ColorIndex(t)
  {
  }

  function ByEmail(email: string): Order -> bool
  {
    (o: Order) => o.userEmail == email
  }

  function OrderTotal(o: Order): int { o.total }

  /** The user's orders: those placed under the same email, in stored order. */
  function UserOrders(orders: seq<Order>, email: string): seq<Order>
  {
    Filter(orders, ByEmail(email))
  }

  /** `totalSpent`. */
  function TotalSpent(orders: seq<Order>, email: string): int
  {
    Sum(UserOrders(orders, email), OrderTotal)
  }

  /** Spending adds up over lists of orders, ignores other users' orders, and
      is never negative while totals are not. */
  lemma TotalSpentSpec(a: seq<Order>, b: seq<Order>, email: string)
    ensures TotalSpent(a + b, email) == TotalSpent(a, email) + TotalSpent(b, email)
    ensures (forall i :: 0 <= i < |a| ==> a[i].userEmail != email) ==> TotalSpent(a, email) == 0
    ensures (forall i :: 0 <= i < |a| ==> a[i].total >= 0) ==> TotalSpent(a, email) >= 0
  {
    FilterConcat(a, b, ByEmail(email));
    SumConcat(UserOrders(a, email), UserOrders(b, email), OrderTotal);
    if forall i :: 0 <= i < |a| ==> a[i].userEmail != email {
      FilterNone(a, ByEmail(email));
    }
    if forall i :: 0 <= i < |a| ==> a[i].total >= 0 {
      var mine := UserOrders(a, email);
      forall o | o in mine ensures OrderTotal(o) >= 0 {
        FilterMember(a, ByEmail(email), o);
        var k :| 0 <= k < |a| && a[k] == o;
      }
      SumNonNegative(mine, OrderTotal);
    }
  }

  /** The admin's user list, the browser's stored copy, and the user whose
      details are open. */
  class UsersView {
    var users: seq<User>
    var stored: seq<User>
    var selected: Option<User>

    constructor (stored: seq<User>)
      ensures users == [] && this.stored == stored && selected == None
    {
      users := [];
      this.stored := stored;
      selected := None;
    }

    /** `fetchUsers`: the server's list, or the stored copy on failure. */
    method FetchUsers(response: Option<seq<User>>)
      modifies this
      ensures response.Some? ==> users == response.value
      ensures response.None? ==> users == old(stored)
      ensures stored == old(stored) && selected == old(selected)
    {
      if response.Some? {
        users := response.value;
      } else {
        users := stored;
      }
    }

    /** `updateUserInAPI`'s fallback: only when the server fails does the
        stored copy receive the merged fields. */
    method UpdateUser(id: string, patch: Patch, serverOk: bool)
      modifies this
      ensures serverOk ==> stored == old(stored)
      ensures !serverOk ==> stored == Patched(old(stored), id, patch)
      ensures users == old(users) && selected == old(selected)
    {
      if !serverOk {
        stored := Patched(stored, id, patch);
      }
    }

    /** `toggleUserBlock(id, name, current)` after the dialog answered
        `confirmed`. */
    method ToggleUserBlock(id: string, current: Option<bool>, confirmed: bool, serverOk: bool)
      modifies this
      ensures !confirmed ==> users == old(users) && stored == old(stored)
      ensures confirmed ==> users == Patched(old(users), id, BlockedPatch(Toggle(current)))
      ensures confirmed && !serverOk ==> stored == Patched(old(stored), id, BlockedPatch(Toggle(current)))
      ensures confirmed && serverOk ==> stored == old(stored)
      ensures selected == old(selected)
    {
      if confirmed {
        UpdateUser(id, BlockedPatch(Toggle(current)), serverOk);
        users := Patched(users, id, BlockedPatch(Toggle(current)));
      }
    }

    /** `toggleUserActive(id, name, current)` after the dialog answered
        `confirmed`. */
    method ToggleUserActive(id: string, current: Option<bool>, confirmed: bool, serverOk: bool)
      modifies this
      ensures !confirmed ==> users == old(users) && stored == old(stored)
      ensures confirmed ==> users == Patched(old(users), id, ActivePatch(Toggle(current)))
      ensures confirmed && !serverOk ==> stored == Patched(old(stored), id, ActivePatch(Toggle(current)))
      ensures confirmed && serverOk ==> stored == old(stored)
      ensures selected == old(selected)
    {
      if confirmed {
        UpdateUser(id, ActivePatch(Toggle(current)), serverOk);
        users := Patched(users, id, ActivePatch(Toggle(current)));
      }
    }

    /** `deleteUser(id, name)` after the dialog answered `confirmed`: the
        stored copy loses the user only when the server fails, and the open
        details close when they show the deleted user. */
    method DeleteUser(id: string, confirmed: bool, serverOk: bool)
      modifies this
      ensures !confirmed ==> users == old(users) && stored == old(stored) && selected == old(selected)
      ensures confirmed ==> users == Deleted(old(users), id)
      ensures confirmed && !serverOk ==> stored == Deleted(old(stored), id)
      ensures confirmed && serverOk ==> stored == old(stored)
      ensures confirmed && old(selected).Some? && old(selected).value.id == id ==> selected == None
      ensures confirmed && !(old(selected).Some? && old(selected).value.id == id) ==> selected == old(selected)
    {
      if confirmed {
        if !serverOk {
          stored := Deleted(stored, id);
        }
        users := Deleted(users, id);
        if selected.Some? && selected.value.id == id {
          selected := None;
        }
      }
    }
  }
}
