/** The administrator's user list: the search and status filters, the
    status change and the deletion, each of which replaces the whole list. */
module UserManagement {
  import opened JsValue
  import opened Lists

  /** A user row. The status select offers 'active', 'inactive' and
      'blocked', but the value is stored as the select hands it over. */
  datatype User = User(id: int, email: string, username: string, role: string, createdAt: string, lastLogin: string, status: string)

  const AllStatuses := "all"

  /** The search box: the lower-cased term inside the lower-cased e-mail or
      user name. */
  predicate MatchesSearch(user: User, searchTerm: string) {
    Contains(ToLower(user.email), ToLower(searchTerm)) || Contains(ToLower(user.username), ToLower(searchTerm))
  }

  /** The status select: 'all', or exactly the user's status. */
  predicate MatchesStatus(user: User, filterStatus: string) {
    filterStatus == AllStatuses || user.status == filterStatus
  }

  /** `filteredUsers` */
  function FilteredUsers(users: seq<User>, searchTerm: string, filterStatus: string): seq<User> {
    Filter(users, u => MatchesSearch(u, searchTerm) && MatchesStatus(u, filterStatus))
  }

  /** The list shown keeps the users' order and holds exactly the users
      passing both tests; with an empty search and 'all' it is every user,
      and the summary's count never exceeds the number of users. */
  lemma FilteredUsersSelect(users: seq<User>, searchTerm: string, filterStatus: string, u: User)
    ensures IsSubsequence(FilteredUsers(users, searchTerm, filterStatus), users)
    ensures u in FilteredUsers(users, searchTerm, filterStatus) <==>
      u in users && MatchesSearch(u, searchTerm) && MatchesStatus(u, filterStatus)
    ensures |FilteredUsers(users, searchTerm, filterStatus)| <= |users|
    ensures searchTerm == "" && filterStatus == AllStatuses ==> FilteredUsers(users, searchTerm, filterStatus) == users
  {
    var keep := v => MatchesSearch(v, searchTerm) && MatchesStatus(v, filterStatus);
    FilterIsSubsequence(users, keep);
    FilterMembers(users, keep, u);
    if searchTerm == "" && filterStatus == AllStatuses {
      assert forall i :: 0 <= i < |users| ==> keep(users[i]) by {
        forall i | 0 <= i < |users|
          ensures keep(users[i])
        {
          assert ToLower(searchTerm) <= ToLower(users[i].email);
        }
      }
      FilterKeepsAll(users, keep);
    }
  }

  /** The mapped list `handleStatusChange` installs: every user with that id
      takes the new status, every other user is kept as it was. */
  function WithStatus(users: seq<User>, id: int, status: string): (r: seq<User>)
    ensures |r| == |users|
    ensures forall i :: 0 <= i < |users| && users[i].id == id ==> r[i] == users[i].(status := status)
    ensures forall i :: 0 <= i < |users| && users[i].id != id ==> r[i] == users[i]
  {
    if |users| == 0 then []
    else [if users[0].id == id then users[0].(status := status) else users[0]] + WithStatus(users[1..], id, status)
  }

  /** Changing a user's status and changing it back restores the list, as
      long as every user with that id had the same status before. */
  lemma StatusChangeUndone(users: seq<User>, id: int, previous: string, status: string)
    requires forall i :: 0 <= i < |users| && users[i].id == id ==> users[i].status == previous
    ensures WithStatus(WithStatus(users, id, status), id, previous) == users
  {
    var once := WithStatus(users, id, status);
    var back := WithStatus(once, id, previous);
    assert forall i :: 0 <= i < |users| ==> back[i] == users[i] by {
      forall i | 0 <= i < |users|
        ensures back[i] == users[i]
      {
        assert once[i].id == users[i].id;
      }
    }
  }

  /** Picking the same status twice is the same as picking it once. */
  lemma StatusChangeIdempotent(users: seq<User>, id: int, status: string)
    ensures WithStatus(WithStatus(users, id, status), id, status) == WithStatus(users, id, status)
  {
    var once := WithStatus(users, id, status);
    var twice := WithStatus(once, id, status);
    assert forall i :: 0 <= i < |users| ==> twice[i] == once[i] by {
      forall i | 0 <= i < |users|
        ensures twice[i] == once[i]
      {
        assert once[i].id == users[i].id;
      }
    }
  }

  /** The filtered list `handleDeleteUser` installs. */
  function WithoutUser(users: seq<User>, id: int): seq<User> {
    Filter(users, (u: User) => u.id != id)
  }

  /** Deleting removes every user with that id and keeps every other user
      in order; deleting an id nobody has changes nothing. */
  lemma DeleteUserEffect(users: seq<User>, id: int, u: User)
    ensures IsSubsequence(WithoutUser(users, id), users)
    ensures u in WithoutUser(users, id) <==> u in users && u.id != id
    ensures (forall i :: 0 <= i < |users| ==> users[i].id != id) ==> WithoutUser(users, id) == users
  {
    var keep := (v: User) => v.id != id;
    FilterIsSubsequence(users, keep);
    FilterMembers(users, keep, u);
    if forall i :: 0 <= i < |users| ==> users[i].id != id {
      FilterKeepsAll(users, keep);
    }
  }

  /** A status change is lost once the user is deleted: deleting after the
      change leaves the same list as deleting straight away. */
  lemma {:induction false} DeleteAfterStatusChange(users: seq<User>, id: int, status: string)
    ensures WithoutUser(WithStatus(users, id, status), id) == WithoutUser(users, id)
    decreases |users|
  {
    if |users| > 0 {
      var changed := WithStatus(users, id, status);
      assert changed[1..] == WithStatus(users[1..], id, status);
      DeleteAfterStatusChange(users[1..], id, status);
    }
  }

  class UserAdmin {
    var users: seq<User>
    var searchTerm: string
    var filterStatus: string

    constructor()
      ensures users == [] && searchTerm == "" && filterStatus == AllStatuses
    {
      users := [];
      searchTerm := "";
      filterStatus := AllStatuses;
    }

    /** `fetchUsers`: the list the source supplies (a fixed sample). */
    method FetchUsers(fetched: seq<User>)
      modifies this
      ensures users == fetched && searchTerm == old(searchTerm) && filterStatus == old(filterStatus)
    {
      users := fetched;
    }

    method SetSearchTerm(term: string)
      modifies this
      ensures searchTerm == term && users == old(users) && filterStatus == old(filterStatus)
    {
      searchTerm := term;
    }

    method SetFilterStatus(status: string)
      modifies this
      ensures filterStatus == status && users == old(users) && searchTerm == old(searchTerm)
    {
      filterStatus := status;
    }

    /** `handleStatusChange` */
    method HandleStatusChange(id: int, status: string)
      modifies this
      ensures users == WithStatus(old(users), id, status)
      ensures searchTerm == old(searchTerm) && filterStatus == old(filterStatus)
    {
      users := WithStatus(users, id, status);
    }

    /** `handleDeleteUser`: only when the user confirms. */
    method HandleDeleteUser(id: int, confirmed: bool)
      modifies this
      ensures confirmed ==> users == WithoutUser(old(users), id)
      ensures !confirmed ==> users == old(users)
      ensures searchTerm == old(searchTerm) && filterStatus == old(filterStatus)
    {
      if confirmed {
        users := WithoutUser(users, id);
      }
    }

    /** The rows shown; the summary counts them. */
    function Shown(): seq<User>
      reads this
    {
      FilteredUsers(users, searchTerm, filterStatus)
    }
  }
}
