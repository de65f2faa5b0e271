/** The root app's Users page: the user list, a name search, deletion and
    the pager buttons. */
module UsersPage {
  import opened Wrappers
  import opened Text
  import opened Seqs
  import UserModel

  datatype UserRow = UserRow(id: string, name: string, email: string, role: string, createdAt: string)

  /** The search callback: the lowercased name contains the lowercased term. */
  function NameMatches(term: string): UserRow -> bool {
    (u: UserRow) => Contains(ToLower(u.name), ToLower(term))
  }

  /** `filteredUsers` */
  function FilteredUsers(users: seq<UserRow>, term: string): seq<UserRow> {
    Filter(users, NameMatches(term))
  }

  /** A user is listed exactly when the name matches, and the list keeps
      the original order. */
  lemma FilteredMeaning(users: seq<UserRow>, term: string, u: UserRow)
    ensures u in FilteredUsers(users, term) <==> u in users && Contains(ToLower(u.name), ToLower(term))
    ensures IsSubsequence(FilteredUsers(users, term), users)
  {
    FilterMembership(users, NameMatches(term), u);
    FilterIsSubsequence(users, NameMatches(term));
  }

  /** An empty search lists everyone. */
  lemma EmptySearchShowsAll(users: seq<UserRow>)
    ensures FilteredUsers(users, "") == users
  {
    forall i | 0 <= i < |users|
      ensures NameMatches("")(users[i])
    {
      ContainsEmpty(ToLower(users[i].name));
    }
    FilterAll(users, NameMatches(""));
  }

  /** The `prev.filter(u => u._id !== id)` callback. */
  function OtherThan(id: string): UserRow -> bool {
    (u: UserRow) => u.id != id
  }

  /** After a delete exactly the rows with other ids remain, in order. */
  lemma DeleteMeaning(users: seq<UserRow>, id: string, u: UserRow)
    ensures u in Filter(users, OtherThan(id)) <==> u in users && u.id != id
    ensures IsSubsequence(Filter(users, OtherThan(id)), users)
  {
    FilterMembership(users, OtherThan(id), u);
    FilterIsSubsequence(users, OtherThan(id));
  }

  /** `getRoleBadge`'s class. */
  function RoleBadge(role: string): string {
    if role == "Admin" then "bg-primary text-primary-foreground"
    else if role == "Manager" then "bg-accent text-accent-foreground"
    else "bg-muted text-muted-foreground"
  }

  /** The three stored roles get three different badges. */
  lemma BadgesTellRolesApart(a: UserModel.Role, b: UserModel.Role)
    ensures RoleBadge(UserModel.RoleName(a)) == RoleBadge(UserModel.RoleName(b)) <==> a == b
  {
  }

  /** The answer of `fetch("/api/users")`: a parsed list, or the message of
      the error thrown (a non-ok status throws "Failed to fetch users"). */
  datatype ListReply = Listed(data: seq<UserRow>) | FetchFailed(message: string)

  class Page {
    var users: seq<UserRow>
    var searchTerm: string
    var currentPage: int
    /** Descriptions of the toasts shown so far. */
    var toasts: seq<string>

    ghost predicate Valid()
      reads this
    {
      currentPage >= 1
    }

    constructor()
      ensures Valid()
      ensures users == [] && searchTerm == "" && currentPage == 1 && toasts == []
    {
      users := [];
      searchTerm := "";
      currentPage := 1;
      toasts := [];
    }

    /** The rows on screen; the page number plays no part. */
    function Rows(): seq<UserRow>
      reads this
    {
      FilteredUsers(users, searchTerm)
    }

    predicate PreviousDisabled()
      reads this
    {
      currentPage == 1
    }

    /** `fetchUsers` */
    method FetchUsers(reply: ListReply)
      modifies this`users, this`toasts
      ensures reply.Listed? ==> users == reply.data && toasts == old(toasts)
      ensures reply.FetchFailed? ==>
                (users == old(users) && toasts == old(toasts) + [Or(Some(reply.message), "Failed to load users")])
    {
      match reply {
        case Listed(data) =>
          users := data;
        case FetchFailed(message) =>
          toasts := toasts + [Or(Some(message), "Failed to load users")];
      }
    }

    /** `handleDelete`. `failure` is the message of the error the request
        threw (a non-ok status throws "Failed to delete user"), or None when
        the delete went through; only a successful request touches the list. */
    method HandleDelete(id: string, failure: Option<string>)
      modifies this`users, this`toasts
      ensures failure.None? ==> users == Filter(old(users), OtherThan(id))
                                && toasts == old(toasts) + ["User removed successfully."]
      ensures failure.Some? ==> users == old(users) && toasts == old(toasts) + [Or(failure, "Delete failed")]
      ensures forall u :: u in users ==> u in old(users)
      ensures failure.None? ==> forall u :: u in users ==> u.id != id
    {
      if failure.None? {
        users := Filter(users, OtherThan(id));
        toasts := toasts + ["User removed successfully."];
      } else {
        toasts := toasts + [Or(failure, "Delete failed")];
      }
    }

    method SetSearchTerm(term: string)
      modifies this`searchTerm
      ensures searchTerm == term
    {
      searchTerm := term;
    }

    /** The "previous" button; it can only be clicked when enabled. */
    method Previous()
      requires Valid() && !PreviousDisabled()
      modifies this`currentPage
      ensures Valid() && currentPage == old(currentPage) - 1
      ensures Rows() == old(Rows())
    {
      currentPage := currentPage - 1;
    }

    /** The "next" button. */
    method Next()
      requires Valid()
      modifies this`currentPage
      ensures Valid() && currentPage == old(currentPage) + 1 && !PreviousDisabled()
      ensures Rows() == old(Rows())
    {
      currentPage := currentPage + 1;
    }

    /** The numbered buttons "1" and "2". */
    method GoTo(page: int)
      requires page == 1 || page == 2
      modifies this`currentPage
      ensures Valid() && currentPage == page
      ensures PreviousDisabled() <==> page == 1
      ensures Rows() == old(Rows())
    {
      currentPage := page;
    }
  }
}
