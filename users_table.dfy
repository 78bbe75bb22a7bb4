/**
 * The admin users table (src/app/dashboard/users/components/UsersTable.tsx):
 * a search box and a role filter over the list it holds, and the list
 * edits made by delete, by the update modal and after a payment.
 *
 * Requests and toasts are recorded in `effects`; what the server answers
 * is a parameter. The browser's `confirm` answer is the parameter
 * `confirmed`.
 */
module UsersTable {
  import opened Options
  import opened Seqs
  import opened Text

  datatype IUser = IUser(
    id: string,
    name: Option<string>,
    email: Option<string>,
    phone: string,
    role: string,
    image: Option<string>,
    hasPayment: bool,
    createdAt: string)

  const AllRoles: string := "all"

  /**
   * The search test: the lower-cased term in the lower-cased name or
   * email, when present, or the raw term in the phone number.
   */
  predicate MatchesSearch(u: IUser, searchTerm: string)
  {
    var term := Lower(searchTerm);
    || (u.name.Some? && Contains(Lower(u.name.value), term))
    || Contains(u.phone, searchTerm)
    || (u.email.Some? && Contains(Lower(u.email.value), term))
  }

  /** The role test: "all", or exactly the user's role. */
  predicate MatchesRole(u: IUser, filterRole: string)
  {
    filterRole == AllRoles || u.role == filterRole
  }

  /** `filteredUsers`: the users passing both tests, in list order. */
  function FilterUsers(users: seq<IUser>, searchTerm: string, filterRole: string): (r: seq<IUser>)
    ensures IsSubsequence(r, users)
    ensures forall u :: u in r <==> u in users && MatchesSearch(u, searchTerm) && MatchesRole(u, filterRole)
    ensures forall i :: 0 <= i < |r| ==> MatchesSearch(r[i], searchTerm) && MatchesRole(r[i], filterRole)
    ensures forall u :: multiset(r)[u] == if MatchesSearch(u, searchTerm) && MatchesRole(u, filterRole) then multiset(users)[u] else 0
    ensures |r| <= |users|
  {
    Filter(users, u => MatchesSearch(u, searchTerm) && MatchesRole(u, filterRole))
  }

  /** With the empty search and "all" roles, every user is listed. */
  lemma EmptySearchKeepsAll(users: seq<IUser>)
    ensures FilterUsers(users, "", AllRoles) == users
  {
    forall u | u in users
      ensures MatchesSearch(u, "") && MatchesRole(u, AllRoles)
    {
      ContainsEmpty(u.phone);
    }
    FilterAll(users, u => MatchesSearch(u, "") && MatchesRole(u, AllRoles));
  }

  /**
   * Name and email matching ignores case: a user whose name or email
   * holds some term is found by every spelling of that term that
   * lower-cases the same ("RAHIM", "rahim", "Rahim").
   */
  lemma {:induction false} SearchIgnoresCaseOfName(u: IUser, term: string, searchTerm: string)
    requires (u.name.Some? && Contains(u.name.value, term)) || (u.email.Some? && Contains(u.email.value, term))
    requires Lower(searchTerm) == Lower(term)
    ensures MatchesSearch(u, searchTerm)
  {
    if u.name.Some? && Contains(u.name.value, term) {
      ContainsLower(u.name.value, term);
    } else {
      ContainsLower(u.email.value, term);
    }
  }

  /** A user without a name or an email can match only through the remaining defined field or the phone. */
  lemma MissingFieldsCannotMatch(u: IUser, searchTerm: string)
    ensures u.name.None? ==>
      (MatchesSearch(u, searchTerm) <==>
        Contains(u.phone, searchTerm) || (u.email.Some? && Contains(Lower(u.email.value), Lower(searchTerm))))
    ensures u.email.None? ==>
      (MatchesSearch(u, searchTerm) <==>
        Contains(u.phone, searchTerm) || (u.name.Some? && Contains(Lower(u.name.value), Lower(searchTerm))))
    ensures u.name.None? && u.email.None? ==> (MatchesSearch(u, searchTerm) <==> Contains(u.phone, searchTerm))
  {
  }

  /** `users.filter((u: IUser) => u.id !== id)`. */
  function RemoveById(users: seq<IUser>, id: string): (r: seq<IUser>)
    ensures IsSubsequence(r, users)
    ensures forall u :: u in r ==> u.id != id
    ensures forall u: IUser :: u.id != id ==> multiset(r)[u] == multiset(users)[u]
  {
    Filter(users, (u: IUser) => u.id != id)
  }

  /** Deleting an id no user has leaves the list as it was. */
  lemma RemoveAbsentId(users: seq<IUser>, id: string)
    requires forall u :: u in users ==> u.id != id
    ensures RemoveById(users, id) == users
  {
    FilterAll(users, (u: IUser) => u.id != id);
  }

  /** `users.map(u => (u.id === updated.id ? updated : u))`. */
  function ReplaceById(users: seq<IUser>, updated: IUser): (r: seq<IUser>)
    ensures |r| == |users|
    ensures forall i :: 0 <= i < |users| ==> r[i].id == users[i].id
    ensures forall i :: 0 <= i < |users| && users[i].id == updated.id ==> r[i] == updated
    ensures forall i :: 0 <= i < |users| && users[i].id != updated.id ==> r[i] == users[i]
  {
    if users == [] then []
    else [if users[0].id == updated.id then updated else users[0]] + ReplaceById(users[1..], updated)
  }

  /** Replacing twice with the same user is replacing once. */
  lemma ReplaceIdempotent(users: seq<IUser>, updated: IUser)
    ensures ReplaceById(ReplaceById(users, updated), updated) == ReplaceById(users, updated)
  {
  }

  /** The replacement touches only the entries with that id: without them the list is the same. */
  lemma {:induction false} RemoveAfterReplace(users: seq<IUser>, updated: IUser)
    ensures RemoveById(ReplaceById(users, updated), updated.id) == RemoveById(users, updated.id)
  {
    if users != [] {
      RemoveAfterReplace(users[1..], updated);
      var r := ReplaceById(users, updated);
      assert r[1..] == ReplaceById(users[1..], updated);
      assert Filter(r, (u: IUser) => u.id != updated.id) ==
        (if r[0].id != updated.id then [r[0]] else []) + Filter(r[1..], (u: IUser) => u.id != updated.id);
    }
  }

  /** The session token is `undefined` before sign-in and is passed on as it is. */
  datatype Effect = DeleteUser(token: Option<string>, id: string) | GetAllUsers(token: Option<string>) | Notify(toast: Toast)

  const DeletedMessage: string := "User deleted successfully!"
  const DeleteFailedMessage: string := "Failed to delete user"

  /** The list and the effects a call of `handleDelete` leaves behind. */
  datatype DeleteOutcome = DeleteOutcome(users: seq<IUser>, effects: seq<Effect>)

  /**
   * `handleDelete` as written: the user service the component imports has
   * no `deleteUser`, so a confirmed delete throws before any request is
   * sent, lands in the `catch`, and only shows the error toast.
   */
  function DeleteAsWritten(users: seq<IUser>, confirmed: bool): (r: DeleteOutcome)
    ensures r.users == users
    ensures !confirmed ==> r.effects == []
    ensures confirmed ==> r.effects == [Notify(ToastError(DeleteFailedMessage))]
  {
    if confirmed then DeleteOutcome(users, [Notify(ToastError(DeleteFailedMessage))])
    else DeleteOutcome(users, [])
  }

  /**
   * `handleDelete` as intended: one delete request, and when the server
   * accepts it (`ok`) the users with that id leave the list.
   */
  function DeleteIntended(users: seq<IUser>, token: Option<string>, id: string, confirmed: bool, ok: bool)
    : (r: DeleteOutcome)
    ensures !confirmed ==> r == DeleteOutcome(users, [])
    ensures confirmed ==> |r.effects| == 2 && r.effects[0] == DeleteUser(token, id)
    ensures confirmed && ok ==> r.users == RemoveById(users, id) && r.effects[1] == Notify(ToastSuccess(DeletedMessage))
    ensures confirmed && !ok ==> r.users == users && r.effects[1] == Notify(ToastError(DeleteFailedMessage))
  {
    if !confirmed then DeleteOutcome(users, [])
    else if ok then DeleteOutcome(RemoveById(users, id), [DeleteUser(token, id), Notify(ToastSuccess(DeletedMessage))])
    else DeleteOutcome(users, [DeleteUser(token, id), Notify(ToastError(DeleteFailedMessage))])
  }

  /**
   * The discrepancy: as written, confirming the delete of a listed user
   * sends no request and keeps that user, where the intended handler,
   * with the server accepting, removes it.
   */
  lemma DeleteNeverRemoves(users: seq<IUser>, token: Option<string>, u: IUser)
    requires u in users
    ensures u in DeleteAsWritten(users, true).users
    ensures DeleteUser(token, u.id) !in DeleteAsWritten(users, true).effects
    ensures u !in DeleteIntended(users, token, u.id, true, true).users
  {
  }

  class Table {
    const token: Option<string>
    var users: seq<IUser>
    var searchTerm: string
    var filterRole: string
    var updateModalOpen: bool
    var paymentModalOpen: bool
    var selectedUser: Option<IUser>
    var effects: seq<Effect>

    /** Either modal is open only over a selected user. */
    ghost predicate Valid()
      reads this
    {
      updateModalOpen || paymentModalOpen ==> selectedUser.Some?
    }

    /** The rows on screen. */
    function Filtered(): (r: seq<IUser>)
      reads this
      ensures IsSubsequence(r, users)
    {
      FilterUsers(users, searchTerm, filterRole)
    }

    constructor (initialUsers: seq<IUser>, token: Option<string>)
      ensures Valid() && this.token == token
      ensures users == initialUsers && searchTerm == "" && filterRole == AllRoles
      ensures !updateModalOpen && !paymentModalOpen && selectedUser == None && effects == []
      ensures Filtered() == initialUsers
    {
      this.token := token;
      users := initialUsers;
      searchTerm := "";
      filterRole := AllRoles;
      updateModalOpen, paymentModalOpen := false, false;
      selectedUser := None;
      effects := [];
      EmptySearchKeepsAll(initialUsers);
    }

    method SetSearchTerm(term: string)
      requires Valid()
      modifies this`searchTerm
      ensures Valid() && searchTerm == term
    {
      searchTerm := term;
    }

    method SetFilterRole(role: string)
      requires Valid()
      modifies this`filterRole
      ensures Valid() && filterRole == role
    {
      filterRole := role;
    }

    /** `handleDelete` as written: see `DeleteAsWritten`. */
    method HandleDelete(id: string, confirmed: bool)
      requires Valid()
      modifies this`users, this`effects
      ensures Valid()
      ensures users == DeleteAsWritten(old(users), confirmed).users
      ensures effects == old(effects) + DeleteAsWritten(old(users), confirmed).effects
    {
      if confirmed {
        effects := effects + [Notify(ToastError(DeleteFailedMessage))];
      }
    }

    /** `handleDelete` once the service provides `deleteUser`: see `DeleteIntended`. */
    method HandleDeleteIntended(id: string, confirmed: bool, ok: bool)
      requires Valid()
      modifies this`users, this`effects
      ensures Valid()
      ensures users == DeleteIntended(old(users), token, id, confirmed, ok).users
      ensures effects == old(effects) + DeleteIntended(old(users), token, id, confirmed, ok).effects
    {
      if !confirmed {
        return;
      }
      effects := effects + [DeleteUser(token, id)];
      if ok {
        users := RemoveById(users, id);
        effects := effects + [Notify(ToastSuccess(DeletedMessage))];
      } else {
        effects := effects + [Notify(ToastError(DeleteFailedMessage))];
      }
    }

    method OpenUpdateModal(u: IUser)
      requires Valid()
      modifies this`selectedUser, this`updateModalOpen
      ensures Valid() && selectedUser == Some(u) && updateModalOpen
    {
      selectedUser := Some(u);
      updateModalOpen := true;
    }

    method OpenPaymentModal(u: IUser)
      requires Valid()
      modifies this`selectedUser, this`paymentModalOpen
      ensures Valid() && selectedUser == Some(u) && paymentModalOpen
    {
      selectedUser := Some(u);
      paymentModalOpen := true;
    }

    method CloseUpdateModal()
      requires Valid()
      modifies this`updateModalOpen
      ensures Valid() && !updateModalOpen
    {
      updateModalOpen := false;
    }

    method ClosePaymentModal()
      requires Valid()
      modifies this`paymentModalOpen
      ensures Valid() && !paymentModalOpen
    {
      paymentModalOpen := false;
    }

    /** The update modal's `onUpdate`: replace the entries with that id and close. */
    method OnUpdate(updated: IUser)
      requires Valid()
      modifies this`users, this`updateModalOpen
      ensures Valid()
      ensures users == ReplaceById(old(users), updated) && !updateModalOpen
    {
      users := ReplaceById(users, updated);
      updateModalOpen := false;
    }

    /**
     * The payment modal's `onPaymentSuccess`: refetch all users and take the
     * answer as the new list; a failed refetch rejects and changes nothing.
     */
    method OnPaymentSuccess(reply: Option<seq<IUser>>)
      requires Valid()
      modifies this`users, this`effects
      ensures Valid()
      ensures effects == old(effects) + [GetAllUsers(token)]
      ensures users == reply.GetOr(old(users))
    {
      effects := effects + [GetAllUsers(token)];
      if reply.Some? {
        users := reply.value;
      }
    }
  }
}
