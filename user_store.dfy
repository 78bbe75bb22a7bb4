/**
 * The zustand store that holds the signed-in user (src/stores/userStore.ts).
 */
module UserStore {
  import opened Options

  datatype User = User(
    id: string,
    name: string,
    fatherName: string,
    email: string,
    phone: int,
    image: Option<string>,
    role: Option<string>)

  /** The two updates the store offers. */
  datatype Update = SetUser(user: User) | ClearUser

  /** The `user` field after `set` merges in an update. */
  function Apply(current: Option<User>, u: Update): (r: Option<User>)
    ensures u.SetUser? ==> r == Some(u.user)
    ensures u.ClearUser? ==> r == None
  {
    match u
    case SetUser(user) => Some(user)
    case ClearUser => None
  }

  /** Each update overwrites: the state before it does not matter. */
  lemma UpdateForgetsPrevious(a: Option<User>, b: Option<User>, u: Update)
    ensures Apply(a, u) == Apply(b, u)
  {
  }

  /** Clearing twice is clearing once; setting twice keeps the last user. */
  lemma UpdatesAbsorb(s: Option<User>, x: User, y: User)
    ensures Apply(Apply(s, ClearUser), ClearUser) == Apply(s, ClearUser)
    ensures Apply(Apply(s, SetUser(x)), SetUser(y)) == Some(y)
    ensures Apply(Apply(s, SetUser(x)), ClearUser) == None
  {
  }

  class Store {
    var user: Option<User>

    /** `create(...)`: the store starts with no user. */
    constructor ()
      ensures user == None
    {
      user := None;
    }

    method SetUser(u: User)
      modifies this
      ensures user == Apply(old(user), Update.SetUser(u))
      ensures user == Some(u)
    {
      user := Some(u);
    }

    method ClearUser()
      modifies this
      ensures user == Apply(old(user), Update.ClearUser)
      ensures user == None
    {
      user := None;
    }
  }
}
