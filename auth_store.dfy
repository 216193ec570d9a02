/**
 * The mock authentication store (`lib/store/useAuthStore.ts`): a signed-in
 * user or none, and a flag that says which. Login and registration accept
 * any non-empty email with a password of at least six characters; the
 * user's id is random and is a parameter here.
 */
module AuthStore {
  import opened Wrappers
  import opened Text

  datatype User = User(id: string, email: string, name: string)

  /** `email.split("@")[0]`: the text before the first "@", or the whole email without one. */
  function LocalPart(email: string): (r: string)
    ensures r <= email && '@' !in r
    ensures |r| < |email| ==> email[|r|] == '@'
  {
    SplitFirstPrefix(email, '@');
    Split(email, '@')[0]
  }

  /** The local part of `name@domain` is `name`. */
  lemma LocalPartOf(name: string, domain: string)
    requires '@' !in name
    ensures LocalPart(name + "@" + domain) == name
  {
    SplitFirst(name, domain, '@');
  }

  /** The credentials the mock accepts: a non-empty email and a password of six UTF-16 code units or more. */
  predicate Accepted(email: string, password: string) {
    email != "" && Utf16Length(password) >= 6
  }

  /** Three characters outside the Basic Multilingual Plane make a password of six code units. */
  lemma AstralPasswordAccepted()
    ensures Accepted("a@b", "\U{1F600}\U{1F600}\U{1F600}")
    ensures !Accepted("a@b", "abcde")
  {
    var p := "\U{1F600}\U{1F600}\U{1F600}";
    assert p[1..][1..][1..] == [];
  }

  /** The name a registration records: the given one when non-empty, else the email's local part. */
  function RegisteredName(email: string, name: Option<string>): (r: string)
    ensures name.Some? && name.value != "" ==> r == name.value
    ensures name.None? || name.value == "" ==> r == LocalPart(email)
  {
    if name.Some? && name.value != "" then name.value else LocalPart(email)
  }

  class Auth {
    var user: Option<User>
    var isAuthenticated: bool

    /** The flag says whether a user is signed in. */
    predicate Valid()
      reads this
    {
      isAuthenticated <==> user.Some?
    }

    constructor ()
      ensures user.None? && !isAuthenticated && Valid()
    {
      user := None;
      isAuthenticated := false;
    }

    /**
     * `login`: accepted credentials sign in a user named after the email's
     * local part; rejected ones return false and change nothing.
     */
    method Login(email: string, password: string, freshId: string) returns (ok: bool)
      requires Valid()
      modifies this
      ensures Valid()
      ensures ok <==> Accepted(email, password)
      ensures ok ==> user == Some(User(freshId, email, LocalPart(email))) && isAuthenticated
      ensures !ok ==> user == old(user) && isAuthenticated == old(isAuthenticated)
    {
      if email != "" && Utf16Length(password) >= 6 {
        user := Some(User(freshId, email, Split(email, '@')[0]));
        isAuthenticated := true;
        return true;
      }
      return false;
    }

    /** `register`: like login, but the given name is recorded when it is not empty. */
    method Register(email: string, password: string, name: Option<string>, freshId: string) returns (ok: bool)
      requires Valid()
      modifies this
      ensures Valid()
      ensures ok <==> Accepted(email, password)
      ensures ok ==> user == Some(User(freshId, email, RegisteredName(email, name))) && isAuthenticated
      ensures !ok ==> user == old(user) && isAuthenticated == old(isAuthenticated)
    {
      if email != "" && Utf16Length(password) >= 6 {
        var recorded := if name.Some? && name.value != "" then name.value else Split(email, '@')[0];
        user := Some(User(freshId, email, recorded));
        isAuthenticated := true;
        return true;
      }
      return false;
    }

    /** `logout`: nobody is signed in afterwards. */
    method Logout()
      modifies this
      ensures user.None? && !isAuthenticated && Valid()
    {
      user := None;
      isAuthenticated := false;
    }
  }

  /** Registering without a name records the same user a login would. */
  lemma RegisterWithoutName(email: string)
    ensures RegisteredName(email, None) == LocalPart(email)
    ensures RegisteredName(email, Some("")) == LocalPart(email)
  {
  }
}
