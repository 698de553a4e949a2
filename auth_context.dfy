/** The officer session of the dashboard: restoring the saved session at
    start-up (or signing in the first officer for the demo), login against
    the officer list with the one demo password, signup of a new officer,
    and logout. The browser's saved session is the field `storedUser`; the
    officer list, which signup extends, is the field `officers`. */
module Auth {
  import opened Collections
  import opened JsText
  import opened MockData

  /** The password every officer logs in with. */
  const DEMO_PASSWORD: string := "password123"

  /** The role given to every officer created by signup. */
  const SIGNUP_ROLE: string := "Tourism Safety Officer"

  /** `officers.some(o => o.email === email)`. */
  predicate EmailTaken(officers: seq<Officer>, email: string)
  {
    exists i :: 0 <= i < |officers| && officers[i].email == email
  }

  /** `officers.find(o => o.email === email)`: the first officer with that
      email, `None` (undefined) when there is none. */
  function FindByEmail(officers: seq<Officer>, email: string): (r: Option<Officer>)
    ensures r.Some? <==> EmailTaken(officers, email)
    ensures r.Some? ==>
      exists i :: (0 <= i < |officers| && officers[i] == r.value && officers[i].email == email
                   && forall j :: 0 <= j < i ==> officers[j].email != email)
  {
    if officers == [] then None
    else if officers[0].email == email then Some(officers[0])
    else
      var r := FindByEmail(officers[1..], email);
      if r.Some? then
        assert forall i :: 0 <= i < |officers| - 1 ==> officers[1..][i] == officers[i + 1];
        r
      else
        None
  }

  /** With unique emails, looking up an officer's email finds that officer. */
  lemma FindRegistered(officers: seq<Officer>, o: Officer)
    requires KeysUnique(officers, OfficerEmail) && o in officers
    ensures FindByEmail(officers, o.email) == Some(o)
  {
    var r := FindByEmail(officers, o.email);
    assert r.Some? by {
      var k :| 0 <= k < |officers| && officers[k] == o;
    }
    KeysUniqueSameKey(officers, OfficerEmail, r.value, o);
  }

  /** Appending an officer leaves every earlier lookup as it was and makes
      the new officer the answer for an email nobody had. */
  lemma {:induction false} FindAfterAppend(officers: seq<Officer>, o: Officer, email: string)
    ensures FindByEmail(officers + [o], email) ==
      if EmailTaken(officers, email) then FindByEmail(officers, email)
      else if o.email == email then Some(o)
      else None
  {
    if officers == [] {
      assert [] + [o] == [o];
      assert [o][1..] == [];
    } else {
      assert (officers + [o])[1..] == officers[1..] + [o];
      FindAfterAppend(officers[1..], o, email);
      if officers[0].email != email {
        assert EmailTaken(officers, email) <==> EmailTaken(officers[1..], email) by {
          if EmailTaken(officers, email) {
            var i :| 0 <= i < |officers| && officers[i].email == email;
            assert officers[1..][i - 1] == officers[i];
          }
          if EmailTaken(officers[1..], email) {
            var i :| 0 <= i < |officers[1..]| && officers[1..][i].email == email;
            assert officers[i + 1] == officers[1..][i];
          }
        }
      }
    }
  }

  /** Login succeeds exactly for a listed email with the demo password, and
      signs in the first officer with that email. */
  function LoginResult(officers: seq<Officer>, email: string, password: string): (r: Option<Officer>)
    ensures r.Some? <==> EmailTaken(officers, email) && password == DEMO_PASSWORD
    ensures r.Some? ==> r.value in officers && r.value.email == email
  {
    if password == DEMO_PASSWORD then FindByEmail(officers, email) else None
  }

  /** Any password other than the demo one is refused, whatever the email. */
  lemma WrongPasswordRefused(officers: seq<Officer>, email: string, password: string)
    requires password != DEMO_PASSWORD
    ensures LoginResult(officers, email, password) == None
  {
  }

  /** The officer created by signup at time `now` (milliseconds): id
      "OFF<now>", the given name, email and department, and the signup role. */
  function NewOfficer(now: nat, name: string, email: string, deptId: string): (r: Officer)
    ensures r.email == email && r.name == name && r.deptId == deptId
    ensures r.role == SIGNUP_ROLE
    ensures StartsWith(r.id, "OFF") && ParseInt(r.id[3..]) == Some(now)
  {
    var id := "OFF" + DecimalString(now);
    assert id[3..] == DecimalString(now) + [];
    ParseDecimal(now, []);
    Officer(id, name, email, deptId, SIGNUP_ROLE)
  }

  /** After a successful signup the new officer can log in with the demo
      password, a second signup with the same email is refused, and the
      login of every earlier officer is unchanged. */
  lemma SignupThenLogin(officers: seq<Officer>, n: Officer, email: string)
    requires !EmailTaken(officers, n.email)
    ensures LoginResult(officers + [n], n.email, DEMO_PASSWORD) == Some(n)
    ensures EmailTaken(officers + [n], n.email)
    ensures email != n.email ==>
      LoginResult(officers + [n], email, DEMO_PASSWORD) == LoginResult(officers, email, DEMO_PASSWORD)
  {
    FindAfterAppend(officers, n, n.email);
    FindAfterAppend(officers, n, email);
  }

  /** The two seeded officers log in with their own emails; an unknown email
      does not. */
  lemma SeededLogins()
    ensures LoginResult(MOCK_OFFICERS, "rajesh.kumar@tourism.gov.in", DEMO_PASSWORD) == Some(MOCK_OFFICERS[0])
    ensures LoginResult(MOCK_OFFICERS, "priya.sharma@tourism.gov.in", DEMO_PASSWORD) == Some(MOCK_OFFICERS[1])
    ensures LoginResult(MOCK_OFFICERS, "nobody@tourism.gov.in", DEMO_PASSWORD) == None
  {
    SeededKeysUnique();
    FindRegistered(MOCK_OFFICERS, MOCK_OFFICERS[0]);
    FindRegistered(MOCK_OFFICERS, MOCK_OFFICERS[1]);
    assert !EmailTaken(MOCK_OFFICERS, "nobody@tourism.gov.in") by {
      assert MOCK_OFFICERS[0].email != "nobody@tourism.gov.in";
      assert MOCK_OFFICERS[1].email != "nobody@tourism.gov.in";
    }
  }

  /** The session provider. `user` is the signed-in officer (null as `None`),
      `storedUser` the saved session, `officers` the officer list that login
      searches and signup extends. */
  class AuthProvider {
    var user: Option<Officer>
    var isLoading: bool
    var storedUser: Option<Officer>
    var officers: seq<Officer>

    /** The officer list is never empty, so start-up always has a default
        officer to sign in. */
    ghost predicate Valid()
      reads this
    {
      |officers| > 0
    }

    /** The provider as first rendered: nobody signed in, loading. */
    constructor (initialOfficers: seq<Officer>, saved: Option<Officer>)
      requires |initialOfficers| > 0
      ensures Valid()
      ensures user == None && isLoading
      ensures storedUser == saved && officers == initialOfficers
    {
      user := None;
      isLoading := true;
      storedUser := saved;
      officers := initialOfficers;
    }

    /** The start-up effect: a saved session is resumed; otherwise the first
        officer is signed in and saved. Loading ends either way. */
    method Restore()
      requires Valid()
      modifies this`user, this`storedUser, this`isLoading
      ensures Valid()
      ensures old(storedUser).Some? ==> user == old(storedUser) && storedUser == old(storedUser)
      ensures old(storedUser).None? ==> user == Some(officers[0]) && storedUser == user
      ensures user.Some? && storedUser == user && !isLoading
    {
      if storedUser.Some? {
        user := storedUser;
      } else {
        user := Some(officers[0]);
        storedUser := user;
      }
      isLoading := false;
    }

    /** `login`: on a listed email with the demo password, sign in and save
        the first officer with that email; otherwise change nothing. */
    method Login(email: string, password: string) returns (ok: bool)
      modifies this`user, this`storedUser, this`isLoading
      ensures ok <==> EmailTaken(officers, email) && password == DEMO_PASSWORD
      ensures ok ==> user == FindByEmail(officers, email) && storedUser == user
      ensures !ok ==> user == old(user) && storedUser == old(storedUser)
      ensures !isLoading
    {
      isLoading := true;
      var officer := FindByEmail(officers, email);
      if officer.Some? && password == DEMO_PASSWORD {
        user := officer;
        storedUser := officer;
        isLoading := false;
        return true;
      }
      isLoading := false;
      return false;
    }

    /** `signup`: refuse an email already listed; otherwise append a new
        officer with id "OFF<now>", sign it in and save it. The password is
        not stored or checked. */
    method Signup(name: string, deptId: string, email: string, password: string, now: nat)
      returns (ok: bool)
      requires Valid()
      modifies this`user, this`storedUser, this`isLoading, this`officers
      ensures Valid()
      ensures ok <==> !EmailTaken(old(officers), email)
      ensures ok ==> officers == old(officers) + [NewOfficer(now, name, email, deptId)]
      ensures ok ==> user == Some(NewOfficer(now, name, email, deptId)) && storedUser == user
      ensures !ok ==> officers == old(officers) && user == old(user) && storedUser == old(storedUser)
      ensures KeysUnique(old(officers), OfficerEmail) ==> KeysUnique(officers, OfficerEmail)
      ensures !isLoading
    {
      isLoading := true;
      if EmailTaken(officers, email) {
        isLoading := false;
        return false;
      }
      var n := NewOfficer(now, name, email, deptId);
      if KeysUnique(officers, OfficerEmail) {
        forall y | y in officers
          ensures OfficerEmail(y) != OfficerEmail(n)
        {
          var i :| 0 <= i < |officers| && officers[i] == y;
        }
        KeysUniqueAppend(officers, n, OfficerEmail);
      }
      officers := officers + [n];
      user := Some(n);
      storedUser := user;
      isLoading := false;
      return true;
    }

    /** `logout`: nobody is signed in and the saved session is removed. */
    method Logout()
      modifies this`user, this`storedUser
      ensures user == None && storedUser == None
    {
      user := None;
      storedUser := None;
    }
  }
}
