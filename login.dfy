/** The login form's credential rule. It is a mock check, modelled as
    written, not as a security property. */
module LoginPage {
  import opened Base
  import opened Seqs
  import opened Types
  import opened Store

  const AdminName := "admin"
  const AdminPassword := "admin"
  const SharedPassword := "123456"
  const LoginError := "Usuário ou senha inválidos, ou conta desativada."

  /** Rejected, or accepted with the record handed to `onLogin`; that record
      is absent when `admin`/`admin` is accepted and no user is called `admin`. */
  datatype LoginDecision = Rejected | Accepted(record: Option<User>)

  function ActiveNamed(username: string): User -> bool
  {
    (u: User) => u.username == username && u.active
  }

  function Named(username: string): User -> bool
  {
    (u: User) => u.username == username
  }

  /** `handleLogin`'s decision. */
  function CheckCredentials(users: seq<User>, username: string, password: string): (d: LoginDecision)
    ensures d.Accepted? <==>
              (username == AdminName && password == AdminPassword)
              || (password == SharedPassword && exists u :: u in users && u.username == username && u.active)
    ensures d.Accepted? && Find(users, ActiveNamed(username)).Some? ==>
              d.record == Find(users, ActiveNamed(username))
    ensures d.Accepted? && Find(users, ActiveNamed(username)).None? ==>
              username == AdminName && d.record == Find(users, Named(AdminName))
  {
    var user := Find(users, ActiveNamed(username));
    var isValidAdmin := username == AdminName && password == AdminPassword;
    var isValidOther := user.Some? && password == SharedPassword;
    if isValidAdmin || isValidOther then
      Accepted(if user.Some? then user else Find(users, Named(AdminName)))
    else
      Rejected
  }

  /** `admin`/`admin` gets in whatever the stored users are. */
  lemma AdminAlwaysAccepted(users: seq<User>)
    ensures CheckCredentials(users, AdminName, AdminPassword).Accepted?
  {
  }

  /** An account with no active record can never log in, unless it is
      `admin` with the built-in password. */
  lemma InactiveNeverLogsIn(users: seq<User>, username: string, password: string)
    requires forall u :: u in users && u.username == username ==> !u.active
    requires !(username == AdminName && password == AdminPassword)
    ensures CheckCredentials(users, username, password) == Rejected
  {
  }

  /** The record handed over is the first active account with the name. */
  lemma AcceptedRecordIsFirstActive(users: seq<User>, username: string, password: string, i: nat)
    requires i < |users| && users[i].username == username && users[i].active
    requires forall j :: 0 <= j < i ==> !(users[j].username == username && users[j].active)
    requires password == SharedPassword || (username == AdminName && password == AdminPassword)
    ensures CheckCredentials(users, username, password) == Accepted(Some(users[i]))
  {
    FindIsFirst(users, ActiveNamed(username), i);
  }

  /** With the seed accounts the reception account logs in with the shared
      password, and `admin`/`admin` hands over the seed administrator. */
  lemma SeedAccounts()
    ensures CheckCredentials(InitialUsers, "recepcao", SharedPassword) == Accepted(Some(InitialUsers[1]))
    ensures CheckCredentials(InitialUsers, "recepcao", AdminPassword) == Rejected
    ensures CheckCredentials(InitialUsers, AdminName, AdminPassword) == Accepted(Some(InitialUsers[0]))
  {
    AcceptedRecordIsFirstActive(InitialUsers, "recepcao", SharedPassword, 1);
    AcceptedRecordIsFirstActive(InitialUsers, AdminName, AdminPassword, 0);
  }

  /** `admin`/`admin` with no user named `admin` hands over no record at all. */
  lemma AdminWithoutRecord(users: seq<User>)
    requires forall u :: u in users ==> u.username != AdminName
    ensures CheckCredentials(users, AdminName, AdminPassword) == Accepted(None)
  {
  }

  class LoginForm {
    var error: string

    constructor ()
      ensures error == ""
    {
      error := "";
    }

    /** `handleLogin`: read the users, decide, and on rejection show the
        error; on acceptance the caller passes the record to `onLogin`. */
    method HandleLogin(store: Storage, username: string, password: string)
      returns (decision: Result<LoginDecision, Fault>)
      modifies this
      ensures GetUsers(store.entries).Failure? ==>
                decision == Failure(GetUsers(store.entries).error) && error == old(error)
      ensures GetUsers(store.entries).Success? ==>
                decision == Success(CheckCredentials(GetUsers(store.entries).value, username, password))
      ensures decision == Success(Rejected) ==> error == LoginError
      ensures decision.Success? && decision.value.Accepted? ==> error == old(error)
    {
      var users := GetUsers(store.entries);
      if users.Failure? {
        return Failure(users.error);
      }
      var d := CheckCredentials(users.value, username, password);
      if d.Rejected? {
        error := LoginError;
      }
      decision := Success(d);
    }
  }
}
