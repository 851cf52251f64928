/**
 * Account registration: a username and an email may each belong to one
 * account only, the password must pass the configured validators, and a new
 * account starts with a welcome notification.
 */
module UserServices {
  import opened Common
  import opened Text
  import opened UserModels
  import opened RewardsModels
  import opened Database
  import opened RewardsServices

  const UsernameTakenMessage := "El nombre de usuario ya existe."
  const EmailTakenMessage := "Ya existe un usuario con este email."

  predicate UsernameTaken(users: map<nat, User>, username: string) {
    exists id :: id in users && users[id].username == username
  }

  predicate EmailTaken(users: map<nat, User>, email: string) {
    exists id :: id in users && users[id].email == email
  }

  /**
   * Why registration is refused, if it is: the username check comes first,
   * then the email check, then the password validators' messages joined by
   * "; ". `problems` is what the validators report for the password.
   */
  function RegistrationFailure(users: map<nat, User>, username: string, email: string, problems: seq<string>): Option<string> {
    if UsernameTaken(users, username) then Some(UsernameTakenMessage)
    else if EmailTaken(users, email) then Some(EmailTakenMessage)
    else if problems != [] then Some(Join(problems, "; "))
    else None
  }

  /** A username that is taken is reported as such, even when the email is taken too. */
  lemma UsernameCheckedFirst(users: map<nat, User>, username: string, email: string, problems: seq<string>)
    ensures UsernameTaken(users, username) ==> RegistrationFailure(users, username, email, problems) == Some(UsernameTakenMessage)
    ensures !UsernameTaken(users, username) && EmailTaken(users, email) ==>
      RegistrationFailure(users, username, email, problems) == Some(EmailTakenMessage)
    ensures RegistrationFailure(users, username, email, problems).None? <==>
      !UsernameTaken(users, username) && !EmailTaken(users, email) && problems == []
  {
  }

  /** Once an account is stored, registering its username again is refused. */
  lemma SecondRegistrationRefused(users: map<nat, User>, u: User, email: string, problems: seq<string>)
    ensures RegistrationFailure(users[u.id := u], u.username, email, problems) == Some(UsernameTakenMessage)
  {
    assert u.id in users[u.id := u] && users[u.id := u][u.id].username == u.username;
  }

  /**
   * `register_user`. `validate` stands for the configured password
   * validators: the messages they report for a password, none when it passes.
   */
  method RegisterUser(db: Db, username: string, email: string, password: string, validate: string -> seq<string>)
    returns (r: Result<User, string>)
    requires db.Valid()
    modifies db`users, db`nextUserId, db`notifications, db`clock
    ensures db.Valid()
    ensures var failure := RegistrationFailure(old(db.users), username, email, validate(password));
      && (failure.Some? ==>
            && r == Err(failure.value)
            && db.users == old(db.users) && db.nextUserId == old(db.nextUserId)
            && db.notifications == old(db.notifications) && db.clock == old(db.clock))
      && (failure.None? ==>
            && r.Ok? && fresh(r.value)
            && r.value.id == old(db.nextUserId) && r.value.id !in old(db.users)
            && r.value.username == username && r.value.email == email && r.value.points == 0
            && db.users == old(db.users)[r.value.id := r.value]
            && db.notifications == old(db.notifications) + [Notification(r.value.id, WelcomeMessage, old(db.clock), false)])
  {
    if UsernameTaken(db.users, username) {
      return Err(UsernameTakenMessage);
    }
    if EmailTaken(db.users, email) {
      return Err(EmailTakenMessage);
    }
    var problems := validate(password);
    if problems != [] {
      return Err(Join(problems, "; "));
    }
    var user := new User(db.nextUserId, username, email);
    db.users := db.users[user.id := user];
    db.nextUserId := db.nextUserId + 1;
    GenerateWelcomeNotification(db, user);
    r := Ok(user);
  }
}
