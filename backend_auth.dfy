/**
 * The authentication service (ems-backend/src/main/java/com/ems/service/AuthService.java):
 * registration and login over the user collection, looked up by email. The
 * password hashing library is a pair of functions given to the service.
 */
module AuthService {
  import opened Wrappers

  /** A user document (ems-backend/src/main/java/com/ems/model/User.java). */
  datatype User = User(
    id: Option<string>,
    firstName: string,
    lastName: string,
    email: string,
    phone: string,
    password: string,
    role: string,
    companyName: string,
    companyEmail: string,
    companyPhone: string,
    website: string,
    companyAddress: string,
    industryType: string,
    companySize: string,
    registrationNumber: string,
    establishedYear: string)

  /** The password hashing library: how a raw password is hashed, and how a raw password is checked against a hash. */
  datatype Encoder = Encoder(encode: string -> string, matches: (string, string) -> bool)

  /** What the hashing library promises: a password matches its own hash. */
  ghost predicate Sound(enc: Encoder) {
    forall raw :: enc.matches(raw, enc.encode(raw))
  }

  /** A response: the HTTP status and the body text. */
  datatype Response = Response(status: int, body: string)

  const Registered := Response(200, "User registered successfully")
  const EmailInUse := Response(400, "Email already in use")
  const LoggedIn := Response(200, "Login successful")
  const InvalidCredentials := Response(401, "Invalid credentials")

  /** The document register saves: the user as sent, with the password replaced by its hash. */
  function Stored(user: User, enc: Encoder): (u: User)
    ensures u.password == enc.encode(user.password)
    ensures u.(password := user.password) == user
  {
    user.(password := enc.encode(user.password))
  }

  /**
   * The answer to a login: success exactly when a user with that email
   * exists and the password matches its stored hash; an unknown email and
   * a wrong password get the same refusal.
   */
  function LoginResult(users: map<string, User>, enc: Encoder, email: string, password: string): (r: Response)
    ensures r == LoggedIn <==> email in users && enc.matches(password, users[email].password)
    ensures r == LoggedIn || r == InvalidCredentials
  {
    if email in users && enc.matches(password, users[email].password) then LoggedIn else InvalidCredentials
  }

  /** With a sound encoder, a user who has just registered can log in with the password sent. */
  lemma RegisteredUserCanLogIn(users: map<string, User>, enc: Encoder, user: User)
    requires Sound(enc)
    ensures LoginResult(users[user.email := Stored(user, enc)], enc, user.email, user.password) == LoggedIn
  {
  }

  class Service {
    /** The user collection, by email. */
    var users: map<string, User>
    const encoder: Encoder

    /** Every user is stored under its own email. */
    ghost predicate Valid()
      reads this
    {
      forall e :: e in users ==> users[e].email == e
    }

    constructor(encoder: Encoder)
      ensures users == map[] && this.encoder == encoder && Valid()
    {
      users := map[];
      this.encoder := encoder;
    }

    /**
     * register: a bad request, with nothing stored, when the email is taken;
     * otherwise the user is stored with the hashed password.
     */
    method Register(user: User) returns (r: Response)
      requires Valid()
      modifies this
      ensures Valid()
      ensures user.email in old(users) ==> r == EmailInUse && users == old(users)
      ensures user.email !in old(users) ==> r == Registered && users == old(users)[user.email := Stored(user, encoder)]
    {
      if user.email in users {
        return EmailInUse;
      }
      var hashed := encoder.encode(user.password);
      var saved := user.(password := hashed);
      users := users[user.email := saved];
      r := Registered;
    }

    /** login: never changes the collection. */
    method Login(email: string, password: string) returns (r: Response)
      ensures r == LoginResult(users, encoder, email, password)
    {
      if email in users {
        var existing := users[email];
        if encoder.matches(password, existing.password) {
          r := LoggedIn;
        } else {
          r := InvalidCredentials;
        }
      } else {
        r := InvalidCredentials;
      }
    }
  }
}
