/**
 * The session (`AuthService`): the signed-in user, or none, kept in memory
 * and mirrored in the browser's local storage under the key `currentUser`,
 * so that a new service instance (a page reload) picks the session up again.
 */
module Session {
  import opened Wrappers

  datatype User = User(id: string, username: string, password: string)

  datatype LoginRequest = LoginRequest(username: string, password: string)

  datatype RegisterRequest = RegisterRequest(username: string, password: string)

  /** `AuthResponse`: `success`, and the optional `user` and `message`. */
  datatype AuthResponse = AuthResponse(success: bool, user: Option<User>, message: Option<string>)

  /** What an HTTP call delivered: a body, or a transport error that `catchError` turns into a message. */
  datatype HttpResult<T> = Ok(body: T) | TransportError

  const BadCredentials := "Nom d'utilisateur ou mot de passe incorrect"
  const ServerUnreachable := "Erreur de connexion au serveur"
  const UsernameTaken := "Ce nom d'utilisateur est déjà utilisé"
  const RegistrationFailed := "Erreur lors de l'enregistrement"

  function Failed(message: string): AuthResponse
  {
    AuthResponse(false, None, Some(message))
  }

  /** The `currentUser` entry of local storage; it outlives every service instance. */
  class Storage {
    var currentUser: Option<User>

    constructor (saved: Option<User>)
      ensures currentUser == saved
    {
      currentUser := saved;
    }
  }

  class AuthService {
    const storage: Storage
    var currentUserSignal: Option<User>

    /** The session invariant: the stored entry is the signed-in user, and absent when nobody is. */
    ghost predicate Valid()
      reads this, storage
    {
      storage.currentUser == currentUserSignal
    }

    /** `isLoggedIn`: somebody is signed in. */
    function IsLoggedIn(): (b: bool)
      reads this, storage
      ensures b <==> currentUserSignal != None
      ensures Valid() ==> (b <==> storage.currentUser.Some?)
    {
      currentUserSignal != None
    }

    /** The constructor restores the stored user, if there is one. */
    constructor (storage: Storage)
      ensures this.storage == storage
      ensures currentUserSignal == storage.currentUser
      ensures Valid()
    {
      this.storage := storage;
      currentUserSignal := if storage.currentUser.Some? then storage.currentUser else None;
    }

    /**
     * `login`, given the users the `GET /users?username=&password=` query
     * returned: the first of them becomes the session user, password
     * included; an empty answer or a transport error changes nothing.
     */
    method Login(users: HttpResult<seq<User>>) returns (response: AuthResponse)
      requires Valid()
      modifies this, storage
      ensures Valid()
      ensures users.Ok? && |users.body| > 0 ==>
        currentUserSignal == Some(users.body[0]) &&
        response == AuthResponse(true, Some(users.body[0]), None)
      ensures users.Ok? && |users.body| == 0 ==>
        currentUserSignal == old(currentUserSignal) && response == Failed(BadCredentials)
      ensures users.TransportError? ==>
        currentUserSignal == old(currentUserSignal) && response == Failed(ServerUnreachable)
    {
      match users
      case TransportError =>
        response := Failed(ServerUnreachable);
      case Ok(found) =>
        if |found| > 0 {
          var user := found[0];
          storage.currentUser := Some(user);
          currentUserSignal := Some(user);
          response := AuthResponse(true, Some(user), None);
        } else {
          response := Failed(BadCredentials);
        }
    }

    /**
     * `register`, given the answer to the `GET /users?username=` check, the
     * id `generateId` draws and the answer to the `POST /users`. `posted` is
     * the body of the POST, `None` when no POST is made. A taken name or a
     * failed check makes no POST; a created user becomes the session user
     * with an empty password.
     */
    method Register(userData: RegisterRequest, newId: string,
                    existing: HttpResult<seq<User>>, created: HttpResult<User>)
      returns (response: AuthResponse, posted: Option<User>)
      requires Valid()
      modifies this, storage
      ensures Valid()
      ensures existing.TransportError? ==>
        posted == None && currentUserSignal == old(currentUserSignal) && response == Failed(ServerUnreachable)
      ensures existing.Ok? && |existing.body| > 0 ==>
        posted == None && currentUserSignal == old(currentUserSignal) && response == Failed(UsernameTaken)
      ensures existing.Ok? && |existing.body| == 0 ==>
        posted == Some(User(newId, userData.username, userData.password))
      ensures existing.Ok? && |existing.body| == 0 && created.Ok? ==>
        currentUserSignal == Some(created.body.(password := "")) &&
        response == AuthResponse(true, Some(created.body.(password := "")), None)
      ensures existing.Ok? && |existing.body| == 0 && created.TransportError? ==>
        currentUserSignal == old(currentUserSignal) && response == Failed(RegistrationFailed)
    {
      match existing
      case TransportError =>
        response, posted := Failed(ServerUnreachable), None;
      case Ok(existingUsers) =>
        if |existingUsers| > 0 {
          response, posted := Failed(UsernameTaken), None;
        } else {
          var newUser := User(newId, userData.username, userData.password);
          posted := Some(newUser);
          match created
          case TransportError =>
            response := Failed(RegistrationFailed);
          case Ok(user) =>
            var userWithoutPassword := user.(password := "");
            storage.currentUser := Some(userWithoutPassword);
            currentUserSignal := Some(userWithoutPassword);
            response := AuthResponse(true, Some(userWithoutPassword), None);
        }
    }

    /** `logout`: the stored entry is removed and nobody is signed in. */
    method Logout()
      requires Valid()
      modifies this, storage
      ensures Valid()
      ensures currentUserSignal == None && storage.currentUser == None
      ensures !IsLoggedIn()
    {
      storage.currentUser := None;
      currentUserSignal := None;
    }
  }

  /**
   * A reload: a new service built on the same storage signs in the same user
   * as the service that was running, whatever that service did before.
   */
  method Reload(running: AuthService) returns (reloaded: AuthService)
    requires running.Valid()
    ensures reloaded.storage == running.storage
    ensures reloaded.currentUserSignal == running.currentUserSignal
    ensures reloaded.IsLoggedIn() == running.IsLoggedIn()
  {
    reloaded := new AuthService(running.storage);
  }
}
