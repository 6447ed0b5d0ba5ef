/** The account table `users` of server.js and its two HTTP endpoints,
    `POST /register` and `POST /login`. Request fields are optional strings:
    `None` is a field the JSON body does not carry. Loading the table from
    `users.json` and writing it back are not part of this model: the table
    starts from whatever map the store is given. */
module Accounts {
  import opened Options

  /** A stored user record `{ password, avatar }`. */
  datatype Account = Account(password: string, avatar: Option<string>)

  const MsgMissingCredentials: string := "Введите логин и пароль"
  const MsgTaken: string := "Такой логин уже существует"
  const MsgRegistered: string := "Регистрация успешна"
  const MsgNotFound: string := "Пользователь не найден"
  const MsgWrongPassword: string := "Неверный пароль"

  /** The JSON answer `{ ok, msg }` of `/register`. */
  datatype RegisterReply = RegisterReply(ok: bool, msg: string)

  /** The JSON answer of `/login`: `{ ok: false, msg }`, or
      `{ ok: true, username, avatar, messages: [] }`. */
  datatype LoginReply = LoginRefused(msg: string) | LoggedIn(username: Option<string>, avatar: Option<string>)

  /** What `/register` answers and what the table is afterwards. */
  datatype Registration = Registration(reply: RegisterReply, users: map<string, Account>)

  /** The property name `users[username]` reads: a missing field is
      converted to the string "undefined". */
  function KeyOf(username: Option<string>): (r: string) {
    if username.Some? then username.value else "undefined"
  }

  /** `/register` over the table's own entries: both fields are required, an
      existing name is refused, otherwise exactly one record is added. */
  function RegisterOn(users: map<string, Account>, username: Option<string>, password: Option<string>,
                    avatar: Option<string>): (r: Registration)
    ensures !Filled(username) || !Filled(password) ==>
              r == Registration(RegisterReply(false, MsgMissingCredentials), users)
    ensures Filled(username) && Filled(password) && username.value in users ==>
              r == Registration(RegisterReply(false, MsgTaken), users)
    ensures r.reply.ok <==> Filled(username) && Filled(password) && username.value !in users
    ensures r.reply.ok ==>
              && r.reply.msg == MsgRegistered
              && r.users.Keys == users.Keys + {username.value}
              && |r.users| == |users| + 1
              && r.users[username.value] == Account(password.value, OrNull(avatar))
              && forall name :: name in users ==> r.users[name] == users[name]
  {
    if !Filled(username) || !Filled(password) then
      Registration(RegisterReply(false, MsgMissingCredentials), users)
    else if username.value in users then
      Registration(RegisterReply(false, MsgTaken), users)
    else
      Registration(RegisterReply(true, MsgRegistered),
                   users[username.value := Account(password.value, OrNull(avatar))])
  }

  /** `/login` over the table's own entries. It never changes the table. */
  function Login(users: map<string, Account>, username: Option<string>, password: Option<string>): (r: LoginReply)
    ensures KeyOf(username) !in users ==> r == LoginRefused(MsgNotFound)
    ensures KeyOf(username) in users && password != Some(users[KeyOf(username)].password) ==>
              r == LoginRefused(MsgWrongPassword)
    ensures r.LoggedIn? <==> KeyOf(username) in users && password == Some(users[KeyOf(username)].password)
    ensures r.LoggedIn? ==> r.username == username && r.avatar == OrNull(users[KeyOf(username)].avatar)
  {
    var key := KeyOf(username);
    if key !in users then LoginRefused(MsgNotFound)
    else if Some(users[key].password) != password then LoginRefused(MsgWrongPassword)
    else LoggedIn(username, OrNull(users[key].avatar))
  }

  /** A successful registration is followed by a successful login with the
      same password, answering the stored avatar, and by a refused login
      with any other password. */
  lemma RegisteredUserLogsIn(users: map<string, Account>, username: Option<string>, password: Option<string>,
                             avatar: Option<string>, other: Option<string>)
    requires RegisterOn(users, username, password, avatar).reply.ok
    requires other != password
    ensures Login(RegisterOn(users, username, password, avatar).users, username, password)
              == LoggedIn(username, OrNull(avatar))
    ensures Login(RegisterOn(users, username, password, avatar).users, username, other)
              == LoginRefused(MsgWrongPassword)
  {
  }

  /** The server's mutable account table. */
  class UserStore {
    var users: map<string, Account>

    constructor (loaded: map<string, Account>)
      ensures users == loaded
    {
      users := loaded;
    }

    /** `POST /register`, updating the table in place. */
    method Register(username: Option<string>, password: Option<string>, avatar: Option<string>)
      returns (reply: RegisterReply)
      modifies this
      ensures Registration(reply, users) == RegisterOn(old(users), username, password, avatar)
    {
      if !Filled(username) || !Filled(password) {
        return RegisterReply(false, MsgMissingCredentials);
      }
      if username.value in users {
        return RegisterReply(false, MsgTaken);
      }
      users := users[username.value := Account(password.value, OrNull(avatar))];
      reply := RegisterReply(true, MsgRegistered);
    }
  }

  // ---------------------------------------------------------------------
  // The lookup as written. `users` is a plain object literal, so
  // `users[name]` also finds the properties every object inherits from
  // Object.prototype; all of them are truthy and none has a `password`.

  /** The property names a plain object inherits. */
  const InheritedKeys: set<string> := {
    "constructor", "__proto__", "hasOwnProperty", "isPrototypeOf",
    "propertyIsEnumerable", "toString", "toLocaleString", "valueOf",
    "__defineGetter__", "__defineSetter__", "__lookupGetter__", "__lookupSetter__"
  }

  /** What `users[key]` evaluates to. */
  datatype Slot = Own(account: Account) | Inherited | Missing

  function Property(users: map<string, Account>, key: string): (r: Slot) {
    if key in users then Own(users[key])
    else if key in InheritedKeys then Inherited
    else Missing
  }

  /** `/register` as server.js writes it: `if (users[username])` refuses an
      inherited name as already taken. */
  function RegisterAsWritten(users: map<string, Account>, username: Option<string>, password: Option<string>,
                             avatar: Option<string>): (r: Registration)
    ensures r.reply.ok ==> username.Some? && username.value !in InheritedKeys
  {
    if !Filled(username) || !Filled(password) then
      Registration(RegisterReply(false, MsgMissingCredentials), users)
    else if !Property(users, username.value).Missing? then
      Registration(RegisterReply(false, MsgTaken), users)
    else
      Registration(RegisterReply(true, MsgRegistered),
                   users[username.value := Account(password.value, OrNull(avatar))])
  }

  /** `/login` as server.js writes it: an inherited name passes the "not
      found" test, and its `password` is `undefined`, which equals a
      missing password field. */
  function LoginAsWritten(users: map<string, Account>, username: Option<string>, password: Option<string>): (r: LoginReply)
    ensures r.LoggedIn? ==> !Property(users, KeyOf(username)).Missing?
    ensures Property(users, KeyOf(username)).Inherited? && password.None? ==> r == LoggedIn(username, None)
  {
    match Property(users, KeyOf(username))
    case Missing => LoginRefused(MsgNotFound)
    case Own(a) =>
      if Some(a.password) != password then LoginRefused(MsgWrongPassword)
      else LoggedIn(username, OrNull(a.avatar))
    case Inherited =>
      if password.Some? then LoginRefused(MsgWrongPassword)
      else LoggedIn(username, None)
  }

  /** Away from the inherited names, the lookup as written and the own-entry
      lookup answer alike. */
  lemma AsWrittenAgreesOffInheritedNames(users: map<string, Account>, username: Option<string>,
                                         password: Option<string>, avatar: Option<string>)
    requires KeyOf(username) !in InheritedKeys || KeyOf(username) in users
    ensures LoginAsWritten(users, username, password) == Login(users, username, password)
    ensures RegisterAsWritten(users, username, password, avatar) == RegisterOn(users, username, password, avatar)
  {
  }

  /** With no account at all, a login as "toString" without a password field
      succeeds as written; the own-entry lookup answers "not found". */
  lemma InheritedNameLogsInAsWritten()
    ensures LoginAsWritten(map[], Some("toString"), None) == LoggedIn(Some("toString"), None)
    ensures Login(map[], Some("toString"), None) == LoginRefused(MsgNotFound)
  {
  }

  /** As written, nobody can register the name "constructor", which is
      reported as taken on an empty table; the own-entry lookup accepts it. */
  lemma InheritedNameTakenAsWritten()
    ensures RegisterAsWritten(map[], Some("constructor"), Some("secret"), None).reply
              == RegisterReply(false, MsgTaken)
    ensures RegisterOn(map[], Some("constructor"), Some("secret"), None).reply
              == RegisterReply(true, MsgRegistered)
  {
  }
}
