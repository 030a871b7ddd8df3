/** The authentication routes: signup, the login decision ladder, and
    delete / update-role by id. bcrypt's `compare` is an oracle parameter;
    `jwt.sign` is represented by the claims and expiry it is given. */
module AuthRoutes {
  import opened Wrappers
  import Js

  /** A row of the `User` table. */
  datatype User = User(id: int, username: string, email: string, password: string, role: string)

  /** The claims the login signs into the token. */
  datatype Claims = Claims(id: int, role: string)

  /** A body field: `undefined` or a string. */
  type Field = Option<string>

  datatype LoginBody = LoginBody(username: Field, password: Field)

  datatype SignupBody = SignupBody(username: Field, email: Field, password: Field, role: Field)

  /** What `User.create` is given at signup. */
  datatype NewUser = NewUser(username: Field, email: Field, password: Field)

  datatype Reply =
    | Message(code: int, message: string)
    | Error(code: int, error: string)
    | Token(claims: Claims, expiresIn: string)
    | UserMessage(code: int, message: string, user: User)

  const MISSING_CREDENTIALS := "Username e senha são obrigatórios"
  const LOGIN_USER_NOT_FOUND := "Usuário não encontrado"
  const WRONG_PASSWORD := "Senha incorreta"
  const TOKEN_LIFETIME := "1h"
  const USER_NOT_FOUND := "Utilizador não encontrado"
  const USER_DELETED := "Utilizador deletado com sucesso"
  const ROLE_UPDATED := "Papel atualizado com sucesso"

  /** `User.findOne({ where: { username } })`: the first row with that name. */
  function FindByUsername(users: seq<User>, username: string): (r: Option<User>)
    ensures r.None? <==> forall i :: 0 <= i < |users| ==> users[i].username != username
    ensures r.Some? ==> exists i :: 0 <= i < |users| && users[i] == r.value && users[i].username == username &&
                           forall j :: 0 <= j < i ==> users[j].username != username
  {
    if users == [] then None
    else if users[0].username == username then Some(users[0])
    else
      var r := FindByUsername(users[1..], username);
      assert forall j :: 0 <= j < |users[1..]| ==> users[1..][j] == users[j + 1];
      if r.Some? then
        var i :| 0 <= i < |users[1..]| && users[1..][i] == r.value && users[1..][i].username == username &&
                 forall j :: 0 <= j < i ==> users[1..][j].username != username;
        assert users[i + 1] == r.value;
        r
      else r
  }

  /** POST /login. `compare(password, hash)` stands for `bcrypt.compare`. */
  function Login(users: seq<User>, body: LoginBody, compare: (string, string) -> bool): (r: Reply)
    ensures !Js.TruthyString(body.username) || !Js.TruthyString(body.password) ==>
      r == Message(400, MISSING_CREDENTIALS)
    ensures Js.TruthyString(body.username) && Js.TruthyString(body.password) ==>
      (r == Message(404, LOGIN_USER_NOT_FOUND) <==> FindByUsername(users, body.username.value).None?)
    ensures r.Token? ==>
      Js.TruthyString(body.username) && Js.TruthyString(body.password) &&
      exists i :: 0 <= i < |users| && users[i].username == body.username.value &&
        compare(body.password.value, users[i].password) &&
        r == Token(Claims(users[i].id, users[i].role), TOKEN_LIFETIME)
    ensures r.Message? && r.code == 400 && r.message == WRONG_PASSWORD <==>
      Js.TruthyString(body.username) && Js.TruthyString(body.password) &&
      FindByUsername(users, body.username.value).Some? &&
      !compare(body.password.value, FindByUsername(users, body.username.value).value.password)
  {
    if !Js.TruthyString(body.username) || !Js.TruthyString(body.password) then
      Message(400, MISSING_CREDENTIALS)
    else
      match FindByUsername(users, body.username.value)
      case None => Message(404, LOGIN_USER_NOT_FOUND)
      case Some(user) =>
        if !compare(body.password.value, user.password) then Message(400, WRONG_PASSWORD)
        else Token(Claims(user.id, user.role), TOKEN_LIFETIME)
  }

  /** The credential check runs before any lookup: with a field missing or
      empty, the answer depends neither on the table nor on the oracle. */
  lemma LoginChecksFieldsFirst(users1: seq<User>, users2: seq<User>, body: LoginBody,
                               compare1: (string, string) -> bool, compare2: (string, string) -> bool)
    requires !Js.TruthyString(body.username) || !Js.TruthyString(body.password)
    ensures Login(users1, body, compare1) == Login(users2, body, compare2)
  {
  }

  /** A token is issued exactly when the first user with that name has a
      password the oracle accepts, and then it carries that user's id and
      role and nothing else. */
  lemma {:induction false} LoginTokenIff(users: seq<User>, body: LoginBody, compare: (string, string) -> bool)
    ensures Login(users, body, compare).Token? <==>
      Js.TruthyString(body.username) && Js.TruthyString(body.password) &&
      FindByUsername(users, body.username.value).Some? &&
      compare(body.password.value, FindByUsername(users, body.username.value).value.password)
    ensures Login(users, body, compare).Token? ==>
      var u := FindByUsername(users, body.username.value).value;
      Login(users, body, compare) == Token(Claims(u.id, u.role), TOKEN_LIFETIME)
  {
  }

  /** Signup copies `username`, `email` and `password` from the body, and
      nothing else. */
  function SignupFields(body: SignupBody): (u: NewUser)
    ensures u.username == body.username && u.email == body.email && u.password == body.password
  {
    NewUser(body.username, body.email, body.password)
  }

  /** A role in the signup body is ignored. */
  lemma SignupIgnoresRole(body: SignupBody, role: Field)
    ensures SignupFields(body.(role := role)) == SignupFields(body)
  {
  }

  /** The first index holding id `id`, if any (`findByPk`). */
  function IndexOfId(users: seq<User>, id: int): (r: Option<nat>)
    ensures r.None? <==> forall i :: 0 <= i < |users| ==> users[i].id != id
    ensures r.Some? ==> r.value < |users| && users[r.value].id == id &&
                        forall j :: 0 <= j < r.value ==> users[j].id != id
  {
    if users == [] then None
    else if users[0].id == id then Some(0)
    else
      var r := IndexOfId(users[1..], id);
      assert forall j :: 0 <= j < |users[1..]| ==> users[1..][j] == users[j + 1];
      if r.Some? then Some(r.value + 1) else None
  }

  /** Primary keys are unique. */
  predicate UniqueIds(users: seq<User>)
  {
    forall i, j :: 0 <= i < j < |users| ==> users[i].id != users[j].id
  }

  /** Removing the row holding a unique id keeps the keys unique and leaves
      exactly the users with other ids. */
  lemma RemoveAtIndex(users: seq<User>, i: nat, id: int)
    requires UniqueIds(users) && i < |users| && users[i].id == id
    ensures UniqueIds(users[..i] + users[i + 1..])
    ensures forall u :: u in users[..i] + users[i + 1..] <==> u in users && u.id != id
  {
    var after := users[..i] + users[i + 1..];
    assert forall k :: 0 <= k < |after| ==> after[k] == if k < i then users[k] else users[k + 1];
    forall u ensures u in after <==> u in users && u.id != id {
      if u in users && u.id != id {
        var k :| 0 <= k < |users| && users[k] == u;
        assert k != i;
        assert if k < i then after[k] == u else after[k - 1] == u;
      }
    }
  }

  /** The `User` table, in row order. */
  class UserStore {
    var users: seq<User>

    /** Primary keys are unique. */
    predicate Valid()
      reads this
    {
      UniqueIds(users)
    }

    constructor (users: seq<User>)
      requires forall i, j :: 0 <= i < j < |users| ==> users[i].id != users[j].id
      ensures Valid() && this.users == users
    {
      this.users := users;
    }

    /** DELETE /delete/:id: 404 and no change for an unknown id, otherwise
        remove that user. */
    method DeleteUser(id: int) returns (reply: Reply)
      requires Valid()
      modifies this
      ensures Valid()
      ensures IndexOfId(old(users), id).None? ==> reply == Error(404, USER_NOT_FOUND) && users == old(users)
      ensures IndexOfId(old(users), id).Some? ==>
        var i := IndexOfId(old(users), id).value;
        reply == Message(200, USER_DELETED) && users == old(users)[..i] + old(users)[i + 1..]
      ensures forall u :: u in users <==> u in old(users) && u.id != id
    {
      var found := IndexOfId(users, id);
      if found.None? {
        return Error(404, USER_NOT_FOUND);
      }
      var i := found.value;
      RemoveAtIndex(users, i, id);
      users := users[..i] + users[i + 1..];
      reply := Message(200, USER_DELETED);
    }

    /** PATCH /update-role/:id: 404 and no change for an unknown id,
        otherwise overwrite that user's role and nothing else. */
    method UpdateRole(id: int, role: string) returns (reply: Reply)
      requires Valid()
      modifies this
      ensures Valid() && |users| == |old(users)|
      ensures IndexOfId(old(users), id).None? ==> reply == Error(404, USER_NOT_FOUND) && users == old(users)
      ensures IndexOfId(old(users), id).Some? ==>
        var i := IndexOfId(old(users), id).value;
        users == old(users)[i := old(users)[i].(role := role)] &&
        reply == UserMessage(200, ROLE_UPDATED, users[i])
    {
      var found := IndexOfId(users, id);
      if found.None? {
        return Error(404, USER_NOT_FOUND);
      }
      var i := found.value;
      users := users[i := users[i].(role := role)];
      reply := UserMessage(200, ROLE_UPDATED, users[i]);
    }
  }
}
