/**
  UserRepository.Update of internal/store/postgres/user.go: the statement and
  the arguments it sends for a partial update of one user.
*/
module UserStore {
  import opened Wrappers
  import Strings
  import Sql

  /** The update request; registeredAt (Unix seconds) is accepted but never written. */
  datatype UpdateUserDto = UpdateUserDto(
    username: Option<string>,
    email: Option<string>,
    registeredAt: Option<int>,
    password: Option<string>)

  /**
    The fields the request supplies, in the order email, username, password;
    each supplied field sits after exactly the supplied fields before it.
  */
  function UserFields(user: UpdateUserDto): (r: seq<Sql.Field>)
    ensures |r| == Sql.Supplied(user.email) + Sql.Supplied(user.username) + Sql.Supplied(user.password)
    ensures user.email.Some? ==> r[0] == ("email", Sql.Text(user.email.value))
    ensures user.username.Some? ==> r[Sql.Supplied(user.email)] == ("username", Sql.Text(user.username.value))
    ensures user.password.Some? ==>
      r[Sql.Supplied(user.email) + Sql.Supplied(user.username)] == ("password", Sql.Text(user.password.value))
    ensures forall i :: 0 <= i < |r| ==> r[i].0 in {"email", "username", "password"}
  {
    (if user.email.Some? then [("email", Sql.Text(user.email.value))] else [])
    + (if user.username.Some? then [("username", Sql.Text(user.username.value))] else [])
    + (if user.password.Some? then [("password", Sql.Text(user.password.value))] else [])
  }

  /**
    Update's statement builder: appends one fragment and one argument per
    supplied field while counting placeholders, then adds the WHERE clause
    and the user id.
  */
  method Update(userId: int, user: UpdateUserDto) returns (query: string, args: seq<Sql.Arg>)
    ensures query == Sql.UpdateStatement("users", "user_id", UserFields(user))
    ensures args == Sql.Bindings(UserFields(user)) + [Sql.Int(userId)]
    ensures |args| == |UserFields(user)| + 1 && args[|args| - 1] == Sql.Int(userId)
  {
    ghost var fields: seq<Sql.Field> := [];
    var values: seq<string> := [];
    args := [];
    var argId := 1;

    if user.email.Some? {
      Sql.AppendField(fields, "email", Sql.Text(user.email.value));
      values := values + [Sql.Assignment("email", argId)];
      args := args + [Sql.Text(user.email.value)];
      fields := fields + [("email", Sql.Text(user.email.value))];
      argId := argId + 1;
    }
    assert values == Sql.Assignments(fields) && args == Sql.Bindings(fields) && argId == |fields| + 1;

    if user.username.Some? {
      Sql.AppendField(fields, "username", Sql.Text(user.username.value));
      values := values + [Sql.Assignment("username", argId)];
      args := args + [Sql.Text(user.username.value)];
      fields := fields + [("username", Sql.Text(user.username.value))];
      argId := argId + 1;
    }
    assert values == Sql.Assignments(fields) && args == Sql.Bindings(fields) && argId == |fields| + 1;

    if user.password.Some? {
      Sql.AppendField(fields, "password", Sql.Text(user.password.value));
      values := values + [Sql.Assignment("password", argId)];
      args := args + [Sql.Text(user.password.value)];
      fields := fields + [("password", Sql.Text(user.password.value))];
      argId := argId + 1;
    }
    assert values == Sql.Assignments(fields) && args == Sql.Bindings(fields) && argId == |fields| + 1;
    assert fields == UserFields(user);

    var valuesQuery := Strings.Join(values, ", ");
    query := "UPDATE users SET " + valuesQuery + " WHERE user_id = " + Sql.Placeholder(argId);
    UserStatement(valuesQuery, Sql.Placeholder(argId));
    args := args + [Sql.Int(userId)];
  }

  /** The format string "UPDATE users SET %s WHERE user_id = $%d" is the general statement for table users and key user_id. */
  lemma UserStatement(valuesQuery: string, placeholder: string)
    ensures "UPDATE users SET " + valuesQuery + " WHERE user_id = " + placeholder
         == "UPDATE " + "users" + " SET " + valuesQuery + " WHERE " + "user_id" + " = " + placeholder
  {
    assert "UPDATE " + "users" + " SET " == "UPDATE users SET ";
    assert " WHERE " + "user_id" + " = " == " WHERE user_id = ";
  }

  /** The registration instant never reaches the statement: two requests differing only there build the same fields. */
  lemma RegisteredAtIgnored(user: UpdateUserDto, registeredAt: Option<int>)
    ensures UserFields(user.(registeredAt := registeredAt)) == UserFields(user)
  {
  }
}
