/**
  PostRepository.Update of internal/store/postgres/post.go: the statement and
  the arguments it sends for a partial update of one post.
*/
module PostStore {
  import opened Wrappers
  import Strings
  import Sql

  /** The update request: a field left out (nil in Go) is not changed. */
  datatype UpdatePostDto = UpdatePostDto(title: Option<string>, content: Option<string>, authorId: Option<int>)

  /**
    The fields the request supplies, in the order title, content, author_id;
    each supplied field sits after exactly the supplied fields before it.
  */
  function PostFields(post: UpdatePostDto): (r: seq<Sql.Field>)
    ensures |r| == Sql.Supplied(post.title) + Sql.Supplied(post.content) + Sql.Supplied(post.authorId)
    ensures post.title.Some? ==> r[0] == ("title", Sql.Text(post.title.value))
    ensures post.content.Some? ==> r[Sql.Supplied(post.title)] == ("content", Sql.Text(post.content.value))
    ensures post.authorId.Some? ==>
      r[Sql.Supplied(post.title) + Sql.Supplied(post.content)] == ("author_id", Sql.Int(post.authorId.value))
    ensures forall i :: 0 <= i < |r| ==> r[i].0 in {"title", "content", "author_id"}
  {
    (if post.title.Some? then [("title", Sql.Text(post.title.value))] else [])
    + (if post.content.Some? then [("content", Sql.Text(post.content.value))] else [])
    + (if post.authorId.Some? then [("author_id", Sql.Int(post.authorId.value))] else [])
  }

  /**
    Update's statement builder: appends one fragment and one argument per
    supplied field while counting placeholders, then adds the WHERE clause
    and the post id.
  */
  method Update(postId: int, post: UpdatePostDto) returns (query: string, args: seq<Sql.Arg>)
    ensures query == Sql.UpdateStatement("posts", "post_id", PostFields(post))
    ensures args == Sql.Bindings(PostFields(post)) + [Sql.Int(postId)]
    ensures |args| == |PostFields(post)| + 1 && args[|args| - 1] == Sql.Int(postId)
  {
    ghost var fields: seq<Sql.Field> := [];
    var values: seq<string> := [];
    args := [];
    var argId := 1;

    if post.title.Some? {
      Sql.AppendField(fields, "title", Sql.Text(post.title.value));
      values := values + [Sql.Assignment("title", argId)];
      args := args + [Sql.Text(post.title.value)];
      fields := fields + [("title", Sql.Text(post.title.value))];
      argId := argId + 1;
    }
    assert values == Sql.Assignments(fields) && args == Sql.Bindings(fields) && argId == |fields| + 1;

    if post.content.Some? {
      Sql.AppendField(fields, "content", Sql.Text(post.content.value));
      values := values + [Sql.Assignment("content", argId)];
      args := args + [Sql.Text(post.content.value)];
      fields := fields + [("content", Sql.Text(post.content.value))];
      argId := argId + 1;
    }
    assert values == Sql.Assignments(fields) && args == Sql.Bindings(fields) && argId == |fields| + 1;

    if post.authorId.Some? {
      Sql.AppendField(fields, "author_id", Sql.Int(post.authorId.value));
      values := values + [Sql.Assignment("author_id", argId)];
      args := args + [Sql.Int(post.authorId.value)];
      fields := fields + [("author_id", Sql.Int(post.authorId.value))];
      argId := argId + 1;
    }
    assert values == Sql.Assignments(fields) && args == Sql.Bindings(fields) && argId == |fields| + 1;
    assert fields == PostFields(post);

    var valuesQuery := Strings.Join(values, ", ");
    query := "UPDATE posts SET " + valuesQuery + " WHERE post_id = " + Sql.Placeholder(argId);
    PostStatement(valuesQuery, Sql.Placeholder(argId));
    args := args + [Sql.Int(postId)];
  }

  /** The format string "UPDATE posts SET %s WHERE post_id = $%d" is the general statement for table posts and key post_id. */
  lemma PostStatement(valuesQuery: string, placeholder: string)
    ensures "UPDATE posts SET " + valuesQuery + " WHERE post_id = " + placeholder
         == "UPDATE " + "posts" + " SET " + valuesQuery + " WHERE " + "post_id" + " = " + placeholder
  {
    assert "UPDATE " + "posts" + " SET " == "UPDATE posts SET ";
    assert " WHERE " + "post_id" + " = " == " WHERE post_id = ";
  }

  /** An update that supplies no field still builds a statement, with an empty SET list, bound to the post id alone. */
  lemma EmptyUpdate(postId: int)
    ensures PostFields(UpdatePostDto(None, None, None)) == []
    ensures Sql.UpdateStatement("posts", "post_id", PostFields(UpdatePostDto(None, None, None)))
            == "UPDATE posts SET  WHERE post_id = " + Sql.Placeholder(1)
  {
  }
}
