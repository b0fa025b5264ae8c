/**
 * The comment handlers: listing a post's comments with their authors'
 * names, and creating, editing and deleting a comment, where only the
 * comment's author may edit or delete it.
 *
 * The users table is read but never written here, so it is a parameter;
 * the comments table is a class whose rows the handlers change in place.
 * The claims are those the bearer-token gate put in the request.
 */
module Comments {
  import opened Basics
  import opened Errors
  import opened Utils
  import opened Validation
  import opened Models
  import opened Store
  import Http

  const CannotEditComment := "无权限修改此评论"
  const CannotDeleteComment := "无权限删除此评论"

  function CommentId(c: Comment): int {
    c.id
  }

  /** The row test of `WHERE comment_id = ? AND post_id = ?`. */
  function IsComment(commentId: int, postId: int): Comment -> bool {
    (c: Comment) => c.id == commentId && c.postId == postId
  }

  /** The rows `DELETE FROM comments WHERE comment_id = ?` keeps. */
  function NotId(commentId: int): Comment -> bool {
    (c: Comment) => c.id != commentId
  }

  /** The rewrite of `SET content = ?`. */
  function WithContent(content: string): Comment -> Comment {
    (c: Comment) => c.(content := content)
  }

  /** `SELECT * FROM comments WHERE comment_id = ? AND post_id = ?` */
  function FindComment(rows: seq<Comment>, commentId: int, postId: int): (r: Option<Comment>)
    ensures r.Some? ==> r.value in rows && r.value.id == commentId && r.value.postId == postId
    ensures r.None? <==> forall c :: c in rows ==> !(c.id == commentId && c.postId == postId)
  {
    Find(rows, IsComment(commentId, postId))
  }

  /** `SELECT * FROM users WHERE username = ?` for the name in the claims; `fetch_one`
      turns an empty answer into `RowNotFound`, answered with 404. */
  function CurrentUser(users: seq<User>, claims: Claims): (r: Result<User, AppError>)
    ensures r.Ok? <==> UserByUsername(users, claims.sub).Some?
    ensures r.Ok? ==> r.value in users && r.value.username == claims.sub
    ensures r.Err? ==> r.error == Database(RowNotFound) && StatusCode(r.error) == Http.NOT_FOUND
  {
    match UserByUsername(users, claims.sub)
    case None => Err(Database(RowNotFound))
    case Some(u) => Ok(u)
  }

  /** A comment row joined with its author's row. */
  function Respond(c: Comment, author: User): CommentResponse {
    CommentResponse(c.id, c.postId, author.username, c.content, c.createdAt)
  }

  /** The comment with the given author id has an author in the users table, and is on the post. */
  predicate Listed(c: Comment, users: seq<User>, postId: int) {
    c.postId == postId && UserById(users, c.authorId).Some?
  }

  /**
   * `get_comments_for_post`: the comments of the post joined with their authors,
   * in table order. The join is an inner join, so a comment whose author row is
   * gone does not appear.
   */
  function ListForPost(rows: seq<Comment>, users: seq<User>, postId: int): (r: seq<CommentResponse>)
    ensures |r| <= |rows|
    ensures forall x :: x in r ==>
      x.postId == postId &&
      exists c :: c in rows && Listed(c, users, postId) && x == Respond(c, UserById(users, c.authorId).value)
    ensures forall c :: c in rows && Listed(c, users, postId) ==> Respond(c, UserById(users, c.authorId).value) in r
    decreases |rows|
  {
    if |rows| == 0 then []
    else
      var rest := ListForPost(rows[1..], users, postId);
      var c := rows[0];
      if Listed(c, users, postId) then [Respond(c, UserById(users, c.authorId).value)] + rest else rest
  }

  /** A comment added to the table adds one entry to its post's listing, at the end. */
  lemma {:induction false} ListAppend(rows: seq<Comment>, c: Comment, users: seq<User>, postId: int)
    ensures ListForPost(rows + [c], users, postId) ==
      ListForPost(rows, users, postId) + (if Listed(c, users, postId) then [Respond(c, UserById(users, c.authorId).value)] else [])
    decreases |rows|
  {
    if |rows| > 0 {
      assert (rows + [c])[1..] == rows[1..] + [c];
      ListAppend(rows[1..], c, users, postId);
    } else {
      assert ListForPost([c][1..], users, postId) == [];
    }
  }

  /** No other comment has the id of a comment that was deleted, so nothing listed carries it. */
  lemma DeletedCommentNotListed(rows: seq<Comment>, users: seq<User>, postId: int, commentId: int)
    ensures forall x :: x in ListForPost(Filter(rows, NotId(commentId)), users, postId) ==> x.id != commentId
  {
  }

  /** After the delete, looking the comment up again finds nothing: a later update or
      delete of it is answered with 404. */
  lemma DeleteThenNotFound(rows: seq<Comment>, commentId: int, postId: int)
    ensures FindComment(Filter(rows, NotId(commentId)), commentId, postId).None?
    ensures StatusCode(Database(RowNotFound)) == Http.NOT_FOUND
  {
  }

  /** The edited comment is listed with its new text, under the same id, post and author. */
  lemma UpdatedCommentListed(rows: seq<Comment>, users: seq<User>, c: Comment, content: string)
    requires c in rows && Listed(c, users, c.postId)
    ensures Respond(c.(content := content), UserById(users, c.authorId).value)
      in ListForPost(UpdateWhere(rows, IsComment(c.id, c.postId), WithContent(content)), users, c.postId)
  {
    var i :| 0 <= i < |rows| && rows[i] == c;
    var updated := UpdateWhere(rows, IsComment(c.id, c.postId), WithContent(content));
    assert updated[i] == c.(content := content);
    assert updated[i] in updated;
  }

  /** An update rewrites only the content of the one selected comment; every other row stays. */
  lemma UpdateTouchesOnlyContent(rows: seq<Comment>, commentId: int, postId: int, content: string)
    requires KeysIncreasing(rows, CommentId)
    ensures forall i :: 0 <= i < |rows| ==>
      var u := UpdateWhere(rows, IsComment(commentId, postId), WithContent(content))[i];
      && u.id == rows[i].id && u.postId == rows[i].postId && u.authorId == rows[i].authorId
      && u.createdAt == rows[i].createdAt && u.deletedAt == rows[i].deletedAt
      && (u != rows[i] ==> rows[i].id == commentId && rows[i].postId == postId && u.content == content)
    ensures KeysIncreasing(UpdateWhere(rows, IsComment(commentId, postId), WithContent(content)), CommentId)
  {
  }

  /** The comments table, in `comment_id` order; ids come from a counter. */
  class CommentTable {
    var rows: seq<Comment>
    var nextId: nat

    ghost predicate Valid()
      reads this
    {
      && KeysIncreasing(rows, CommentId)
      && (forall c :: c in rows ==> c.id < nextId)
    }

    constructor ()
      ensures Valid() && rows == [] && nextId == 1
    {
      rows := [];
      nextId := 1;
    }

    /** `create_comment_for_post`: validate, look up the caller, insert; answers 201 with the new comment. */
    method Create(users: seq<User>, claims: Claims, postId: Id, payload: CreateComment, now: Timestamp)
      returns (r: Result<(nat, CommentResponse), AppError>)
      requires Valid()
      modifies this
      ensures Valid()
      ensures ValidateCreateComment(payload) != [] ==>
        && r == Err(Validation(FormatValidationErrors(ValidateCreateComment(payload))))
        && rows == old(rows) && nextId == old(nextId)
      ensures ValidateCreateComment(payload) == [] && CurrentUser(users, claims).Err? ==>
        r == Err(Database(RowNotFound)) && rows == old(rows) && nextId == old(nextId)
      ensures ValidateCreateComment(payload) == [] && CurrentUser(users, claims).Ok? ==>
        var c := Comment(old(nextId), postId, CurrentUser(users, claims).value.id, payload.content, now, None);
        && rows == old(rows) + [c]
        && nextId == old(nextId) + 1
        && r == Ok((Http.CREATED, Respond(c, CurrentUser(users, claims).value)))
    {
      var checked := ValidateJson(payload, ValidateCreateComment(payload));
      if checked.Err? {
        return Err(checked.error);
      }
      var user := CurrentUser(users, claims);
      if user.Err? {
        return Err(user.error);
      }
      var c := Comment(nextId, postId, user.value.id, checked.value.content, now, None);
      rows := rows + [c];
      nextId := nextId + 1;
      r := Ok(CreatedResponse(Respond(c, user.value)));
    }

    /** `update_comment`: validate, look up the caller and the comment, refuse anyone but
        its author, then rewrite its content; answers with the updated comment. */
    method Update(users: seq<User>, claims: Claims, postId: Id, commentId: Id, payload: CreateComment)
      returns (r: Result<CommentResponse, AppError>)
      requires Valid()
      modifies this
      ensures Valid() && nextId == old(nextId)
      ensures ValidateCreateComment(payload) != [] ==>
        r == Err(Validation(FormatValidationErrors(ValidateCreateComment(payload)))) && rows == old(rows)
      ensures ValidateCreateComment(payload) == [] && CurrentUser(users, claims).Err? ==>
        r == Err(Database(RowNotFound)) && rows == old(rows)
      ensures ValidateCreateComment(payload) == [] && CurrentUser(users, claims).Ok? &&
              FindComment(old(rows), commentId, postId).None? ==>
        r == Err(Database(RowNotFound)) && rows == old(rows)
      ensures ValidateCreateComment(payload) == [] && CurrentUser(users, claims).Ok? &&
              FindComment(old(rows), commentId, postId).Some? ==>
        var user := CurrentUser(users, claims).value;
        var c := FindComment(old(rows), commentId, postId).value;
        if c.authorId != user.id then
          r == Err(Authorization(CannotEditComment)) && StatusCode(r.error) == Http.FORBIDDEN && rows == old(rows)
        else
          && rows == UpdateWhere(old(rows), IsComment(commentId, postId), WithContent(payload.content))
          && r == Ok(Respond(c.(content := payload.content), user))
    {
      var checked := ValidateJson(payload, ValidateCreateComment(payload));
      if checked.Err? {
        return Err(checked.error);
      }
      var user := CurrentUser(users, claims);
      if user.Err? {
        return Err(user.error);
      }
      var found := FindComment(rows, commentId, postId);
      if found.None? {
        return Err(Database(RowNotFound));
      }
      var c := found.value;
      if c.authorId != user.value.id {
        return Err(Authorization(CannotEditComment));
      }
      UpdateTouchesOnlyContent(rows, commentId, postId, checked.value.content);
      rows := UpdateWhere(rows, IsComment(commentId, postId), WithContent(checked.value.content));
      r := Ok(Respond(c.(content := checked.value.content), user.value));
    }

    /** `delete_comment`: look up the caller and the comment, refuse anyone but its author,
        then delete it by id; answers 204. */
    method Delete(users: seq<User>, claims: Claims, postId: Id, commentId: Id) returns (r: Result<nat, AppError>)
      requires Valid()
      modifies this
      ensures Valid() && nextId == old(nextId)
      ensures CurrentUser(users, claims).Err? ==> r == Err(Database(RowNotFound)) && rows == old(rows)
      ensures CurrentUser(users, claims).Ok? && FindComment(old(rows), commentId, postId).None? ==>
        r == Err(Database(RowNotFound)) && rows == old(rows)
      ensures CurrentUser(users, claims).Ok? && FindComment(old(rows), commentId, postId).Some? ==>
        if FindComment(old(rows), commentId, postId).value.authorId != CurrentUser(users, claims).value.id then
          r == Err(Authorization(CannotDeleteComment)) && StatusCode(r.error) == Http.FORBIDDEN && rows == old(rows)
        else
          && rows == Filter(old(rows), NotId(commentId))
          && |rows| < |old(rows)|
          && r == CheckDeleteResult(|old(rows)| - |rows|, "Comment")
          && r == Ok(Http.NO_CONTENT)
    {
      var user := CurrentUser(users, claims);
      if user.Err? {
        return Err(user.error);
      }
      var found := FindComment(rows, commentId, postId);
      if found.None? {
        return Err(Database(RowNotFound));
      }
      if found.value.authorId != user.value.id {
        return Err(Authorization(CannotDeleteComment));
      }
      var before := rows;
      FilterKeepsKeysIncreasing(rows, NotId(commentId), CommentId);
      rows := Filter(rows, NotId(commentId));
      assert !NotId(commentId)(found.value);
      r := CheckDeleteResult(|before| - |rows|, "Comment");
    }
  }
}
