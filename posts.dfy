/**
 * The post handlers: a paginated listing of posts in id order, fetching one
 * post, editing a post and deleting one. Editing and deleting look only at
 * the id: there is no check of who is asking.
 */
module Posts {
  import opened Basics
  import opened Errors
  import opened Utils
  import opened Validation
  import opened Models
  import opened Store
  import Http

  /** What `get_posts` puts before the formatted field errors of a bad query. */
  const PaginationPrefix := "分页参数"

  /** `u64::div_ceil`: the quotient rounded up. */
  function DivCeil(n: nat, d: nat): (r: nat)
    requires d > 0
    ensures r * d >= n
    ensures r > 0 ==> (r - 1) * d < n
  {
    var q := n / d;
    var rem := n % d;
    assert n == q * d + rem;
    if rem > 0 then
      assert (q + 1) * d == q * d + d;
      q + 1
    else
      q
  }

  /** `(page - 1) * page_size`, the number of posts before the requested page. */
  function Offset(p: Pagination): nat
    requires p.page >= 1
  {
    (p.page - 1) * p.pageSize
  }

  /** `SELECT * FROM posts ORDER BY id LIMIT ? OFFSET ?` over a table kept in id order. */
  function Slice(rows: seq<Post>, offset: nat, limit: nat): (r: seq<Post>)
    ensures |r| <= limit
    ensures offset >= |rows| ==> r == []
    ensures offset < |rows| ==> |r| == if |rows| - offset < limit then |rows| - offset else limit
    ensures forall k :: 0 <= k < |r| ==> offset + k < |rows| && r[k] == rows[offset + k]
  {
    if offset >= |rows| then []
    else if |rows| - offset < limit then rows[offset..]
    else rows[offset..offset + limit]
  }

  /** `get_posts`, over the posts table in id order (the `ORDER BY id` of its query). */
  function GetPosts(rows: seq<Post>, p: Pagination): (r: Result<PaginatedResponse, AppError>)
    requires KeysIncreasing(rows, PostId)
    ensures ValidatePagination(p) != [] ==>
      r == Err(Validation(PaginationPrefix + FormatValidationErrors(ValidatePagination(p))))
      && StatusCode(r.error) == Http.BAD_REQUEST
    ensures ValidatePagination(p) == [] ==>
      && r.Ok?
      && r.value.page == p.page && r.value.pageSize == p.pageSize
      && r.value.total == |rows|
      && r.value.totalPages == DivCeil(|rows|, p.pageSize)
      && |r.value.data| <= p.pageSize
      && (forall k :: 0 <= k < |r.value.data| ==>
            Offset(p) + k < |rows| && r.value.data[k] == rows[Offset(p) + k])
      && (Offset(p) < |rows| ==> |r.value.data| == if |rows| - Offset(p) < p.pageSize then |rows| - Offset(p) else p.pageSize)
  {
    var errs := ValidatePagination(p);
    if errs != [] then Err(Validation(PaginationPrefix + FormatValidationErrors(errs)))
    else
      var total := |rows|;
      var totalPages := DivCeil(total, p.pageSize);
      var data := Slice(rows, Offset(p), p.pageSize);
      Ok(PaginatedResponse(data, p.page, p.pageSize, total, totalPages))
  }

  lemma MulMonotone(a: nat, b: nat, d: nat)
    requires a <= b
    ensures a * d <= b * d
  {
  }

  /** A page has posts exactly when its number is at most the page count `get_posts` reports. */
  lemma PageNonEmptyIff(rows: seq<Post>, p: Pagination)
    requires KeysIncreasing(rows, PostId)
    requires ValidatePagination(p) == []
    ensures GetPosts(rows, p).value.data != [] <==> p.page <= GetPosts(rows, p).value.totalPages
  {
    var n, d := |rows|, p.pageSize;
    var pages := DivCeil(n, d);
    if p.page <= pages {
      MulMonotone(p.page - 1, pages - 1, d);
      assert Offset(p) < n;
    } else {
      MulMonotone(pages, p.page - 1, d);
      assert Offset(p) >= n;
    }
  }

  /** The post at position `i` of the id-ordered table is shown on page `i / size + 1`,
      at position `i % size`. */
  lemma PostOnItsPage(rows: seq<Post>, size: nat, i: nat)
    requires KeysIncreasing(rows, PostId)
    requires 1 <= size <= 100 && i < |rows| && i / size < 1000
    ensures
      var r := GetPosts(rows, Pagination(i / size + 1, size));
      r.Ok? && i % size < |r.value.data| && r.value.data[i % size] == rows[i]
  {
    var p := Pagination(i / size + 1, size);
    assert i == (i / size) * size + i % size;
    assert Offset(p) == (i / size) * size;
    var r := GetPosts(rows, p);
    assert Offset(p) < |rows|;
  }

  /** A listing of a table kept in id order is itself in id order. */
  lemma PageInIdOrder(rows: seq<Post>, p: Pagination)
    requires KeysIncreasing(rows, PostId)
    requires ValidatePagination(p) == []
    ensures KeysIncreasing(GetPosts(rows, p).value.data, PostId)
  {
    var data := GetPosts(rows, p).value.data;
    forall i, j | 0 <= i < j < |data| ensures PostId(data[i]) < PostId(data[j]) {
      assert data[i] == rows[Offset(p) + i] && data[j] == rows[Offset(p) + j];
    }
  }

  function PostId(p: Post): int {
    p.id
  }

  /** The row test of `WHERE id = ?` on the posts table. */
  function HasPostId(id: int): Post -> bool {
    (p: Post) => p.id == id
  }

  /** The rows `DELETE FROM posts WHERE id = ?` keeps. */
  function NotPostId(id: int): Post -> bool {
    (p: Post) => p.id != id
  }

  /** The rewrite of `SET title = ?, content = ?, tags = ?, copyright = ?`. */
  function WithFields(payload: CreatePost): Post -> Post {
    (p: Post) => p.(title := payload.title, content := payload.content, tags := payload.tags, copyright := payload.copyright)
  }

  /** `get_post_by_id`: the post, or `RowNotFound` (404) when no row has the id. */
  function GetPostById(rows: seq<Post>, id: Id): (r: Result<Post, AppError>)
    ensures r.Ok? ==> r.value in rows && r.value.id == id
    ensures r.Err? <==> forall p :: p in rows ==> p.id != id
    ensures r.Err? ==> r.error == Database(RowNotFound) && StatusCode(r.error) == Http.NOT_FOUND
  {
    match Find(rows, HasPostId(id))
    case None => Err(Database(RowNotFound))
    case Some(p) => Ok(p)
  }

  /** After the rows with an id are deleted, fetching that id answers 404. */
  lemma DeleteThenGetNotFound(rows: seq<Post>, id: Id)
    ensures GetPostById(Filter(rows, NotPostId(id)), id) == Err(Database(RowNotFound))
  {
  }

  /** An edit of post `id` leaves every other post as it was and keeps ids, author and timestamps. */
  lemma UpdateTouchesOnlyThatPost(rows: seq<Post>, id: Id, payload: CreatePost)
    ensures forall i :: 0 <= i < |rows| ==>
      var u := UpdateWhere(rows, HasPostId(id), WithFields(payload))[i];
      && u.id == rows[i].id && u.authorId == rows[i].authorId
      && u.createdAt == rows[i].createdAt && u.deletedAt == rows[i].deletedAt
      && (rows[i].id != id ==> u == rows[i])
      && (rows[i].id == id ==> u.title == payload.title && u.content == payload.content
                               && u.tags == payload.tags && u.copyright == payload.copyright)
  {
  }

  /** The posts table, in id order. Rows are created elsewhere. */
  class PostTable {
    var rows: seq<Post>

    ghost predicate Valid()
      reads this
    {
      KeysIncreasing(rows, PostId)
    }

    constructor (initial: seq<Post>)
      requires KeysIncreasing(initial, PostId)
      ensures Valid() && rows == initial
    {
      rows := initial;
    }

    /** `update_post`: validate, then rewrite the post's editable fields; 404 when there is no such post. */
    method UpdatePost(id: Id, payload: CreatePost) returns (r: Result<Post, AppError>)
      requires Valid()
      modifies this
      ensures Valid()
      ensures ValidateCreatePost(payload) != [] ==>
        r == Err(Validation(FormatValidationErrors(ValidateCreatePost(payload)))) && rows == old(rows)
      ensures ValidateCreatePost(payload) == [] && GetPostById(old(rows), id).Err? ==>
        r == Err(Database(RowNotFound)) && rows == old(rows)
      ensures ValidateCreatePost(payload) == [] && GetPostById(old(rows), id).Ok? ==>
        && rows == UpdateWhere(old(rows), HasPostId(id), WithFields(payload))
        && r == Ok(WithFields(payload)(GetPostById(old(rows), id).value))
        && GetPostById(rows, id) == r
    {
      var checked := ValidateJson(payload, ValidateCreatePost(payload));
      if checked.Err? {
        return Err(checked.error);
      }
      var found := GetPostById(rows, id);
      if found.Err? {
        return Err(found.error);
      }
      var before := rows;
      rows := UpdateWhere(rows, HasPostId(id), WithFields(checked.value));
      r := Ok(WithFields(checked.value)(found.value));
      UpdatedPostFound(before, id, checked.value, found.value);
    }

    /** `delete_post`: delete by id; 204 when a row went, NotFound otherwise. */
    method DeletePost(id: Id) returns (r: Result<nat, AppError>)
      requires Valid()
      modifies this
      ensures Valid()
      ensures rows == Filter(old(rows), NotPostId(id))
      ensures r == CheckDeleteResult(|old(rows)| - |rows|, "Post")
      ensures r.Ok? <==> GetPostById(old(rows), id).Ok?
      ensures r.Ok? ==> r.value == Http.NO_CONTENT
      ensures r.Err? ==> r.error == NotFound("Post not found") && StatusCode(r.error) == Http.NOT_FOUND
      ensures GetPostById(rows, id) == Err(Database(RowNotFound))
    {
      var before := rows;
      FilterKeepsKeysIncreasing(rows, NotPostId(id), PostId);
      rows := Filter(rows, NotPostId(id));
      r := CheckDeleteResult(|before| - |rows|, "Post");
      DeleteThenGetNotFound(before, id);
      if GetPostById(before, id).Ok? {
        assert !NotPostId(id)(GetPostById(before, id).value);
      }
    }
  }

  /** In an id-ordered table the edited post is the one fetching its id returns. */
  lemma UpdatedPostFound(rows: seq<Post>, id: Id, payload: CreatePost, previous: Post)
    requires KeysIncreasing(rows, PostId)
    requires GetPostById(rows, id) == Ok(previous)
    ensures KeysIncreasing(UpdateWhere(rows, HasPostId(id), WithFields(payload)), PostId)
    ensures GetPostById(UpdateWhere(rows, HasPostId(id), WithFields(payload)), id) == Ok(WithFields(payload)(previous))
  {
    var updated := UpdateWhere(rows, HasPostId(id), WithFields(payload));
    var i :| 0 <= i < |rows| && rows[i] == previous;
    assert updated[i] == WithFields(payload)(previous);
    var found := GetPostById(updated, id);
    var j :| 0 <= j < |updated| && updated[j] == found.value;
    assert rows[j].id == id;
    assert i == j;
  }
}
