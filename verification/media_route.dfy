/**
 * The media library endpoint of app/api/media/route.ts: the three handlers
 * and the order of their checks (authentication, then validation, then
 * ownership, then the database). The signed-in user and every database
 * answer are inputs; the `media_files` table is a sequence of rows where a
 * handler changes it.
 */
module MediaRoute {
  import opened Outcomes
  import opened Seqs

  /** A row of `media_files`. */
  datatype MediaFile = MediaFile(
    id: string,
    userId: string,
    filename: string,
    url: string,
    mimeType: string,
    sizeBytes: int,
    altText: Option<string>,
    folder: string,
    createdAt: string)

  /** What a database call returned: its data, or its error's message. */
  datatype DbResult<T> = Data(data: T) | DbError(message: string)

  /** The JSON responses the handlers produce. */
  datatype MediaResponse =
    | Failure(status: int, code: string, message: string)
    | Files(files: seq<MediaFile>)
    | Created(file: MediaFile)
    | Deleted

  /** The HTTP status of a response: `{ files }` and `{ success: true }` are 200, `{ file }` is 201. */
  function StatusOf(r: MediaResponse): int {
    match r
    case Failure(status, _, _) => status
    case Files(_) => 200
    case Created(_) => 201
    case Deleted => 200
  }

  const Unauthorized := Failure(401, "UNAUTHORIZED", "Authentication required")

  /** The GET query: the caller's rows, newest first, optionally narrowed, at most `Limit` of them. */
  datatype FileQuery = FileQuery(
    userId: string,
    orderBy: string,
    ascending: bool,
    filenameLike: Option<string>,
    folder: Option<string>,
    limit: int)

  const Limit := 100

  /**
   * The query `GET` builds: always scoped to the caller; the `%search%`
   * filename filter and the folder filter are added only for non-empty
   * parameters; rows come ordered by `created_at`, descending.
   */
  function ListQuery(userId: string, search: Option<string>, folder: Option<string>): (q: FileQuery)
    ensures q.userId == userId && q.limit == Limit
    ensures q.orderBy == "created_at" && !q.ascending
    ensures q.filenameLike.Some? <==> Present(search)
    ensures q.filenameLike.Some? ==> q.filenameLike.value == "%" + search.value + "%"
    ensures q.folder.Some? <==> Present(folder)
    ensures q.folder.Some? ==> q.folder.value == folder.value
  {
    FileQuery(userId, "created_at", false,
              if Present(search) then Some("%" + search.value + "%") else None,
              if Present(folder) then Some(folder.value) else None,
              Limit)
  }

  /** What a `GET` did: the query it sent (none when unauthenticated), and its response. */
  datatype ListRun = ListRun(query: Option<FileQuery>, response: MediaResponse)

  /** `GET /api/media`. */
  function List(user: Option<string>, search: Option<string>, folder: Option<string>,
                answer: DbResult<seq<MediaFile>>): (r: ListRun)
    ensures user.None? ==> r == ListRun(None, Unauthorized)
    ensures user.Some? ==> r.query == Some(ListQuery(user.value, search, folder))
    ensures user.Some? && answer.Data? ==> r.response == Files(answer.data)
    ensures user.Some? && answer.DbError? ==> r.response == Failure(500, "FETCH_FAILED", answer.message)
  {
    match user
    case None => ListRun(None, Unauthorized)
    case Some(id) =>
      var query := ListQuery(id, search, folder);
      match answer
      case Data(files) => ListRun(Some(query), Files(files))
      case DbError(m) => ListRun(Some(query), Failure(500, "FETCH_FAILED", m))
  }

  /** A row the GET query selects, given the database's `ILIKE` as `like`. */
  predicate Selects(q: FileQuery, like: (string, string) -> bool, f: MediaFile) {
    f.userId == q.userId
    && (q.filenameLike.None? || like(f.filename, q.filenameLike.value))
    && (q.folder.None? || f.folder == q.folder.value)
  }

  /**
   * The listing is scoped to the caller: when the database answers the
   * query it was sent, every file in the response is the caller's. The
   * bound of 100 is the database's, honouring the query's `limit`; the
   * route itself does not cut the answer.
   */
  lemma ListIsScopedToCaller(user: string, search: Option<string>, folder: Option<string>,
                             like: (string, string) -> bool, rows: seq<MediaFile>)
    requires |rows| <= Limit
    requires forall k :: 0 <= k < |rows| ==> Selects(ListQuery(user, search, folder), like, rows[k])
    ensures var r := List(Some(user), search, folder, Data(rows)).response;
            r.Files? && |r.files| <= 100 && forall k :: 0 <= k < |r.files| ==> r.files[k].userId == user
  {
  }

  /** An empty search or folder parameter is the same as none. */
  lemma EmptyParametersAreIgnored(user: string, search: Option<string>, folder: Option<string>)
    ensures ListQuery(user, Some(""), folder) == ListQuery(user, None, folder)
    ensures ListQuery(user, search, Some("")) == ListQuery(user, search, None)
  {
  }

  /** The JSON body of a `POST`; every field may be missing. */
  datatype UploadBody = UploadBody(
    filename: Option<string>,
    url: Option<string>,
    mimeType: Option<string>,
    sizeBytes: Option<int>,
    altText: Option<string>,
    folder: Option<string>)

  /** The row `POST` inserts. */
  datatype NewFile = NewFile(
    filename: string,
    url: string,
    mimeType: string,
    sizeBytes: int,
    altText: Option<string>,
    folder: string,
    userId: string)

  /** `!filename || !url || !mime_type`. */
  predicate MissingRequired(b: UploadBody) {
    !Present(b.filename) || !Present(b.url) || !Present(b.mimeType)
  }

  const MissingRequiredError := Failure(400, "VALIDATION", "filename, url, and mime_type are required")

  /** The insert of a valid body: size 0, no alt text and the root folder by default, owned by the caller. */
  function NewRow(b: UploadBody, userId: string): (r: NewFile)
    requires !MissingRequired(b)
    ensures r.filename == b.filename.value && r.url == b.url.value && r.mimeType == b.mimeType.value
    ensures r.sizeBytes == (if b.sizeBytes.Some? then b.sizeBytes.value else 0)
    ensures r.altText == b.altText
    ensures r.folder == (if b.folder.Some? then b.folder.value else "")
    ensures r.userId == userId
  {
    NewFile(b.filename.value, b.url.value, b.mimeType.value, b.sizeBytes.GetOr(0), b.altText, b.folder.GetOr(""), userId)
  }

  /** What a `POST` did: the row it inserted (none when it stopped early), and its response. */
  datatype CreateRun = CreateRun(inserted: Option<NewFile>, response: MediaResponse)

  /** `POST /api/media`. */
  function Create(user: Option<string>, body: UploadBody, answer: DbResult<MediaFile>): (r: CreateRun)
    ensures user.None? ==> r == CreateRun(None, Unauthorized)
    ensures user.Some? && MissingRequired(body) ==> r == CreateRun(None, MissingRequiredError)
    ensures user.Some? && !MissingRequired(body) ==> r.inserted == Some(NewRow(body, user.value))
    ensures user.Some? && !MissingRequired(body) && answer.Data? ==> r.response == Created(answer.data)
    ensures user.Some? && !MissingRequired(body) && answer.DbError? ==>
              r.response == Failure(500, "CREATE_FAILED", answer.message)
  {
    match user
    case None => CreateRun(None, Unauthorized)
    case Some(id) =>
      if MissingRequired(body) then CreateRun(None, MissingRequiredError)
      else
        var row := NewRow(body, id);
        match answer
        case Data(file) => CreateRun(Some(row), Created(file))
        case DbError(m) => CreateRun(Some(row), Failure(500, "CREATE_FAILED", m))
  }

  /** A created file is always owned by the caller, whatever owner the body claims. */
  lemma CreatedRowIsCallers(user: string, body: UploadBody, answer: DbResult<MediaFile>)
    ensures Create(Some(user), body, answer).inserted.Some? ==> Create(Some(user), body, answer).inserted.value.userId == user
    ensures Create(Some(user), body, answer).inserted.Some? <==> !MissingRequired(body)
  {
  }

  /** The rows `.eq("id", id).eq("user_id", userId)` selects. */
  function OwnedWithId(id: string, userId: string): MediaFile -> bool {
    (f: MediaFile) => f.id == id && f.userId == userId
  }

  /** What a `DELETE` did: the table it left, and its response. */
  datatype DeleteRun = DeleteRun(table: seq<MediaFile>, response: MediaResponse)

  /**
   * `DELETE /api/media?id=…`: no id is a 400; the ownership lookup uses
   * `.single()`, so anything but exactly one owned row with that id is a
   * 404; otherwise the owned rows with that id are deleted, unless the
   * delete fails (then the table is left as it was).
   */
  function Delete(table: seq<MediaFile>, user: Option<string>, id: Option<string>, deleteError: Option<string>): (r: DeleteRun)
    ensures user.None? ==> r == DeleteRun(table, Unauthorized)
    ensures user.Some? && !Present(id) ==> r == DeleteRun(table, Failure(400, "VALIDATION", "id is required"))
    ensures user.Some? && Present(id) && Count(OwnedWithId(id.value, user.value), table) != 1 ==>
              r == DeleteRun(table, Failure(404, "NOT_FOUND", "Media file not found"))
    ensures user.Some? && Present(id) && Count(OwnedWithId(id.value, user.value), table) == 1 && deleteError.Some? ==>
              r == DeleteRun(table, Failure(500, "DELETE_FAILED", deleteError.value))
    ensures r.response == Deleted ==>
              user.Some? && Present(id) && forall f :: f in r.table <==> f in table && !(f.id == id.value && f.userId == user.value)
    ensures IsSubsequence(r.table, table)
  {
    FilterIsSubsequence(Not(OwnedWithId(id.GetOr(""), user.GetOr(""))), table);
    SubsequenceOfSelf(table);
    if user.None? then DeleteRun(table, Unauthorized)
    else if !Present(id) then DeleteRun(table, Failure(400, "VALIDATION", "id is required"))
    else if Count(OwnedWithId(id.value, user.value), table) != 1 then
      DeleteRun(table, Failure(404, "NOT_FOUND", "Media file not found"))
    else if deleteError.Some? then DeleteRun(table, Failure(500, "DELETE_FAILED", deleteError.value))
    else DeleteRun(Filter(Not(OwnedWithId(id.value, user.value)), table), Deleted)
  }

  /** Nobody else's rows are ever touched by a delete. */
  lemma DeleteKeepsOthersRows(table: seq<MediaFile>, user: Option<string>, id: Option<string>,
                              deleteError: Option<string>, f: MediaFile)
    requires f in table && (user.None? || f.userId != user.value)
    ensures f in Delete(table, user, id, deleteError).table
  {
  }

  /** A successful delete removes exactly one row: the caller's row with that id. */
  lemma {:induction false} DeleteRemovesOneRow(table: seq<MediaFile>, user: string, id: string)
    requires id != "" && Count(OwnedWithId(id, user), table) == 1
    ensures Delete(table, Some(user), Some(id), None).response == Deleted
    ensures |Delete(table, Some(user), Some(id), None).table| == |table| - 1
  {
    FilterPartition(OwnedWithId(id, user), table);
  }

  /** Every handler answers 401 before looking at anything else. */
  lemma AuthenticationComesFirst(table: seq<MediaFile>, search: Option<string>, folder: Option<string>,
                                 files: DbResult<seq<MediaFile>>, body: UploadBody, created: DbResult<MediaFile>,
                                 id: Option<string>, deleteError: Option<string>)
    ensures StatusOf(List(None, search, folder, files).response) == 401
    ensures StatusOf(Create(None, body, created).response) == 401
    ensures StatusOf(Delete(table, None, id, deleteError).response) == 401
  {
  }
}
