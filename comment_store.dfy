/** The comment store: the loaded comments, a loading flag, an error
    message and the pagination the backend reported. Reads decode one of two
    response shapes; every mutation calls its endpoint and then reloads the
    comments. */
module CommentStore {
  import opened Wrappers
  import opened Text
  import opened Js

  datatype Status = Approved | Pending | Rejected | Hidden

  /** The wire name of a status. */
  function StatusName(s: Status): (name: string)
    ensures |name| > 0
  {
    match s
    case Approved => "APPROVED"
    case Pending => "PENDING"
    case Rejected => "REJECTED"
    case Hidden => "HIDDEN"
  }

  lemma {:induction false} StatusNameInjective(a: Status, b: Status)
    ensures StatusName(a) == StatusName(b) <==> a == b
  {
    if a != b {
      match a
      case Approved => assert StatusName(a)[0] == 'A';
      case Pending => assert StatusName(a)[0] == 'P';
      case Rejected => assert StatusName(a)[0] == 'R';
      case Hidden => assert StatusName(a)[0] == 'H';
    }
  }

  /** The nested anime, season or episode a comment refers to. */
  datatype Ref = Ref(id: int, title: string)

  /** A comment; `createdAt` is a timestamp. Users, replies and reports
      are not part of this model. */
  datatype Comment = Comment(
    id: int,
    content: string,
    status: Status,
    isSpoiler: bool,
    createdAt: int,
    anime: Option<Ref>,
    season: Option<Ref>,
    episode: Option<Ref>)

  datatype Pagination = Pagination(page: int, limit: int, total: int, pages: int)

  const InitialPagination := Pagination(1, 5, 0, 0)

  /** What `res.data` can be: an object with a `comments` key (whose
      `comments` and `pagination` values may be falsy, written `None`), a
      bare array of comments, or anything else. */
  datatype ResponseData =
    | Listing(comments: Option<seq<Comment>>, pagination: Option<Pagination>)
    | Bare(items: seq<Comment>)
    | Other

  datatype Decoded = Decoded(comments: seq<Comment>, pagination: Pagination)

  /** The shape dispatch shared by `fetchComments` and `searchComments`. */
  function Decode(data: ResponseData, current: Pagination): (r: Decoded)
    ensures data.Listing? && data.comments.Some? ==> r.comments == data.comments.value
    ensures data.Listing? && data.comments.None? ==> r.comments == []
    ensures data.Listing? && data.pagination.Some? ==> r.pagination == data.pagination.value
    ensures data.Listing? && data.pagination.None? ==> r.pagination == InitialPagination
    ensures data.Bare? ==> r.comments == data.items && r.pagination == current
    ensures data.Other? ==> r.comments == [] && r.pagination == current
  {
    match data
    case Listing(cs, p) => Decoded(cs.GetOr([]), p.GetOr(InitialPagination))
    case Bare(items) => Decoded(items, current)
    case Other => Decoded([], current)
  }

  /** The response the current backend sends for a decoded state. */
  function Encode(d: Decoded): ResponseData {
    Listing(Some(d.comments), Some(d.pagination))
  }

  /** Decoding the response the backend sends for a state gives that state
      back, whatever pagination was current. */
  lemma {:induction false} DecodeEncode(d: Decoded, current: Pagination)
    ensures Decode(Encode(d), current) == d
  {
  }

  /** Only a listing response can change the pagination. */
  lemma {:induction false} DecodeKeepsPagination(data: ResponseData, current: Pagination)
    requires !data.Listing?
    ensures Decode(data, current).pagination == current
  {
  }

  // ---------------------------------------------------------------- requests

  datatype CreatePayload = CreatePayload(
    animeId: Option<int>,
    content: string,
    seasonId: Option<int>,
    episodeId: Option<int>,
    isSpoiler: bool)

  /** An id field of an update: left out of the body, sent as `null`, or
      set to a number. */
  datatype IdPatch = Omitted | Cleared | SetId(id: int)

  /** `{ content, status, seasonId, episodeId }`; a `None` text field is
      left out of the body. */
  datatype UpdatePayload = UpdatePayload(
    content: Option<string>,
    status: Option<string>,
    seasonId: IdPatch,
    episodeId: IdPatch)

  datatype SearchQuery = SearchQuery(content: string, anime: string, user: string)

  datatype Mutation =
    | Create(payload: CreatePayload)
    | Update(id: int, patch: UpdatePayload)
    | Remove(id: int)
    | Approve(id: int)
    | Reject(id: int)

  /** The requests, in order; ids travel as strings. */
  datatype CommentCall =
    | FetchAll
    | Search(query: SearchQuery)
    | Post(payload: CreatePayload)
    | Put(id: string, patch: UpdatePayload)
    | Delete(id: string)
    | PostApprove(id: string)
    | PostReject(id: string)

  function MutationCall(m: Mutation): CommentCall {
    match m
    case Create(p) => Post(p)
    case Update(id, patch) => Put(IntToString(id), patch)
    case Remove(id) => Delete(IntToString(id))
    case Approve(id) => PostApprove(IntToString(id))
    case Reject(id) => PostReject(IntToString(id))
  }

  function MutationError(m: Mutation): string {
    match m
    case Create(_) => "Yorum eklenemedi"
    case Update(_, _) => "Yorum güncellenemedi"
    case Remove(_) => "Yorum silinemedi"
    case Approve(_) => "Yorum onaylanamadı"
    case Reject(_) => "Yorum reddedilemedi"
  }

  const FetchError := "Yorumlar yüklenemedi"
  const SearchError := "Yorumlar getirilemedi"

  // ---------------------------------------------------------------- the store

  class Store {
    var comments: seq<Comment>
    var loading: bool
    var error: Option<string>
    var pagination: Pagination

    constructor ()
      ensures comments == [] && !loading && error == None && pagination == InitialPagination
    {
      comments := [];
      loading := false;
      error := None;
      pagination := InitialPagination;
    }

    method Reset()
      modifies this
      ensures comments == [] && !loading && error == None && pagination == InitialPagination
    {
      comments := [];
      loading := false;
      error := None;
      pagination := InitialPagination;
    }

    method SetLoading(value: bool)
      modifies this
      ensures loading == value
      ensures comments == old(comments) && error == old(error) && pagination == old(pagination)
    {
      loading := value;
    }

    method SetPagination(value: Pagination)
      modifies this
      ensures pagination == value
      ensures comments == old(comments) && error == old(error) && loading == old(loading)
    {
      pagination := value;
    }

    /** A read: decode the response, or keep the comments and record the
        error's message or `fallback`. */
    method Load(outcome: ApiResult<ResponseData>, fallback: string)
      modifies this
      ensures !loading
      ensures outcome.Success? ==> (error == None
        && comments == Decode(outcome.value, old(pagination)).comments
        && pagination == Decode(outcome.value, old(pagination)).pagination)
      ensures outcome.Failure? ==> (error == Some(ErrorText(outcome.message, fallback))
        && comments == old(comments) && pagination == old(pagination))
    {
      loading := true;
      error := None;
      match outcome {
        case Success(data) =>
          var d := Decode(data, pagination);
          comments := d.comments;
          pagination := d.pagination;
          loading := false;
        case Failure(m) =>
          loading := false;
          error := Some(ErrorText(m, fallback));
      }
    }

    method FetchComments(outcome: ApiResult<ResponseData>) returns (calls: seq<CommentCall>)
      modifies this
      ensures calls == [FetchAll]
      ensures !loading
      ensures outcome.Success? ==> (error == None
        && comments == Decode(outcome.value, old(pagination)).comments
        && pagination == Decode(outcome.value, old(pagination)).pagination)
      ensures outcome.Failure? ==> (error == Some(ErrorText(outcome.message, FetchError))
        && comments == old(comments) && pagination == old(pagination))
    {
      Load(outcome, FetchError);
      calls := [FetchAll];
    }

    method SearchComments(q: SearchQuery, outcome: ApiResult<ResponseData>) returns (calls: seq<CommentCall>)
      modifies this
      ensures calls == [Search(q)]
      ensures !loading
      ensures outcome.Success? ==> (error == None
        && comments == Decode(outcome.value, old(pagination)).comments
        && pagination == Decode(outcome.value, old(pagination)).pagination)
      ensures outcome.Failure? ==> (error == Some(ErrorText(outcome.message, SearchError))
        && comments == old(comments) && pagination == old(pagination))
    {
      Load(outcome, SearchError);
      calls := [Search(q)];
    }

    /** `addComment`, `editComment`, `removeComment`, `approveComment` and
        `rejectComment`: call the endpoint, then reload the comments (a
        reload catches its own errors), and end with `loading` false. */
    method Mutate(m: Mutation, outcome: ApiResult<()>, refetch: ApiResult<ResponseData>)
      returns (calls: seq<CommentCall>)
      modifies this
      ensures !loading
      ensures outcome.Success? ==> calls == [MutationCall(m), FetchAll]
      ensures outcome.Success? && refetch.Success? ==> (error == None
        && comments == Decode(refetch.value, old(pagination)).comments
        && pagination == Decode(refetch.value, old(pagination)).pagination)
      ensures outcome.Success? && refetch.Failure? ==> (error == Some(ErrorText(refetch.message, FetchError))
        && comments == old(comments) && pagination == old(pagination))
      ensures outcome.Failure? ==> (calls == [MutationCall(m)]
        && error == Some(ErrorText(outcome.message, MutationError(m)))
        && comments == old(comments) && pagination == old(pagination))
    {
      loading := true;
      error := None;
      calls := [MutationCall(m)];
      match outcome {
        case Success(_) =>
          var more := FetchComments(refetch);
          calls := calls + more;
          loading := false;
        case Failure(msg) =>
          loading := false;
          error := Some(ErrorText(msg, MutationError(m)));
      }
    }
  }
}
