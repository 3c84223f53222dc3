/** The forum store: the list of forums, the list of topics, a loading flag,
    an error message and the set of topic ids whose moderation request is
    in flight. Every action sets its fields through successive updates
    around one REST call; the call's outcome is a parameter here. */
module ForumStore {
  import opened Wrappers
  import opened Text
  import opened Lists
  import opened Js

  datatype Forum = Forum(
    id: string,
    title: string,
    description: Option<string>,
    category: Option<string>,
    isActive: bool)

  datatype Topic = Topic(
    id: int,
    title: string,
    content: string,
    forumId: string,
    status: string,
    isPinned: bool,
    isLocked: bool,
    isSticky: bool,
    tags: seq<string>)

  /** The body of a topic list response; `topics` may be missing. */
  datatype TopicsResponse = TopicsResponse(topics: Option<seq<Topic>>)

  /** Topic ids are numbers, but the actions receive them as strings and
      match with `t.id.toString() === id`. */
  predicate TopicHasId(t: Topic, id: string) {
    IntToString(t.id) == id
  }

  /** The three moderation flags. */
  datatype Flag = Pinned | Locked | Sticky

  function FlagOf(t: Topic, flag: Flag): bool {
    match flag
    case Pinned => t.isPinned
    case Locked => t.isLocked
    case Sticky => t.isSticky
  }

  /** `{ ...t, isPinned: !t.isPinned }` and its two siblings. */
  function Flip(t: Topic, flag: Flag): (u: Topic)
    ensures FlagOf(u, flag) == !FlagOf(t, flag)
    ensures forall g :: g != flag ==> FlagOf(u, g) == FlagOf(t, g)
    ensures u.id == t.id && u.title == t.title && u.content == t.content
    ensures u.forumId == t.forumId && u.status == t.status && u.tags == t.tags
  {
    match flag
    case Pinned => t.(isPinned := !t.isPinned)
    case Locked => t.(isLocked := !t.isLocked)
    case Sticky => t.(isSticky := !t.isSticky)
  }

  // ---------------------------------------------------------------- list transitions

  /** `forums.map(f => f.id === id ? updated : f)`. */
  function ReplaceForum(forums: seq<Forum>, id: string, updated: Forum): (r: seq<Forum>)
    ensures |r| == |forums|
    ensures forall i :: 0 <= i < |forums| && forums[i].id == id ==> r[i] == updated
    ensures forall i :: 0 <= i < |forums| && forums[i].id != id ==> r[i] == forums[i]
  {
    MapWhere(forums, (f: Forum) => f.id == id, (_: Forum) => updated)
  }

  /** `forums.filter(f => f.id !== id)`. */
  function DropForum(forums: seq<Forum>, id: string): (r: seq<Forum>)
    ensures forall k :: 0 <= k < |r| ==> r[k].id != id && r[k] in forums
    ensures forall k :: 0 <= k < |forums| && forums[k].id != id ==> forums[k] in r
    ensures IsSubseq(r, forums)
  {
    Filter(forums, (f: Forum) => f.id != id)
  }

  /** `topics.map(t => t.id.toString() === id ? updated : t)`. */
  function ReplaceTopic(topics: seq<Topic>, id: string, updated: Topic): (r: seq<Topic>)
    ensures |r| == |topics|
    ensures forall i :: 0 <= i < |topics| && TopicHasId(topics[i], id) ==> r[i] == updated
    ensures forall i :: 0 <= i < |topics| && !TopicHasId(topics[i], id) ==> r[i] == topics[i]
  {
    MapWhere(topics, (t: Topic) => TopicHasId(t, id), (_: Topic) => updated)
  }

  /** `t.id.toString() === id` for an id of any JavaScript type: strict
      equality is false between a string and a number. */
  predicate MatchesLoose(t: Topic, id: Value) {
    id == Str(IntToString(t.id))
  }

  /** `updateTopic`'s local replacement, for whatever id the caller
      passes. */
  function ReplaceTopicLoose(topics: seq<Topic>, id: Value, updated: Topic): (r: seq<Topic>)
    ensures |r| == |topics|
    ensures forall i :: 0 <= i < |topics| ==> r[i] == (if MatchesLoose(topics[i], id) then updated else topics[i])
  {
    MapWhere(topics, (t: Topic) => MatchesLoose(t, id), (_: Topic) => updated)
  }

  /** `topics.filter(t => t.id.toString() !== id)`. */
  function DropTopic(topics: seq<Topic>, id: string): (r: seq<Topic>)
    ensures forall k :: 0 <= k < |r| ==> !TopicHasId(r[k], id) && r[k] in topics
    ensures forall k :: 0 <= k < |topics| && !TopicHasId(topics[k], id) ==> topics[k] in r
    ensures IsSubseq(r, topics)
  {
    Filter(topics, (t: Topic) => !TopicHasId(t, id))
  }

  /** The local flag flip after a successful moderation call. */
  function ToggleFlag(topics: seq<Topic>, id: string, flag: Flag): (r: seq<Topic>)
    ensures |r| == |topics|
    ensures forall i :: 0 <= i < |topics| && TopicHasId(topics[i], id) ==> r[i] == Flip(topics[i], flag)
    ensures forall i :: 0 <= i < |topics| && !TopicHasId(topics[i], id) ==> r[i] == topics[i]
  {
    MapWhere(topics, (t: Topic) => TopicHasId(t, id), (t: Topic) => Flip(t, flag))
  }

  /** Two successful moderations of the same kind restore the list. */
  lemma {:induction false} ToggleFlagTwice(topics: seq<Topic>, id: string, flag: Flag)
    ensures ToggleFlag(ToggleFlag(topics, id, flag), id, flag) == topics
  {
    var once := ToggleFlag(topics, id, flag);
    var twice := ToggleFlag(once, id, flag);
    forall i | 0 <= i < |topics| ensures twice[i] == topics[i] {
      if TopicHasId(topics[i], id) {
        FlipTwice(topics[i], flag);
      }
    }
  }

  lemma {:induction false} FlipTwice(t: Topic, flag: Flag)
    ensures Flip(Flip(t, flag), flag) == t
  {
    match flag
    case Pinned =>
    case Locked =>
    case Sticky =>
  }

  /** Moderating one topic leaves the other flags of every topic alone. */
  lemma {:induction false} ToggleFlagKeepsOtherFlags(topics: seq<Topic>, id: string, flag: Flag, other: Flag)
    requires other != flag
    ensures forall i :: 0 <= i < |topics| ==>
      FlagOf(ToggleFlag(topics, id, flag)[i], other) == FlagOf(topics[i], other)
  {
  }

  // ---------------------------------------------------------------- messages

  const FetchForumsError := "Forums yüklenirken hata oluştu"
  const AddForumError := "Forum eklenirken hata oluştu"
  const EditForumError := "Forum güncellenirken hata oluştu"
  const RemoveForumError := "Forum silinirken hata oluştu"
  const CreateCategoryError := "Kategori eklenirken hata oluştu"
  const UpdateCategoryError := "Kategori güncellenirken hata oluştu"
  const RemoveCategoryError := "Kategori silinirken hata oluştu"
  const AllTopicsError := "Konular yüklenirken hata oluştu"
  const ForumTopicsError := "Forum konuları yüklenirken hata oluştu"
  const CreateTopicError := "Konu oluşturulurken hata oluştu"
  const GetTopicError := "Konu yüklenirken hata oluştu"
  const UpdateTopicError := "Konu güncellenirken hata oluştu"
  const DeleteTopicError := "Konu silinirken hata oluştu"
  const DeletePostError := "Yanıt silinirken hata oluştu"

  function ModerationError(flag: Flag): string {
    match flag
    case Pinned => "Konu sabitleme hatası"
    case Locked => "Konu kilitleme hatası"
    case Sticky => "Konu yapışkan yapma hatası"
  }

  // ---------------------------------------------------------------- the store

  class Store {
    var forums: seq<Forum>
    var topics: seq<Topic>
    var loading: bool
    var error: Option<string>
    var moderatingTopics: set<string>

    /** The initial state. */
    constructor ()
      ensures forums == [] && topics == [] && !loading && error == None
      ensures moderatingTopics == {}
    {
      forums := [];
      topics := [];
      loading := false;
      error := None;
      moderatingTopics := {};
    }

    /** The opening `set({ loading: true, error: null })` of a request. */
    method BeginRequest()
      modifies this
      ensures loading && error == None
      ensures forums == old(forums) && topics == old(topics)
      ensures moderatingTopics == old(moderatingTopics)
    {
      loading := true;
      error := None;
    }

    /** The closing update of a request: `loading` off, and the message
        stored when the call failed. */
    method EndRequest(ok: bool, message: string)
      modifies this
      ensures !loading
      ensures error == (if ok then old(error) else Some(message))
      ensures forums == old(forums) && topics == old(topics)
      ensures moderatingTopics == old(moderatingTopics)
    {
      loading := false;
      if !ok {
        error := Some(message);
      }
    }

    method FetchForums(outcome: ApiResult<seq<Forum>>)
      modifies this
      ensures !loading
      ensures outcome.Success? ==> forums == outcome.value && error == None
      ensures outcome.Failure? ==> forums == old(forums) && error == Some(FetchForumsError)
      ensures topics == old(topics) && moderatingTopics == old(moderatingTopics)
    {
      BeginRequest();
      if outcome.Success? {
        forums := outcome.value;
      }
      EndRequest(outcome.Success?, FetchForumsError);
    }

    /** A created forum is appended; a failure leaves the list alone. */
    method AddForum(outcome: ApiResult<Forum>)
      modifies this
      ensures !loading
      ensures outcome.Success? ==> forums == old(forums) + [outcome.value] && error == None
      ensures outcome.Failure? ==> forums == old(forums) && error == Some(AddForumError)
      ensures topics == old(topics) && moderatingTopics == old(moderatingTopics)
    {
      BeginRequest();
      if outcome.Success? {
        forums := forums + [outcome.value];
      }
      EndRequest(outcome.Success?, AddForumError);
    }

    method EditForum(id: string, outcome: ApiResult<Forum>)
      modifies this
      ensures !loading
      ensures outcome.Success? ==> forums == ReplaceForum(old(forums), id, outcome.value) && error == None
      ensures outcome.Failure? ==> forums == old(forums) && error == Some(EditForumError)
      ensures topics == old(topics) && moderatingTopics == old(moderatingTopics)
    {
      BeginRequest();
      if outcome.Success? {
        forums := ReplaceForum(forums, id, outcome.value);
      }
      EndRequest(outcome.Success?, EditForumError);
    }

    method RemoveForum(id: string, outcome: ApiResult<()>)
      modifies this
      ensures !loading
      ensures outcome.Success? ==> forums == DropForum(old(forums), id) && error == None
      ensures outcome.Failure? ==> forums == old(forums) && error == Some(RemoveForumError)
      ensures topics == old(topics) && moderatingTopics == old(moderatingTopics)
    {
      BeginRequest();
      if outcome.Success? {
        forums := DropForum(forums, id);
      }
      EndRequest(outcome.Success?, RemoveForumError);
    }

    /** Category actions and `deletePost` only touch `loading` and `error`. */
    method CreateCategory(outcome: ApiResult<()>)
      modifies this
      ensures !loading && error == (if outcome.Success? then None else Some(CreateCategoryError))
      ensures forums == old(forums) && topics == old(topics) && moderatingTopics == old(moderatingTopics)
    {
      BeginRequest();
      EndRequest(outcome.Success?, CreateCategoryError);
    }

    method UpdateCategory(id: string, outcome: ApiResult<()>)
      modifies this
      ensures !loading && error == (if outcome.Success? then None else Some(UpdateCategoryError))
      ensures forums == old(forums) && topics == old(topics) && moderatingTopics == old(moderatingTopics)
    {
      BeginRequest();
      EndRequest(outcome.Success?, UpdateCategoryError);
    }

    method RemoveCategory(id: string, outcome: ApiResult<()>)
      modifies this
      ensures !loading && error == (if outcome.Success? then None else Some(RemoveCategoryError))
      ensures forums == old(forums) && topics == old(topics) && moderatingTopics == old(moderatingTopics)
    {
      BeginRequest();
      EndRequest(outcome.Success?, RemoveCategoryError);
    }

    method DeletePost(id: string, outcome: ApiResult<()>)
      modifies this
      ensures !loading && error == (if outcome.Success? then None else Some(DeletePostError))
      ensures forums == old(forums) && topics == old(topics) && moderatingTopics == old(moderatingTopics)
    {
      BeginRequest();
      EndRequest(outcome.Success?, DeletePostError);
    }

    method GetTopic(id: string, outcome: ApiResult<Topic>)
      modifies this
      ensures !loading && error == (if outcome.Success? then None else Some(GetTopicError))
      ensures forums == old(forums) && topics == old(topics) && moderatingTopics == old(moderatingTopics)
    {
      BeginRequest();
      EndRequest(outcome.Success?, GetTopicError);
    }

    /** `getAllTopics`: the response's topics, or `[]` when it has none. */
    method GetAllTopics(outcome: ApiResult<TopicsResponse>)
      modifies this
      ensures !loading
      ensures outcome.Success? ==> topics == outcome.value.topics.GetOr([]) && error == None
      ensures outcome.Failure? ==> topics == old(topics) && error == Some(AllTopicsError)
      ensures forums == old(forums) && moderatingTopics == old(moderatingTopics)
    {
      BeginRequest();
      if outcome.Success? {
        topics := outcome.value.topics.GetOr([]);
      }
      EndRequest(outcome.Success?, AllTopicsError);
    }

    /** `getTopicsByForum`: the response's topics, or `[]` when it has none. */
    method GetTopicsByForum(forumId: string, outcome: ApiResult<TopicsResponse>)
      modifies this
      ensures !loading
      ensures outcome.Success? && outcome.value.topics.Some? ==> topics == outcome.value.topics.value
      ensures outcome.Success? && outcome.value.topics.None? ==> topics == []
      ensures outcome.Success? ==> error == None
      ensures outcome.Failure? ==> topics == old(topics) && error == Some(ForumTopicsError)
      ensures forums == old(forums) && moderatingTopics == old(moderatingTopics)
    {
      BeginRequest();
      if outcome.Success? {
        topics := outcome.value.topics.GetOr([]);
      }
      EndRequest(outcome.Success?, ForumTopicsError);
    }

    method CreateTopic(outcome: ApiResult<Topic>)
      modifies this
      ensures !loading
      ensures outcome.Success? ==> topics == old(topics) + [outcome.value] && error == None
      ensures outcome.Failure? ==> topics == old(topics) && error == Some(CreateTopicError)
      ensures forums == old(forums) && moderatingTopics == old(moderatingTopics)
    {
      BeginRequest();
      if outcome.Success? {
        topics := topics + [outcome.value];
      }
      EndRequest(outcome.Success?, CreateTopicError);
    }

    /** `updateTopic`; `id` is whatever JavaScript value the caller
      passes, since the comparison is untyped at run time. */
    method UpdateTopic(id: Value, outcome: ApiResult<Topic>)
      modifies this
      ensures !loading
      ensures outcome.Success? ==> topics == ReplaceTopicLoose(old(topics), id, outcome.value) && error == None
      ensures outcome.Failure? ==> topics == old(topics) && error == Some(UpdateTopicError)
      ensures forums == old(forums) && moderatingTopics == old(moderatingTopics)
    {
      BeginRequest();
      if outcome.Success? {
        topics := ReplaceTopicLoose(topics, id, outcome.value);
      }
      EndRequest(outcome.Success?, UpdateTopicError);
    }

    method DeleteTopic(id: string, outcome: ApiResult<()>)
      modifies this
      ensures !loading
      ensures outcome.Success? ==> topics == DropTopic(old(topics), id) && error == None
      ensures outcome.Failure? ==> topics == old(topics) && error == Some(DeleteTopicError)
      ensures forums == old(forums) && moderatingTopics == old(moderatingTopics)
    {
      BeginRequest();
      if outcome.Success? {
        topics := DropTopic(topics, id);
      }
      EndRequest(outcome.Success?, DeleteTopicError);
    }

    /** The first update of a moderation action: the topic is marked as in
        flight and the error cleared; `loading` is not touched. */
    method BeginModeration(id: string)
      modifies this
      ensures moderatingTopics == old(moderatingTopics) + {id}
      ensures error == None
      ensures forums == old(forums) && topics == old(topics) && loading == old(loading)
    {
      moderatingTopics := moderatingTopics + {id};
      error := None;
    }

    /** The second update: on success the flag of the matching topics flips,
        on failure the error is set; either way the id leaves the set. */
    method EndModeration(id: string, flag: Flag, outcome: ApiResult<()>)
      modifies this
      ensures moderatingTopics == old(moderatingTopics) - {id}
      ensures outcome.Success? ==> topics == ToggleFlag(old(topics), id, flag) && error == old(error)
      ensures outcome.Failure? ==> topics == old(topics) && error == Some(ModerationError(flag))
      ensures forums == old(forums) && loading == old(loading)
    {
      if outcome.Success? {
        topics := ToggleFlag(topics, id, flag);
      } else {
        error := Some(ModerationError(flag));
      }
      moderatingTopics := moderatingTopics - {id};
    }

    /** `pinTopic`, `lockTopic` and `stickyTopic` as one action. */
    method Moderate(id: string, flag: Flag, outcome: ApiResult<()>)
      modifies this
      ensures id !in moderatingTopics
      ensures moderatingTopics == old(moderatingTopics) - {id}
      ensures outcome.Success? ==> topics == ToggleFlag(old(topics), id, flag) && error == None
      ensures outcome.Failure? ==> topics == old(topics) && error == Some(ModerationError(flag))
      ensures forums == old(forums) && loading == old(loading)
    {
      BeginModeration(id);
      assert id in moderatingTopics;
      EndModeration(id, flag, outcome);
    }

    method PinTopic(id: string, outcome: ApiResult<()>)
      modifies this
      ensures moderatingTopics == old(moderatingTopics) - {id}
      ensures outcome.Success? ==> topics == ToggleFlag(old(topics), id, Pinned) && error == None
      ensures outcome.Failure? ==> topics == old(topics) && error == Some("Konu sabitleme hatası")
      ensures forums == old(forums) && loading == old(loading)
    {
      Moderate(id, Pinned, outcome);
    }

    method LockTopic(id: string, outcome: ApiResult<()>)
      modifies this
      ensures moderatingTopics == old(moderatingTopics) - {id}
      ensures outcome.Success? ==> topics == ToggleFlag(old(topics), id, Locked) && error == None
      ensures outcome.Failure? ==> topics == old(topics) && error == Some("Konu kilitleme hatası")
      ensures forums == old(forums) && loading == old(loading)
    {
      Moderate(id, Locked, outcome);
    }

    method StickyTopic(id: string, outcome: ApiResult<()>)
      modifies this
      ensures moderatingTopics == old(moderatingTopics) - {id}
      ensures outcome.Success? ==> topics == ToggleFlag(old(topics), id, Sticky) && error == None
      ensures outcome.Failure? ==> topics == old(topics) && error == Some("Konu yapışkan yapma hatası")
      ensures forums == old(forums) && loading == old(loading)
    {
      Moderate(id, Sticky, outcome);
    }

    method SetLoading(value: bool)
      modifies this
      ensures loading == value
      ensures forums == old(forums) && topics == old(topics) && error == old(error)
      ensures moderatingTopics == old(moderatingTopics)
    {
      loading := value;
    }

    method SetError(value: Option<string>)
      modifies this
      ensures error == value
      ensures forums == old(forums) && topics == old(topics) && loading == old(loading)
      ensures moderatingTopics == old(moderatingTopics)
    {
      error := value;
    }
  }

  /** Pinning twice with both calls successful gives back the topics. */
  method PinTwice(store: Store, id: string)
    modifies store
    ensures store.topics == old(store.topics)
    ensures store.error == None && store.moderatingTopics == old(store.moderatingTopics) - {id}
  {
    store.PinTopic(id, Success(()));
    store.PinTopic(id, Success(()));
    ToggleFlagTwice(old(store.topics), id, Pinned);
  }
}
