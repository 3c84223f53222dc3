/** The forum page: a searchable table of forums with add, edit, delete and
    an active switch, and a topic view for one forum with topic creation,
    editing, deletion and moderation. The page keeps the modal, selection
    and pagination state; the forum store holds the lists. */
module ForumList {
  import opened Wrappers
  import opened Text
  import opened Lists
  import opened Js
  import opened ForumStore

  // ---------------------------------------------------------------- search

  /** The search term as it is matched: trimmed, then lower-cased. */
  function Query(search: string): (q: string)
    ensures NoUpper(q)
  {
    Lower(Trim(search))
  }

  /** `text?.toLowerCase().includes(q)` for an optional text. */
  predicate MentionsIn(text: Option<string>, q: string) {
    text.Some? && Contains(Lower(text.value), q)
  }

  /** A forum matches when its title, description or category contains the
      query, ignoring letter case. */
  predicate ForumMatches(f: Forum, q: string) {
    Contains(Lower(f.title), q) || MentionsIn(f.description, q) || MentionsIn(f.category, q)
  }

  /** `filtered`: all forums for a blank search, else the matching ones in
      their order. */
  function Filtered(forums: seq<Forum>, search: string): (r: seq<Forum>)
    ensures Query(search) == "" ==> r == forums
    ensures IsSubseq(r, forums)
    ensures Query(search) != "" ==> forall k :: 0 <= k < |r| ==> ForumMatches(r[k], Query(search))
    ensures Query(search) != "" ==>
      forall k :: 0 <= k < |forums| && ForumMatches(forums[k], Query(search)) ==> forums[k] in r
  {
    var q := Query(search);
    if q == "" then
      assert IsSubseq(forums, forums) by {
        FilterAll(forums, (f: Forum) => true);
      }
      forums
    else Filter(forums, (f: Forum) => ForumMatches(f, q))
  }

  /** Searching the result again with the same term changes nothing. */
  lemma {:induction false} FilteredIdempotent(forums: seq<Forum>, search: string)
    ensures Filtered(Filtered(forums, search), search) == Filtered(forums, search)
  {
    var q := Query(search);
    if q != "" {
      var r := Filtered(forums, search);
      FilterAll(r, (f: Forum) => ForumMatches(f, q));
    }
  }

  /** Whitespace around the search term does not change the result. */
  lemma {:induction false} FilteredIgnoresPadding(forums: seq<Forum>, search: string)
    ensures Filtered(forums, " " + search) == Filtered(forums, search)
  {
    assert (" " + search)[1..] == search;
    assert TrimStart(" " + search) == TrimStart(search);
  }

  /** A term made only of whitespace keeps every forum. */
  lemma {:induction false} FilteredOfBlank(forums: seq<Forum>, search: string)
    requires forall i :: 0 <= i < |search| ==> IsSpace(search[i])
    ensures Filtered(forums, search) == forums
  {
    TrimStartIsSuffix(search);
    assert TrimStart(search) == [];
  }

  // ---------------------------------------------------------------- topic ids

  /** Deleting by `topicId.toString()` removes exactly the topics with
      that numeric id. */
  lemma {:induction false} DeleteByNumberRemovesId(topics: seq<Topic>, topicId: int)
    ensures var r := DropTopic(topics, IntToString(topicId));
      && (forall k :: 0 <= k < |r| ==> r[k].id != topicId)
      && (forall k :: 0 <= k < |topics| && topics[k].id != topicId ==> topics[k] in r)
  {
    var r := DropTopic(topics, IntToString(topicId));
    forall k | 0 <= k < |topics| && topics[k].id != topicId ensures topics[k] in r {
      if TopicHasId(topics[k], IntToString(topicId)) {
        IntToStringInjective(topics[k].id, topicId);
      }
    }
  }

  // ---------------------------------------------------------------- the page

  /** The fields of the forum form; `None` is an empty field. */
  datatype ForumValues = ForumValues(
    title: Option<string>,
    description: Option<string>,
    category: Option<string>,
    isActive: Option<bool>)

  const EmptyForm := ForumValues(None, None, None, None)

  /** The form filled with a forum. */
  function ValuesOf(f: Forum): (v: ForumValues)
    ensures v.title == Some(f.title) && v.description == f.description
    ensures v.category == f.category && v.isActive == Some(f.isActive)
  {
    ForumValues(Some(f.title), f.description, f.category, Some(f.isActive))
  }

  /** The forum requests the page sends with their bodies. */
  datatype ForumRequest =
    | AddRequest(values: ForumValues)
    | EditRequest(id: string, values: ForumValues)
    | RemoveRequest(id: string)

  const DefaultPageSize := 10

  class Page {
    var search: string
    var modalOpen: bool
    var editing: Option<Forum>
    var viewing: Option<Forum>
    var deleteVisible: bool
    var forumToDelete: Option<Forum>
    var form: ForumValues
    var currentPage: int
    var pageSize: int
    var topicsPage: int
    var topicsPageSize: int
    var topicModalVisible: bool
    var editingTopic: Option<Topic>
    var selectedForumId: string

    constructor ()
      ensures search == "" && !modalOpen && editing.None? && viewing.None?
      ensures !deleteVisible && forumToDelete.None? && form == EmptyForm
      ensures currentPage == 1 && pageSize == DefaultPageSize
      ensures topicsPage == 1 && topicsPageSize == DefaultPageSize
      ensures !topicModalVisible && editingTopic.None? && selectedForumId == ""
    {
      search := "";
      modalOpen := false;
      editing := None;
      viewing := None;
      deleteVisible := false;
      forumToDelete := None;
      form := EmptyForm;
      currentPage := 1;
      pageSize := DefaultPageSize;
      topicsPage := 1;
      topicsPageSize := DefaultPageSize;
      topicModalVisible := false;
      editingTopic := None;
      selectedForumId := "";
    }

    /** The table's rows. */
    function Rows(store: Store): (r: seq<Forum>)
      reads this, store
      ensures IsSubseq(r, store.forums)
    {
      Filtered(store.forums, search)
    }

    method SetSearch(value: string)
      modifies this
      ensures search == value
      ensures modalOpen == old(modalOpen) && editing == old(editing) && viewing == old(viewing)
      ensures deleteVisible == old(deleteVisible) && forumToDelete == old(forumToDelete) && form == old(form)
    {
      search := value;
    }

    method OpenAdd()
      modifies this
      ensures modalOpen && editing.None? && form == EmptyForm
      ensures search == old(search) && viewing == old(viewing)
      ensures deleteVisible == old(deleteVisible) && forumToDelete == old(forumToDelete)
    {
      editing := None;
      form := EmptyForm;
      modalOpen := true;
    }

    method OpenEdit(forum: Forum)
      modifies this
      ensures modalOpen && editing == Some(forum) && form == ValuesOf(forum)
      ensures search == old(search) && viewing == old(viewing)
      ensures deleteVisible == old(deleteVisible) && forumToDelete == old(forumToDelete)
    {
      editing := Some(forum);
      form := ValuesOf(forum);
      modalOpen := true;
    }

    /** The modal's cancel: the modal closes and the rest stays. */
    method CancelModal()
      modifies this
      ensures !modalOpen && editing == old(editing) && form == old(form)
      ensures search == old(search) && viewing == old(viewing)
    {
      modalOpen := false;
    }

    /** `onSubmit`. `validated` is the outcome of `validateFields`: `None`
      when a rule failed, which rejects and changes nothing. Otherwise the
      forum being edited is updated, or a new one added; the store keeps
      its own errors, so the modal then always closes and the form is
      reset. */
    method OnSubmit(validated: Option<ForumValues>, store: Store, outcome: ApiResult<Forum>)
      returns (requests: seq<ForumRequest>)
      modifies this, store
      ensures validated.None? ==>
        && requests == [] && modalOpen == old(modalOpen) && editing == old(editing)
        && form == old(form) && store.forums == old(store.forums)
      ensures validated.Some? && old(editing).Some? ==>
        && requests == [EditRequest(old(editing).value.id, validated.value)]
        && (outcome.Success? ==> store.forums == ReplaceForum(old(store.forums), old(editing).value.id, outcome.value))
      ensures validated.Some? && old(editing).None? ==>
        && requests == [AddRequest(validated.value)]
        && (outcome.Success? ==> store.forums == old(store.forums) + [outcome.value])
      ensures validated.Some? ==> !modalOpen && editing.None? && form == EmptyForm
      ensures validated.Some? && outcome.Failure? ==> store.forums == old(store.forums)
      ensures search == old(search) && viewing == old(viewing)
      ensures deleteVisible == old(deleteVisible) && forumToDelete == old(forumToDelete)
      ensures store.topics == old(store.topics)
    {
      requests := [];
      if validated.None? {
        return;
      }
      if editing.Some? {
        requests := [EditRequest(editing.value.id, validated.value)];
        store.EditForum(editing.value.id, outcome);
      } else {
        requests := [AddRequest(validated.value)];
        store.AddForum(outcome);
      }
      modalOpen := false;
      editing := None;
      form := EmptyForm;
    }

    method OpenDeleteModal(forum: Forum)
      modifies this
      ensures deleteVisible && forumToDelete == Some(forum)
      ensures search == old(search) && viewing == old(viewing) && modalOpen == old(modalOpen)
      ensures editing == old(editing) && form == old(form)
    {
      forumToDelete := Some(forum);
      deleteVisible := true;
    }

    method CloseDeleteModal()
      modifies this
      ensures !deleteVisible && forumToDelete.None?
      ensures search == old(search) && viewing == old(viewing) && modalOpen == old(modalOpen)
      ensures editing == old(editing) && form == old(form)
    {
      deleteVisible := false;
      forumToDelete := None;
    }

    /** `handleDelete`: nothing without a forum to delete; otherwise the
      forum is removed and the confirmation closes (the store keeps its
      own errors). */
    method HandleDelete(store: Store, outcome: ApiResult<()>) returns (requests: seq<ForumRequest>)
      modifies this, store
      ensures old(forumToDelete).None? ==>
        && requests == [] && deleteVisible == old(deleteVisible)
        && forumToDelete == old(forumToDelete) && store.forums == old(store.forums)
      ensures old(forumToDelete).Some? ==>
        && requests == [RemoveRequest(old(forumToDelete).value.id)]
        && !deleteVisible && forumToDelete.None?
        && (outcome.Success? ==> store.forums == DropForum(old(store.forums), old(forumToDelete).value.id))
        && (outcome.Failure? ==> store.forums == old(store.forums))
      ensures search == old(search) && viewing == old(viewing) && modalOpen == old(modalOpen)
      ensures editing == old(editing) && form == old(form)
      ensures store.topics == old(store.topics)
    {
      requests := [];
      if forumToDelete.None? {
        return;
      }
      requests := [RemoveRequest(forumToDelete.value.id)];
      store.RemoveForum(forumToDelete.value.id, outcome);
      CloseDeleteModal();
    }

    /** The active switch of a row: an edit carrying only `isActive`. */
    method OnToggleStatus(forum: Forum, isActive: bool, store: Store, outcome: ApiResult<Forum>)
      returns (requests: seq<ForumRequest>)
      modifies store
      ensures requests == [EditRequest(forum.id, ForumValues(None, None, None, Some(isActive)))]
      ensures outcome.Success? ==> store.forums == ReplaceForum(old(store.forums), forum.id, outcome.value)
      ensures outcome.Failure? ==> store.forums == old(store.forums)
    {
      requests := [EditRequest(forum.id, ForumValues(None, None, None, Some(isActive)))];
      store.EditForum(forum.id, outcome);
    }

    /** `onViewTopics`: the topic view of `forum`, its topics loaded, and
      the topic pager back on page 1 with 10 rows. */
    method OnViewTopics(forum: Forum, store: Store, outcome: ApiResult<TopicsResponse>)
      modifies this, store
      ensures viewing == Some(forum) && topicsPage == 1 && topicsPageSize == DefaultPageSize
      ensures outcome.Success? ==> store.topics == outcome.value.topics.GetOr([])
      ensures outcome.Failure? ==> store.topics == old(store.topics)
      ensures store.forums == old(store.forums)
      ensures search == old(search) && modalOpen == old(modalOpen) && editing == old(editing)
      ensures currentPage == old(currentPage) && pageSize == old(pageSize)
    {
      viewing := Some(forum);
      store.GetTopicsByForum(forum.id, outcome);
      topicsPage := 1;
      topicsPageSize := DefaultPageSize;
    }

    /** The back button of the topic view. */
    method BackToForums()
      modifies this
      ensures viewing.None?
      ensures search == old(search) && modalOpen == old(modalOpen) && editing == old(editing)
      ensures topicsPage == old(topicsPage) && topicsPageSize == old(topicsPageSize)
    {
      viewing := None;
    }

    method SetPage(page: int, size: int)
      modifies this
      ensures currentPage == page && pageSize == size
      ensures search == old(search) && viewing == old(viewing) && modalOpen == old(modalOpen)
    {
      currentPage := page;
      pageSize := size;
    }

    method SetTopicsPage(page: int, size: int)
      modifies this
      ensures topicsPage == page && topicsPageSize == size
      ensures search == old(search) && viewing == old(viewing) && modalOpen == old(modalOpen)
    {
      topicsPage := page;
      topicsPageSize := size;
    }

    /** A new topic in forum `forumId`: the topic modal in create mode. */
    method OnAddTopic(forumId: string)
      modifies this
      ensures selectedForumId == forumId && editingTopic.None? && topicModalVisible
      ensures viewing == old(viewing) && search == old(search) && modalOpen == old(modalOpen)
    {
      selectedForumId := forumId;
      editingTopic := None;
      topicModalVisible := true;
    }

    method OnEditTopic(topic: Topic)
      modifies this
      ensures editingTopic == Some(topic) && topicModalVisible
      ensures viewing == old(viewing) && search == old(search) && modalOpen == old(modalOpen)
      ensures selectedForumId == old(selectedForumId)
    {
      editingTopic := Some(topic);
      topicModalVisible := true;
    }

    /** The topic modal's `onCancel`. */
    method CloseTopicModal()
      modifies this
      ensures !topicModalVisible && editingTopic.None?
      ensures viewing == old(viewing) && search == old(search) && modalOpen == old(modalOpen)
    {
      topicModalVisible := false;
      editingTopic := None;
    }

    /** The topic modal's `onSuccess`: reload the viewed forum's topics. */
    method OnTopicSaved(store: Store, outcome: ApiResult<TopicsResponse>) returns (reloaded: Option<string>)
      modifies store
      ensures old(viewing).None? ==> reloaded.None? && store.topics == old(store.topics)
      ensures viewing.Some? ==> reloaded == Some(viewing.value.id)
      ensures viewing.Some? && outcome.Success? ==> store.topics == outcome.value.topics.GetOr([])
      ensures store.forums == old(store.forums)
    {
      reloaded := None;
      if viewing.Some? {
        reloaded := Some(viewing.value.id);
        store.GetTopicsByForum(viewing.value.id, outcome);
      }
    }

    /** `onDeleteTopic(topicId)`: the decimal id goes to the store. */
    method OnDeleteTopic(topicId: int, store: Store, outcome: ApiResult<()>)
      modifies store
      ensures outcome.Success? ==> store.topics == DropTopic(old(store.topics), IntToString(topicId))
      ensures outcome.Failure? ==> store.topics == old(store.topics)
      ensures store.forums == old(store.forums)
    {
      store.DeleteTopic(IntToString(topicId), outcome);
    }

    /** The three moderation buttons pass the decimal id as well. */
    method OnModerateTopic(topicId: int, flag: Flag, store: Store, outcome: ApiResult<()>)
      modifies store
      ensures outcome.Success? ==> store.topics == ToggleFlag(old(store.topics), IntToString(topicId), flag)
      ensures outcome.Failure? ==> store.topics == old(store.topics)
      ensures store.forums == old(store.forums)
    {
      match flag
      case Pinned => store.PinTopic(IntToString(topicId), outcome);
      case Locked => store.LockTopic(IntToString(topicId), outcome);
      case Sticky => store.StickyTopic(IntToString(topicId), outcome);
    }
  }
}
